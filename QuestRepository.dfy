/**
 * The static quest catalog and its lookups. The catalog is a fixed list of
 * five quests; lookup by id finds the first match, lookup by category keeps
 * the matching quests in catalog order.
 */
module QuestRepository {
  import opened Wrappers
  import opened Models

  /** The five quests of the game, in catalog order. */
  function AllQuests(): seq<Quest>
  {
    [EasyJogger1(), EasyCollector(), EasyExplorer(), MediumRunner(), HardMarathon()]
  }

  function EasyJogger1(): Quest
  {
    Quest(
      id := "easy_jogger1",
      title := "ANFÄNGER JOGGER",
      description := "Laufe 1 km in unter 8 Minuten",
      category := Easy,
      targetDistance := 1.0,
      targetTime := 8,
      requiredSpeed := 2.1,
      rewardGold := 25,
      rewardXP := 30,
      npcName := "Max der Jogger",
      npcDialogueIntro := [
        "easy_jogger1/intro/1",
        "easy_jogger1/intro/2",
        "easy_jogger1/intro/3"
      ],
      npcDialogueWin := [
        "easy_jogger1/win/1",
        "easy_jogger1/win/2",
        "easy_jogger1/win/3",
        "easy_jogger1/win/4",
        "easy_jogger1/win/5"
      ],
      npcDialogueLoose := [
        "easy_jogger1/lose/1",
        "easy_jogger1/lose/2",
        "easy_jogger1/lose/3",
        "easy_jogger1/lose/4",
        "easy_jogger1/lose/5"
      ],
      latitude := 51.02847,
      longitude := 7.56234)
  }

  function EasyCollector(): Quest
  {
    Quest(
      id := "easy_collector",
      title := "NATUR-GENIEßER",
      description := "Sammle Punkte beim Laufen am See entlang",
      category := Easy,
      targetDistance := 0.8,
      targetTime := 0,
      requiredSpeed := 1.7,
      rewardGold := 20,
      rewardXP := 35,
      npcName := "Emma die Sammlerin",
      npcDialogueIntro := [
        "easy_collector/intro/1",
        "easy_collector/intro/2",
        "easy_collector/intro/3"
      ],
      npcDialogueWin := [
        "easy_collector/win/1",
        "easy_collector/win/2",
        "easy_collector/win/3",
        "easy_collector/win/4",
        "easy_collector/win/5"
      ],
      npcDialogueLoose := [
        "easy_collector/lose/1",
        "easy_collector/lose/2",
        "easy_collector/lose/3",
        "easy_collector/lose/4",
        "easy_collector/lose/5"
      ],
      latitude := 51.02756,
      longitude := 7.56445)
  }

  function EasyExplorer(): Quest
  {
    Quest(
      id := "easy_explorer",
      title := "PARK-ERKUNDER",
      description := "Erkunde 1.2 km durch den Park",
      category := Easy,
      targetDistance := 1.2,
      targetTime := 12,
      requiredSpeed := 1.7,
      rewardGold := 30,
      rewardXP := 40,
      npcName := "Ben der Entdecker",
      npcDialogueIntro := [
        "easy_explorer/intro/1",
        "easy_explorer/intro/2",
        "easy_explorer/intro/3"
      ],
      npcDialogueWin := [
        "easy_explorer/win/1",
        "easy_explorer/win/2",
        "easy_explorer/win/3",
        "easy_explorer/win/4",
        "easy_explorer/win/5"
      ],
      npcDialogueLoose := [
        "easy_explorer/lose/1",
        "easy_explorer/lose/2",
        "easy_explorer/lose/3",
        "easy_explorer/lose/4",
        "easy_explorer/lose/5"
      ],
      latitude := 51.02945,
      longitude := 7.56123)
  }

  function MediumRunner(): Quest
  {
    Quest(
      id := "medium_runner",
      title := "AUSDAUER-LÄUFER",
      description := "Laufe 3 km in unter 18 Minuten",
      category := Medium,
      targetDistance := 3.0,
      targetTime := 18,
      requiredSpeed := 2.8,
      rewardGold := 75,
      rewardXP := 100,
      npcName := "Sarah die Läuferin",
      npcDialogueIntro := [
        "medium_runner/intro/1",
        "medium_runner/intro/2",
        "medium_runner/intro/3"
      ],
      npcDialogueWin := [
        "medium_runner/win/1",
        "medium_runner/win/2",
        "medium_runner/win/3",
        "medium_runner/win/4",
        "medium_runner/win/5"
      ],
      npcDialogueLoose := [
        "medium_runner/lose/1",
        "medium_runner/lose/2",
        "medium_runner/lose/3",
        "medium_runner/lose/4",
        "medium_runner/lose/5"
      ],
      latitude := 51.02634,
      longitude := 7.56789)
  }

  function HardMarathon(): Quest
  {
    Quest(
      id := "hard_marathon",
      title := "MARATHON-MEISTER",
      description := "Intensive 5 km Strecke in unter 25 Minuten",
      category := Hard,
      targetDistance := 5.0,
      targetTime := 25,
      requiredSpeed := 3.3,
      rewardGold := 150,
      rewardXP := 250,
      npcName := "Marcus der Marathon-König",
      npcDialogueIntro := [
        "hard_marathon/intro/1",
        "hard_marathon/intro/2",
        "hard_marathon/intro/3"
      ],
      npcDialogueWin := [
        "hard_marathon/win/1",
        "hard_marathon/win/2",
        "hard_marathon/win/3",
        "hard_marathon/win/4",
        "hard_marathon/win/5"
      ],
      npcDialogueLoose := [
        "hard_marathon/lose/1",
        "hard_marathon/lose/2",
        "hard_marathon/lose/3",
        "hard_marathon/lose/4",
        "hard_marathon/lose/5"
      ],
      latitude := 51.02523,
      longitude := 7.56567)
  }

  /** No two quests of `qs` share an id. */
  ghost predicate DistinctIds(qs: seq<Quest>)
  {
    forall i, j :: 0 <= i < j < |qs| ==> qs[i].id != qs[j].id
  }

  /** `sub` can be obtained from `s` by dropping elements, keeping the order. */
  ghost predicate Subsequence(sub: seq<Quest>, s: seq<Quest>)
    decreases |s|
  {
    sub == [] || (s != [] && if sub[0] == s[0] then Subsequence(sub[1..], s[1..]) else Subsequence(sub, s[1..]))
  }

  /** The first quest of `qs` whose id is `id`, if any (Kotlin's `find`). */
  function Find(qs: seq<Quest>, id: string): (r: Option<Quest>)
    ensures r.None? <==> forall q :: q in qs ==> q.id != id
    ensures r.Some? ==> exists i :: 0 <= i < |qs| && qs[i] == r.value && r.value.id == id &&
                                    forall j :: 0 <= j < i ==> qs[j].id != id
  {
    if qs == [] then None
    else if qs[0].id == id then Some(qs[0])
    else
      var r := Find(qs[1..], id);
      assert r.Some? ==> exists i :: 0 < i < |qs| && qs[i] == r.value && r.value.id == id &&
                                     forall j :: 0 <= j < i ==> qs[j].id != id by {
        if r.Some? {
          var k :| 0 <= k < |qs[1..]| && qs[1..][k] == r.value && r.value.id == id &&
                   forall j :: 0 <= j < k ==> qs[1..][j].id != id;
          assert qs[k + 1] == r.value;
          assert forall j :: 0 <= j < k + 1 ==> qs[j].id != id by {
            forall j | 0 <= j < k + 1 ensures qs[j].id != id {
              if j > 0 { assert qs[j] == qs[1..][j - 1]; }
            }
          }
        }
      }
      r
  }

  /** The quests of `qs` whose category is `c`, in their original order (Kotlin's `filter`). */
  function FilterByCategory(qs: seq<Quest>, c: QuestCategory): (r: seq<Quest>)
    ensures forall q :: q in r <==> q in qs && q.category == c
  {
    if qs == [] then []
    else if qs[0].category == c then [qs[0]] + FilterByCategory(qs[1..], c)
    else FilterByCategory(qs[1..], c)
  }

  /** The filter keeps the quests in their original order: its result is a subsequence of the input. */
  lemma {:induction false} FilterKeepsOrder(qs: seq<Quest>, c: QuestCategory)
    ensures Subsequence(FilterByCategory(qs, c), qs)
  {
    if qs != [] {
      FilterKeepsOrder(qs[1..], c);
      var r := FilterByCategory(qs, c);
      if qs[0].category == c {
        assert r[0] == qs[0] && r[1..] == FilterByCategory(qs[1..], c);
      } else if r != [] {
        assert r[0] in FilterByCategory(qs[1..], c);
        assert r[0].category == c;
      }
    }
  }

  /**
   * The filter keeps every copy of a quest of category `c` and no copy of
   * any other quest: each quest occurs in the result exactly as often as in
   * the input when its category is `c`, and never otherwise.
   */
  lemma {:induction false} FilterKeepsMultiplicity(qs: seq<Quest>, c: QuestCategory)
    ensures forall q :: multiset(FilterByCategory(qs, c))[q] == if q.category == c then multiset(qs)[q] else 0
  {
    if qs != [] {
      FilterKeepsMultiplicity(qs[1..], c);
      assert qs == [qs[0]] + qs[1..];
    }
  }

  function GetQuestById(questId: string): Option<Quest>
  {
    Find(AllQuests(), questId)
  }

  function GetQuestsByCategory(category: QuestCategory): seq<Quest>
  {
    FilterByCategory(AllQuests(), category)
  }

  function GetEasyQuests(): seq<Quest> { GetQuestsByCategory(Easy) }
  function GetMediumQuests(): seq<Quest> { GetQuestsByCategory(Medium) }
  function GetHardQuests(): seq<Quest> { GetQuestsByCategory(Hard) }

  /** In a list without repeated ids, looking up a member's id finds that member. */
  lemma {:induction false} FindMember(qs: seq<Quest>, q: Quest)
    requires DistinctIds(qs)
    requires q in qs
    ensures Find(qs, q.id) == Some(q)
  {
    if qs[0] != q {
      var i :| 0 <= i < |qs| && qs[i] == q;
      assert qs[0].id != q.id;
      assert qs[1..][i - 1] == q;
      FindMember(qs[1..], q);
    }
  }

  /** Five quests whose ids differ pairwise have distinct ids. */
  lemma DistinctIdsOfFive(qs: seq<Quest>)
    requires |qs| == 5
    requires qs[0].id != qs[1].id && qs[0].id != qs[2].id && qs[0].id != qs[3].id && qs[0].id != qs[4].id
    requires qs[1].id != qs[2].id && qs[1].id != qs[3].id && qs[1].id != qs[4].id
    requires qs[2].id != qs[3].id && qs[2].id != qs[4].id && qs[3].id != qs[4].id
    ensures DistinctIds(qs)
  {
  }

  /** The catalog holds five quests with pairwise distinct ids. */
  lemma CatalogShape()
    ensures |AllQuests()| == 5
    ensures DistinctIds(AllQuests())
  {
    DistinctIdsOfFive(AllQuests());
  }

  /** Every catalog quest is found again by its own id; an id outside the catalog finds nothing. */
  lemma GetQuestByIdRoundTrip(q: Quest, id: string)
    ensures q in AllQuests() ==> GetQuestById(q.id) == Some(q)
    ensures (forall p :: p in AllQuests() ==> p.id != id) <==> GetQuestById(id) == None
  {
    if q in AllQuests() {
      CatalogShape();
      FindMember(AllQuests(), q);
    }
  }

  /**
   * Filtering a list laid out like the catalog (three EASY quests, then a
   * MEDIUM and a HARD one) keeps the quests of the asked category, in order.
   */
  lemma FilterCatalogLayout(e1: Quest, e2: Quest, e3: Quest, m: Quest, h: Quest, c: QuestCategory)
    requires e1.category == Easy && e2.category == Easy && e3.category == Easy
    requires m.category == Medium && h.category == Hard
    ensures FilterByCategory([e1, e2, e3, m, h], c) ==
      match c
      case Easy => [e1, e2, e3]
      case Medium => [m]
      case Hard => [h]
      case Expert => []
  {
    assert [e1] + [e2, e3, m, h] == [e1, e2, e3, m, h];
    FilterEasyPair(e2, e3, m, h, c);
    FilterCons(e1, [e2, e3, m, h], c);
    match c
    case Easy =>
      assert [e1] + [e2, e3] == [e1, e2, e3];
    case Medium =>
      assert [] + [m] == [m];
    case Hard =>
      assert [] + [h] == [h];
    case Expert =>
  }

  /** The last two EASY quests of the layout and its tail under the filter. */
  lemma FilterEasyPair(e2: Quest, e3: Quest, m: Quest, h: Quest, c: QuestCategory)
    requires e2.category == Easy && e3.category == Easy
    requires m.category == Medium && h.category == Hard
    ensures FilterByCategory([e2, e3, m, h], c) ==
      match c
      case Easy => [e2, e3]
      case Medium => [m]
      case Hard => [h]
      case Expert => []
  {
    FilterEasyLast(e3, m, h, c);
    FilterCons(e2, [e3, m, h], c);
    assert [e2] + [e3, m, h] == [e2, e3, m, h];
    if c == Easy {
      assert [e2] + [e3] == [e2, e3];
    }
  }

  /** The last EASY quest of the layout and its tail under the filter. */
  lemma FilterEasyLast(e3: Quest, m: Quest, h: Quest, c: QuestCategory)
    requires e3.category == Easy
    requires m.category == Medium && h.category == Hard
    ensures FilterByCategory([e3, m, h], c) ==
      match c
      case Easy => [e3]
      case Medium => [m]
      case Hard => [h]
      case Expert => []
  {
    FilterTail(m, h, c);
    FilterCons(e3, [m, h], c);
    assert [e3] + [m, h] == [e3, m, h];
  }

  /** The MEDIUM-then-HARD tail of the catalog layout under the filter. */
  lemma FilterTail(m: Quest, h: Quest, c: QuestCategory)
    requires m.category == Medium && h.category == Hard
    ensures FilterByCategory([m, h], c) == if c == Medium then [m] else if c == Hard then [h] else []
  {
    FilterCons(m, [h], c);
    FilterCons(h, [], c);
    assert [m] + [h] == [m, h] && [h] + [] == [h];
  }

  /** One step of the filter: the head is kept exactly when it is of category `c`. */
  lemma FilterCons(q: Quest, rest: seq<Quest>, c: QuestCategory)
    ensures FilterByCategory([q] + rest, c) == (if q.category == c then [q] else []) + FilterByCategory(rest, c)
  {
    assert ([q] + rest)[1..] == rest;
  }

  /**
   * The category helpers return the three EASY quests, the MEDIUM quest and
   * the HARD quest, in catalog order; no quest is rated EXPERT.
   */
  lemma CategoryCounts()
    ensures GetEasyQuests() == [EasyJogger1(), EasyCollector(), EasyExplorer()]
    ensures GetMediumQuests() == [MediumRunner()]
    ensures GetHardQuests() == [HardMarathon()]
    ensures GetQuestsByCategory(Expert) == []
  {
    FilterCatalogLayout(EasyJogger1(), EasyCollector(), EasyExplorer(), MediumRunner(), HardMarathon(), Easy);
    FilterCatalogLayout(EasyJogger1(), EasyCollector(), EasyExplorer(), MediumRunner(), HardMarathon(), Medium);
    FilterCatalogLayout(EasyJogger1(), EasyCollector(), EasyExplorer(), MediumRunner(), HardMarathon(), Hard);
    FilterCatalogLayout(EasyJogger1(), EasyCollector(), EasyExplorer(), MediumRunner(), HardMarathon(), Expert);
  }

  /**
   * Every catalog quest has something to say in each situation, positive
   * distance and speed targets and positive rewards; only `easy_collector`
   * has no time limit.
   */
  lemma CatalogWellFormed(q: Quest)
    requires q in AllQuests()
    ensures |q.npcDialogueIntro| > 0 && |q.npcDialogueWin| > 0 && |q.npcDialogueLoose| > 0
    ensures q.targetDistance > 0.0 && q.requiredSpeed > 0.0
    ensures q.rewardGold > 0 && q.rewardXP > 0
    ensures q.targetTime == 0 <==> q.id == "easy_collector"
  {
  }
}
