/**
 * The app's navigation destinations: seven fixed routes and two route
 * templates with a `{questId}` placeholder, each with a builder that fills
 * the placeholder in.
 */
module Navigation {
  datatype Screen = Map | Avatar | Profil | Shop | Social | Statistics | Settings | QuestDetail | RunningSession
  {
    /** The route string the navigation host registers for this screen. */
    function Route(): string
    {
      match this
      case Map => "map"
      case Avatar => "avatar"
      case Profil => "profil"
      case Shop => "shop"
      case Social => "social"
      case Statistics => "statistics"
      case Settings => "settings"
      case QuestDetail => "quest_detail/{questId}"
      case RunningSession => "running_session/{questId}"
    }
  }

  const Placeholder: string := "{questId}"
  const QuestDetailPrefix: string := "quest_detail/"
  const RunningSessionPrefix: string := "running_session/"

  /** The route that opens the detail page of quest `questId`. */
  function QuestDetailRoute(questId: string): (r: string)
    ensures |r| == |QuestDetailPrefix| + |questId|
    ensures r[..|QuestDetailPrefix|] == QuestDetailPrefix && r[|QuestDetailPrefix|..] == questId
  {
    QuestDetailPrefix + questId
  }

  /** The route that opens the running session for quest `questId`. */
  function RunningSessionRoute(questId: string): (r: string)
    ensures |r| == |RunningSessionPrefix| + |questId|
    ensures r[..|RunningSessionPrefix|] == RunningSessionPrefix && r[|RunningSessionPrefix|..] == questId
  {
    RunningSessionPrefix + questId
  }

  /** No two screens share a route. */
  lemma RoutesDistinct(a: Screen, b: Screen)
    ensures a.Route() == b.Route() <==> a == b
  {
    if a != b {
      // Every route is told apart from every other by its first two characters.
      assert a.Route()[0] != b.Route()[0] || a.Route()[1] != b.Route()[1];
    }
  }

  /** Different quests get different routes, for both builders. */
  lemma BuildersInjective(id1: string, id2: string)
    ensures QuestDetailRoute(id1) == QuestDetailRoute(id2) <==> id1 == id2
    ensures RunningSessionRoute(id1) == RunningSessionRoute(id2) <==> id1 == id2
  {
    if QuestDetailRoute(id1) == QuestDetailRoute(id2) {
      assert id1 == QuestDetailRoute(id1)[|QuestDetailPrefix|..];
    }
    if RunningSessionRoute(id1) == RunningSessionRoute(id2) {
      assert id1 == RunningSessionRoute(id1)[|RunningSessionPrefix|..];
    }
  }

  /** A quest-detail route is never a running-session route, whatever the two ids. */
  lemma BuildersDisjoint(id1: string, id2: string)
    ensures QuestDetailRoute(id1) != RunningSessionRoute(id2)
  {
    assert QuestDetailRoute(id1)[0] == 'q';
    assert RunningSessionRoute(id2)[0] == 'r';
  }

  /** Replaces a trailing `{questId}` placeholder of a template by `questId`; other templates are kept. */
  function FillTemplate(template: string, questId: string): (r: string)
    ensures |template| >= |Placeholder| && template[|template| - |Placeholder|..] == Placeholder ==>
      r == template[..|template| - |Placeholder|] + questId
  {
    var n := |template| - |Placeholder|;
    if n >= 0 && template[n..] == Placeholder then template[..n] + questId else template
  }

  /** Each builder is its screen's template with the placeholder filled in. */
  lemma BuildersFillTemplates(questId: string)
    ensures QuestDetailRoute(questId) == FillTemplate(QuestDetail.Route(), questId)
    ensures RunningSessionRoute(questId) == FillTemplate(RunningSession.Route(), questId)
  {
    assert QuestDetail.Route() == QuestDetailPrefix + Placeholder;
    assert RunningSession.Route() == RunningSessionPrefix + Placeholder;
  }
}
