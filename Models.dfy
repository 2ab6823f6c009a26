/**
 * The data model of the challenge engine: quests, their difficulty
 * categories, the running session snapshot, the final result and the
 * recorded GPS points. Kotlin `Double` becomes `real`, `Long`/`Int` become
 * `int`, `String` becomes `string` and `List<T>` becomes `seq<T>`. Default
 * argument values of the Kotlin data classes are kept as default values of
 * the constructors.
 */
module Models {

  /** Difficulty of a quest; each carries a colour, a German label and a base reward. */
  datatype QuestCategory = Easy | Medium | Hard | Expert {

    function ColorCode(): string
    {
      match this
      case Easy => "#4CAF50"
      case Medium => "#FF9800"
      case Hard => "#F44336"
      case Expert => "#9C27B0"
    }

    function Difficulty(): string
    {
      match this
      case Easy => "Einfach"
      case Medium => "Mittel"
      case Hard => "Schwer"
      case Expert => "Experte"
    }

    function BaseReward(): int
    {
      match this
      case Easy => 25
      case Medium => 75
      case Hard => 150
      case Expert => 300
    }

    /** Position in the declaration order of the enum. */
    function Ordinal(): nat
    {
      match this
      case Easy => 0
      case Medium => 1
      case Hard => 2
      case Expert => 3
    }
  }

  /** The base reward grows strictly with the difficulty and is always positive. */
  lemma BaseRewardIncreasing(a: QuestCategory, b: QuestCategory)
    ensures a.Ordinal() < b.Ordinal() <==> a.BaseReward() < b.BaseReward()
    ensures a.BaseReward() > 0
  {
  }

  /**
   * A quest. The targets `targetDistance` (km), `targetTime` (minutes) and
   * `requiredSpeed` default to 0, which the evaluation reads as "no constraint".
   */
  datatype Quest = Quest(
    id: string := "",
    title: string := "",
    description: string := "",
    category: QuestCategory := Easy,
    targetDistance: real := 0.0,
    targetTime: int := 0,
    requiredSpeed: real := 0.0,
    rewardGold: int := 0,
    rewardXP: int := 0,
    npcName: string := "",
    npcDialogueIntro: seq<string> := [],
    npcDialogueWin: seq<string> := [],
    npcDialogueLoose: seq<string> := [],
    latitude: real := 0.0,
    longitude: real := 0.0,
    isCompleted: bool := false,
    bestTime: int := 0,
    bestSpeed: real := 0.0)

  /** The outcome of one completed (or failed) challenge. */
  datatype ChallengeResult = ChallengeResult(
    questId: string,
    completed: bool,
    timeTaken: int,
    averageSpeed: real,
    distance: real,
    goldEarned: int := 0,
    xpEarned: int := 0,
    npcMessage: string := "")

  /** One recorded GPS fix of the route history. */
  datatype LocationPoint = LocationPoint(
    latitude: real := 0.0,
    longitude: real := 0.0,
    timestamp: int := 0,
    speed: real := 0.0)

  /** Snapshot of the running challenge. */
  datatype ChallengeSession = ChallengeSession(
    questId: string,
    startTime: int := 0,
    isActive: bool := false,
    elapsedTime: int := 0,
    currentSpeed: real := 0.0,
    distanceCovered: real := 0.0,
    route: seq<LocationPoint> := [])

  /** A map coordinate (the maps library's `LatLng`). */
  datatype LatLng = LatLng(latitude: real, longitude: real)

  /** A quest built from its defaults has no target at all and no reward. */
  lemma QuestDefaults(id: string)
    ensures Quest(id := id).targetDistance == 0.0
    ensures Quest(id := id).targetTime == 0
    ensures Quest(id := id).requiredSpeed == 0.0
    ensures Quest(id := id).rewardGold == 0 && Quest(id := id).rewardXP == 0
    ensures Quest(id := id).category == Easy
  {
  }

  /** A result built without rewards or message earns nothing and says nothing. */
  lemma ChallengeResultDefaults(questId: string, completed: bool, timeTaken: int, averageSpeed: real, distance: real)
    ensures ChallengeResult(questId, completed, timeTaken, averageSpeed, distance).goldEarned == 0
    ensures ChallengeResult(questId, completed, timeTaken, averageSpeed, distance).xpEarned == 0
    ensures ChallengeResult(questId, completed, timeTaken, averageSpeed, distance).npcMessage == ""
  {
  }

  /** A session built from its defaults is inactive, has no progress and an empty route. */
  lemma ChallengeSessionDefaults(questId: string)
    ensures !ChallengeSession(questId).isActive
    ensures ChallengeSession(questId).startTime == 0
    ensures ChallengeSession(questId).elapsedTime == 0
    ensures ChallengeSession(questId).currentSpeed == 0.0
    ensures ChallengeSession(questId).distanceCovered == 0.0
    ensures ChallengeSession(questId).route == []
  {
  }
}
