/**
 * The challenge session engine. A `ChallengeManager` holds at most one
 * session; `StartChallenge` opens it, `UpdateLocation` feeds it GPS fixes,
 * `CompleteChallenge` evaluates it against the quest and `CancelChallenge`
 * drops it. The two coroutine timers of the app become the explicit
 * `TimerTick` and `SpeedCheckTick` steps, the clock becomes a `now`
 * parameter (epoch milliseconds) and the audio cues become an appended log.
 *
 * The pure rules (average speed, pace feedback, win/lose evaluation and the
 * route length) are functions of this module, proved about on their own.
 */
module Challenges {
  import opened Wrappers
  import opened Models

  /** The sounds the engine asks the audio manager to play. */
  datatype Cue = ChallengeStart | ChallengeSuccess | ChallengeFail | SpeedWarning | SpeedGood

  /** Outcome of one pace check. */
  datatype Feedback = Warning | Good | NoSignal

  /**
   * The platform's geodesic distance between two coordinates, in metres; it
   * sees only latitude and longitude, never a fix's time or speed.
   */
  type DistanceFn = (LatLng, LatLng) -> real

  ghost predicate NonNegative(distanceTo: DistanceFn)
  {
    forall a, b :: distanceTo(a, b) >= 0.0
  }

  const MillisPerHour: real := 3600000.0

  /**
   * Average speed in km/h from a distance in km and an elapsed time in
   * milliseconds; 0 unless both are positive.
   */
  function AverageSpeed(distance: real, elapsed: int): (r: real)
    ensures r >= 0.0
    ensures r > 0.0 <==> elapsed > 0 && distance > 0.0
    ensures r > 0.0 ==> r * (elapsed as real) == distance * MillisPerHour
  {
    var timeInHours := elapsed as real / MillisPerHour;
    if timeInHours > 0.0 && distance > 0.0 then
      var r := distance / timeInHours;
      assert r * timeInHours == distance;
      assert r * (elapsed as real) == r * timeInHours * MillisPerHour;
      r
    else 0.0
  }

  /**
   * The pace check: a warning below 80% of the required speed, praise at or
   * above it, nothing in between, and nothing when no speed is required or
   * no distance has been covered yet.
   */
  function SpeedFeedback(avgSpeed: real, requiredSpeed: real): (f: Feedback)
    ensures f == Warning <==> requiredSpeed > 0.0 && avgSpeed > 0.0 && avgSpeed < requiredSpeed * 0.8
    ensures f == Good <==> requiredSpeed > 0.0 && avgSpeed > 0.0 && avgSpeed >= requiredSpeed
  {
    if requiredSpeed > 0.0 && avgSpeed > 0.0 then
      if avgSpeed < requiredSpeed * 0.8 then Warning
      else if avgSpeed >= requiredSpeed then Good
      else NoSignal
    else NoSignal
  }

  /** The cue a pace check plays. */
  function FeedbackCues(f: Feedback): (cs: seq<Cue>)
    ensures |cs| <= 1
  {
    match f
    case Warning => [SpeedWarning]
    case Good => [SpeedGood]
    case NoSignal => []
  }

  predicate TimeSuccess(targetTime: int, timeTaken: int)
  {
    targetTime <= 0 || timeTaken <= targetTime * 60 * 1000
  }

  predicate DistanceSuccess(targetDistance: real, distance: real)
  {
    targetDistance <= 0.0 || distance >= targetDistance
  }

  predicate SpeedSuccess(requiredSpeed: real, avgSpeed: real)
  {
    requiredSpeed <= 0.0 || avgSpeed >= requiredSpeed
  }

  /**
   * The result of completing `quest` after `timeTaken` ms and `distance`
   * km: won exactly when every target that is set (non-zero) is met, and
   * rewarded with the quest's gold and XP only when won.
   */
  function Evaluate(quest: Quest, timeTaken: int, distance: real, npcMessage: string): (r: ChallengeResult)
    ensures r.questId == quest.id && r.timeTaken == timeTaken && r.distance == distance
    ensures r.averageSpeed == AverageSpeed(distance, timeTaken)
    ensures r.completed <==>
      && (quest.targetTime <= 0 || timeTaken <= quest.targetTime * 60000)
      && (quest.targetDistance <= 0.0 || distance >= quest.targetDistance)
      && (quest.requiredSpeed <= 0.0 || r.averageSpeed >= quest.requiredSpeed)
    ensures r.goldEarned == (if r.completed then quest.rewardGold else 0)
    ensures r.xpEarned == (if r.completed then quest.rewardXP else 0)
    ensures r.npcMessage == npcMessage
  {
    var avgSpeed := AverageSpeed(distance, timeTaken);
    var isCompleted := TimeSuccess(quest.targetTime, timeTaken)
                       && DistanceSuccess(quest.targetDistance, distance)
                       && SpeedSuccess(quest.requiredSpeed, avgSpeed);
    ChallengeResult(
      questId := quest.id,
      completed := isCompleted,
      timeTaken := timeTaken,
      averageSpeed := avgSpeed,
      distance := distance,
      goldEarned := if isCompleted then quest.rewardGold else 0,
      xpEarned := if isCompleted then quest.rewardXP else 0,
      npcMessage := npcMessage)
  }

  /** A pace warning means the run is currently failing the speed target; praise means it meets it. */
  lemma FeedbackAgreesWithVerdict(avgSpeed: real, requiredSpeed: real)
    ensures SpeedFeedback(avgSpeed, requiredSpeed) == Warning ==> !SpeedSuccess(requiredSpeed, avgSpeed)
    ensures SpeedFeedback(avgSpeed, requiredSpeed) == Good ==> SpeedSuccess(requiredSpeed, avgSpeed)
  {
  }

  lemma CancelPositive(x: real, y: real, e: real)
    requires e > 0.0 && x * e <= y * e
    ensures x <= y
  {
  }

  lemma RatioMonotone(r: real, r': real, d: real, d': real, e: real, k: real)
    requires e > 0.0 && k > 0.0 && d <= d'
    requires r * e == d * k && r' * e == d' * k
    ensures r <= r'
  {
    assert d * k <= d' * k;
    CancelPositive(r, r', e);
  }

  lemma ScaleNonNegative(x: real, e: real, e': real)
    requires x >= 0.0 && e' <= e
    ensures x * e' <= x * e && e' * x <= e * x
  {
  }

  /** Over the same distance, a shorter (positive) time never gives a lower average speed. */
  lemma AverageSpeedAntitone(distance: real, elapsed: int, elapsed': int)
    requires 0 < elapsed' <= elapsed
    ensures AverageSpeed(distance, elapsed') >= AverageSpeed(distance, elapsed)
  {
    var r := AverageSpeed(distance, elapsed);
    var r' := AverageSpeed(distance, elapsed');
    if distance > 0.0 {
      var e, e' := elapsed as real, elapsed' as real;
      var k := distance * MillisPerHour;
      assert r * e == k && r' * e' == k;
      ScaleNonNegative(r, e, e');
      var x, y := r * e', r' * e';
      assert x <= y;
      CancelPositive(r, r', e');
    }
  }

  /** In the same time, a longer distance never gives a lower average speed. */
  lemma AverageSpeedMonotone(distance: real, distance': real, elapsed: int)
    requires distance <= distance'
    ensures AverageSpeed(distance, elapsed) <= AverageSpeed(distance', elapsed)
  {
    var r := AverageSpeed(distance, elapsed);
    var r' := AverageSpeed(distance', elapsed);
    if distance > 0.0 && elapsed > 0 {
      RatioMonotone(r, r', distance, distance', elapsed as real, MillisPerHour);
    }
  }

  /** A won challenge stays won if the same distance had been run faster. */
  lemma FasterKeepsWin(quest: Quest, timeTaken: int, faster: int, distance: real, npcMessage: string)
    requires Evaluate(quest, timeTaken, distance, npcMessage).completed
    requires 0 < faster <= timeTaken
    ensures Evaluate(quest, faster, distance, npcMessage).completed
  {
    AverageSpeedAntitone(distance, timeTaken, faster);
  }

  /** A won challenge stays won if a longer distance had been run in the same time. */
  lemma FurtherKeepsWin(quest: Quest, timeTaken: int, distance: real, further: real, npcMessage: string)
    requires Evaluate(quest, timeTaken, distance, npcMessage).completed
    requires distance <= further
    ensures Evaluate(quest, timeTaken, further, npcMessage).completed
  {
    AverageSpeedMonotone(distance, further, timeTaken);
  }

  /** A quest that sets no target (all three left at their defaults) is won by any run. */
  lemma UnconstrainedQuestAlwaysWon(id: string, timeTaken: int, distance: real, npcMessage: string)
    ensures Evaluate(Quest(id := id), timeTaken, distance, npcMessage).completed
  {
  }

  /**
   * A quest with a 8-minute limit over 1.0 km at 2.1: covering the kilometre
   * in 7 minutes wins it, taking 9 minutes loses it and earns nothing.
   */
  lemma EightMinuteKilometre(quest: Quest)
    requires quest.targetDistance == 1.0 && quest.targetTime == 8 && quest.requiredSpeed == 2.1
    ensures Evaluate(quest, 7 * 60000, 1.0, "").completed
    ensures !Evaluate(quest, 9 * 60000, 1.0, "").completed
    ensures Evaluate(quest, 9 * 60000, 1.0, "").goldEarned == 0
  {
    var r := AverageSpeed(1.0, 7 * 60000);
    assert r * 420000.0 == 3600000.0;
    assert r >= 2.1;
  }

  const FailedMessage: string := "Challenge konnte nicht gestartet werden!"

  /** The result returned when there is no session to complete. */
  function FailedResult(questId: string): (r: ChallengeResult)
    ensures r.questId == questId && !r.completed
    ensures r.timeTaken == 0 && r.averageSpeed == 0.0 && r.distance == 0.0
    ensures r.goldEarned == 0 && r.xpEarned == 0
    ensures r.npcMessage == FailedMessage
  {
    ChallengeResult(
      questId := questId,
      completed := false,
      timeTaken := 0,
      averageSpeed := 0.0,
      distance := 0.0,
      npcMessage := FailedMessage)
  }

  /** Where a recorded fix was taken. */
  function Position(p: LocationPoint): LatLng
  {
    LatLng(p.latitude, p.longitude)
  }

  /** The distance in km from one fix to the next. */
  function Leg(distanceTo: DistanceFn, from: LocationPoint, to: LocationPoint): real
  {
    distanceTo(Position(from), Position(to)) / 1000.0
  }

  /** Length in km of a route: the sum of the distances between consecutive fixes. */
  function PathLength(distanceTo: DistanceFn, route: seq<LocationPoint>): real
  {
    if |route| <= 1 then 0.0
    else PathLength(distanceTo, route[..|route| - 1]) + Leg(distanceTo, route[|route| - 2], route[|route| - 1])
  }

  /** Two routes through the same coordinates, fix by fix, whatever their times and speeds. */
  ghost predicate SameCourse(a: seq<LocationPoint>, b: seq<LocationPoint>)
  {
    |a| == |b| && forall i :: 0 <= i < |a| ==> Position(a[i]) == Position(b[i])
  }

  /** The last fix of a route, if any. */
  function LastFix(route: seq<LocationPoint>): Option<LocationPoint>
  {
    if route == [] then None else Some(route[|route| - 1])
  }

  /** Appending a fix adds exactly the leg from the previous last fix, and nothing for the first fix. */
  lemma PathLengthSnoc(distanceTo: DistanceFn, route: seq<LocationPoint>, p: LocationPoint)
    ensures PathLength(distanceTo, route + [p]) ==
      PathLength(distanceTo, route) + (if route == [] then 0.0 else Leg(distanceTo, route[|route| - 1], p))
  {
    var r := route + [p];
    assert r[..|r| - 1] == route;
  }

  lemma {:induction false} PathLengthNonNegative(distanceTo: DistanceFn, route: seq<LocationPoint>)
    requires NonNegative(distanceTo)
    ensures PathLength(distanceTo, route) >= 0.0
  {
    if |route| > 1 {
      PathLengthNonNegative(distanceTo, route[..|route| - 1]);
    }
  }

  /**
   * The length of two routes joined is the sum of their lengths plus the
   * leg that joins them.
   */
  lemma {:induction false} PathLengthAppend(distanceTo: DistanceFn, a: seq<LocationPoint>, b: seq<LocationPoint>)
    ensures PathLength(distanceTo, a + b) ==
      PathLength(distanceTo, a) + PathLength(distanceTo, b) +
      (if a != [] && b != [] then Leg(distanceTo, a[|a| - 1], b[0]) else 0.0)
    decreases |b|
  {
    if b == [] {
      assert a + b == a;
    } else {
      var b' := b[..|b| - 1];
      var p := b[|b| - 1];
      assert a + b == (a + b') + [p];
      assert b == b' + [p];
      PathLengthAppend(distanceTo, a, b');
      PathLengthSnoc(distanceTo, a + b', p);
      PathLengthSnoc(distanceTo, b', p);
      if b' != [] {
        assert (a + b')[|a + b'| - 1] == b'[|b'| - 1];
        assert b[0] == b'[0];
      }
    }
  }

  /** Distance never shrinks as fixes are added: every prefix of a route is no longer than the route. */
  lemma PathLengthMonotone(distanceTo: DistanceFn, route: seq<LocationPoint>, k: nat)
    requires NonNegative(distanceTo)
    requires k <= |route|
    ensures PathLength(distanceTo, route[..k]) <= PathLength(distanceTo, route)
  {
    assert route == route[..k] + route[k..];
    PathLengthAppend(distanceTo, route[..k], route[k..]);
    PathLengthNonNegative(distanceTo, route[k..]);
  }

  /** The route length depends only on where the fixes were taken. */
  lemma {:induction false} PathLengthOnlyPositions(distanceTo: DistanceFn, a: seq<LocationPoint>, b: seq<LocationPoint>)
    requires SameCourse(a, b)
    ensures PathLength(distanceTo, a) == PathLength(distanceTo, b)
  {
    if |a| > 1 {
      PathLengthOnlyPositions(distanceTo, a[..|a| - 1], b[..|b| - 1]);
      assert Position(a[|a| - 2]) == Position(b[|b| - 2]);
      assert Position(a[|a| - 1]) == Position(b[|b| - 1]);
    }
  }

  /**
   * Feeding the same coordinates a second time into one session without a
   * restart, at any later times and speeds, counts the route twice plus the
   * jump from its end back to its start.
   */
  lemma ReplayAccumulates(distanceTo: DistanceFn, route: seq<LocationPoint>, replay: seq<LocationPoint>)
    requires NonNegative(distanceTo)
    requires SameCourse(route, replay)
    ensures PathLength(distanceTo, route + replay) ==
      2.0 * PathLength(distanceTo, route) + (if route == [] then 0.0 else Leg(distanceTo, route[|route| - 1], route[0]))
    ensures PathLength(distanceTo, route + replay) >= 2.0 * PathLength(distanceTo, route)
  {
    PathLengthAppend(distanceTo, route, replay);
    PathLengthOnlyPositions(distanceTo, route, replay);
    if route != [] {
      assert Position(replay[0]) == Position(route[0]);
    }
  }

  class ChallengeManager {
    var currentSession: Option<ChallengeSession>
    var elapsedTime: int
    var currentSpeed: real
    var distanceCovered: real
    /** The elapsed-time ticker, if running, with the clock value it started at. */
    var timerJob: Option<int>
    /** The pace monitor, if running, with the quest it checks against. */
    var speedCheckJob: Option<Quest>
    var lastSpeedCheckTime: int
    var previousLocation: Option<LocationPoint>
    var locationHistory: seq<LocationPoint>
    /** Every cue played so far, oldest first. */
    var cues: seq<Cue>
    const distanceTo: DistanceFn

    /**
     * The covered distance is the length of the recorded route, the
     * previous fix is its last point, both timers run exactly while a
     * session exists, and the session snapshot agrees with the tracker.
     */
    ghost predicate Valid()
      reads this
    {
      && NonNegative(distanceTo)
      && distanceCovered == PathLength(distanceTo, locationHistory)
      && previousLocation == LastFix(locationHistory)
      && timerJob.Some? == currentSession.Some?
      && speedCheckJob.Some? == currentSession.Some?
      && (currentSession.Some? ==>
            currentSession.value.isActive
            && currentSession.value.distanceCovered == distanceCovered
            && currentSession.value.route == locationHistory)
    }

    /** Whether a session is running. */
    predicate IsActive()
      reads this
    {
      currentSession.Some? && currentSession.value.isActive
    }

    constructor (distanceTo: DistanceFn)
      requires NonNegative(distanceTo)
      ensures Valid() && this.distanceTo == distanceTo
      ensures currentSession == None && elapsedTime == 0 && currentSpeed == 0.0 && distanceCovered == 0.0
      ensures timerJob == None && speedCheckJob == None && lastSpeedCheckTime == 0
      ensures previousLocation == None && locationHistory == [] && cues == []
    {
      this.distanceTo := distanceTo;
      currentSession := None;
      elapsedTime := 0;
      currentSpeed := 0.0;
      distanceCovered := 0.0;
      timerJob := None;
      speedCheckJob := None;
      lastSpeedCheckTime := 0;
      previousLocation := None;
      locationHistory := [];
      cues := [];
    }

    /**
     * Opens a session for `quest` at time `now`, unless one is already
     * running, in which case nothing changes and the answer is false.
     */
    method StartChallenge(quest: Quest, now: int) returns (started: bool)
      requires Valid()
      modifies this
      ensures Valid()
      ensures started <==> !old(IsActive())
      ensures !started ==> unchanged(this)
      ensures started ==>
        && currentSession == Some(ChallengeSession(questId := quest.id, startTime := now, isActive := true))
        && elapsedTime == 0 && distanceCovered == 0.0 && currentSpeed == 0.0
        && locationHistory == [] && previousLocation == None
        && timerJob == Some(now) && speedCheckJob == Some(quest)
        && lastSpeedCheckTime == old(lastSpeedCheckTime)
        && cues == old(cues) + [ChallengeStart]
    {
      if IsActive() {
        return false;
      }
      currentSession := Some(ChallengeSession(questId := quest.id, startTime := now, isActive := true));
      elapsedTime := 0;
      distanceCovered := 0.0;
      currentSpeed := 0.0;
      locationHistory := [];
      previousLocation := None;
      timerJob := Some(now);
      speedCheckJob := Some(quest);
      cues := cues + [ChallengeStart];
      return true;
    }

    /**
     * Feeds one GPS fix taken at `now`. Ignored without a running session;
     * otherwise the fix joins the route, the leg from the previous fix (if
     * any) is added to the distance, and the speed becomes the fix's speed.
     */
    method UpdateLocation(latitude: real, longitude: real, now: int, speed: real := 0.0)
      requires Valid()
      modifies this
      ensures Valid()
      ensures !old(IsActive()) ==> unchanged(this)
      ensures old(IsActive()) ==>
        var p := LocationPoint(latitude, longitude, now, speed);
        var s := old(currentSession).value;
        && locationHistory == old(locationHistory) + [p]
        && distanceCovered == old(distanceCovered) +
             (if old(previousLocation).Some? then Leg(distanceTo, old(previousLocation).value, p) else 0.0)
        && distanceCovered >= old(distanceCovered)
        && currentSpeed == speed
        && previousLocation == Some(p)
        && currentSession == Some(s.(elapsedTime := now - s.startTime, currentSpeed := speed,
                                      distanceCovered := distanceCovered, route := locationHistory))
        && elapsedTime == old(elapsedTime) && timerJob == old(timerJob) && speedCheckJob == old(speedCheckJob)
        && lastSpeedCheckTime == old(lastSpeedCheckTime) && cues == old(cues)
    {
      if currentSession.None? {
        return;
      }
      var session := currentSession.value;
      if !session.isActive {
        return;
      }
      var point := LocationPoint(latitude := latitude, longitude := longitude, timestamp := now, speed := speed);
      PathLengthSnoc(distanceTo, locationHistory, point);
      locationHistory := locationHistory + [point];
      if previousLocation.Some? {
        distanceCovered := distanceCovered + Leg(distanceTo, previousLocation.value, point);
      }
      currentSpeed := speed;
      previousLocation := Some(point);
      currentSession := Some(session.(elapsedTime := now - session.startTime, currentSpeed := speed,
                                      distanceCovered := distanceCovered, route := locationHistory));
    }

    /**
     * Ends the session and evaluates it against `quest`. Without a session
     * the fixed failed result comes back and nothing changes; otherwise both
     * timers stop, the session is dropped, a win or lose cue is played and
     * the message is one of the quest's win or lose lines ("" if none).
     */
    method CompleteChallenge(quest: Quest) returns (result: ChallengeResult)
      requires Valid()
      modifies this
      ensures Valid()
      ensures old(currentSession).None? ==> result == FailedResult(quest.id) && unchanged(this)
      ensures old(currentSession).Some? ==>
        && result == Evaluate(quest, old(elapsedTime), old(distanceCovered), result.npcMessage)
        && (var lines := if result.completed then quest.npcDialogueWin else quest.npcDialogueLoose;
            if lines == [] then result.npcMessage == "" else result.npcMessage in lines)
        && currentSession == None && timerJob == None && speedCheckJob == None
        && cues == old(cues) + [if result.completed then ChallengeSuccess else ChallengeFail]
        && elapsedTime == old(elapsedTime) && distanceCovered == old(distanceCovered)
        && currentSpeed == old(currentSpeed) && locationHistory == old(locationHistory)
        && previousLocation == old(previousLocation) && lastSpeedCheckTime == old(lastSpeedCheckTime)
    {
      if currentSession.None? {
        return FailedResult(quest.id);
      }
      StopTracking();
      var completed := Evaluate(quest, elapsedTime, distanceCovered, "").completed;
      var lines := if completed then quest.npcDialogueWin else quest.npcDialogueLoose;
      var npcMessage := "";
      if lines != [] {
        assert lines[0] in lines;
        npcMessage :| npcMessage in lines;
      }
      cues := cues + [if completed then ChallengeSuccess else ChallengeFail];
      result := Evaluate(quest, elapsedTime, distanceCovered, npcMessage);
      currentSession := None;
    }

    /** Drops the session, if any, and stops both timers; the route stays until the next start. */
    method CancelChallenge()
      requires Valid()
      modifies this
      ensures Valid()
      ensures currentSession == None && timerJob == None && speedCheckJob == None
      ensures elapsedTime == old(elapsedTime) && distanceCovered == old(distanceCovered)
      ensures currentSpeed == old(currentSpeed) && locationHistory == old(locationHistory)
      ensures previousLocation == old(previousLocation) && lastSpeedCheckTime == old(lastSpeedCheckTime)
      ensures cues == old(cues)
    {
      StopTracking();
      currentSession := None;
    }

    method StopTracking()
      modifies this`timerJob, this`speedCheckJob
      ensures timerJob == None && speedCheckJob == None
    {
      timerJob := None;
      speedCheckJob := None;
    }

    /** One beat of the elapsed-time ticker at clock value `now`. */
    method TimerTick(now: int)
      requires Valid()
      modifies this`elapsedTime
      ensures Valid()
      ensures timerJob.Some? && IsActive() ==> elapsedTime == now - timerJob.value
      ensures !(timerJob.Some? && IsActive()) ==> elapsedTime == old(elapsedTime)
    {
      if timerJob.Some? && IsActive() {
        elapsedTime := now - timerJob.value;
      }
    }

    /**
     * One beat of the pace monitor at clock value `now`: checks the pace
     * when at least 10 s passed since the last check.
     */
    method SpeedCheckTick(now: int)
      requires Valid()
      modifies this`cues, this`lastSpeedCheckTime
      ensures Valid()
      ensures speedCheckJob.Some? && IsActive() && now - old(lastSpeedCheckTime) >= 10000 ==>
        && cues == old(cues) + FeedbackCues(SpeedFeedback(AverageSpeed(distanceCovered, elapsedTime), speedCheckJob.value.requiredSpeed))
        && lastSpeedCheckTime == now
      ensures !(speedCheckJob.Some? && IsActive() && now - old(lastSpeedCheckTime) >= 10000) ==>
        cues == old(cues) && lastSpeedCheckTime == old(lastSpeedCheckTime)
    {
      if speedCheckJob.Some? && IsActive() && now - lastSpeedCheckTime >= 10000 {
        CheckSpeedFeedback(speedCheckJob.value);
        lastSpeedCheckTime := now;
      }
    }

    /** Plays the pace cue for `quest`, if any; the tracker's state is left alone. */
    method CheckSpeedFeedback(quest: Quest)
      modifies this`cues
      ensures cues == old(cues) + FeedbackCues(SpeedFeedback(AverageSpeed(distanceCovered, elapsedTime), quest.requiredSpeed))
    {
      var avgSpeed := AverageSpeed(distanceCovered, elapsedTime);
      var feedback := SpeedFeedback(avgSpeed, quest.requiredSpeed);
      if feedback == Warning {
        cues := cues + [SpeedWarning];
      } else if feedback == Good {
        cues := cues + [SpeedGood];
      }
    }

    /**
     * Distance per second of elapsed time (km/s, though the app labels it
     * m/s); 3600 times it is the average speed in km/h.
     */
    function GetCurrentSpeed(): (r: real)
      reads this
      ensures elapsedTime <= 0 ==> r == 0.0
      ensures elapsedTime > 0 ==> r * (elapsedTime as real) == distanceCovered * 1000.0
      ensures elapsedTime > 0 && distanceCovered >= 0.0 ==> r * 3600.0 == AverageSpeed(distanceCovered, elapsedTime)
    {
      if elapsedTime > 0 then
        var seconds := elapsedTime as real / 1000.0;
        var r := distanceCovered / seconds;
        assert r * seconds == distanceCovered;
        r
      else 0.0
    }

    /**
     * The app's km/h reading: the current speed times 3.6, as if it were in
     * m/s. The current speed is in km/s, so this is a thousandth of the
     * average speed.
     */
    function GetSpeedInKmh(): (r: real)
      reads this
      ensures elapsedTime > 0 && distanceCovered >= 0.0 ==> r * 1000.0 == AverageSpeed(distanceCovered, elapsedTime)
    {
      GetCurrentSpeed() * 3.6
    }

    /** The km/h reading with the km-to-m conversion restored: the average speed itself. */
    function SpeedInKmh(): (r: real)
      reads this
      ensures elapsedTime > 0 && distanceCovered >= 0.0 ==> r == AverageSpeed(distanceCovered, elapsedTime)
      ensures r == GetSpeedInKmh() * 1000.0
    {
      GetCurrentSpeed() * 1000.0 * 3.6
    }
  }

  /**
   * One kilometre in six minutes is 10 km/h, but the app's km/h reading says
   * 0.01; the corrected reading says 10.
   */
  lemma SpeedInKmhUnitSlip(m: ChallengeManager)
    requires m.elapsedTime == 360000 && m.distanceCovered == 1.0
    ensures m.GetSpeedInKmh() == 0.01
    ensures m.SpeedInKmh() == 10.0
    ensures AverageSpeed(m.distanceCovered, m.elapsedTime) == 10.0
  {
  }
}
