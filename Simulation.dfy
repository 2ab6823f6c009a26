/**
 * The GPS simulator: a jogger that starts in Gummersbach, eases its speed
 * toward a target by a tenth of the gap each second and wanders in
 * direction. `Step` is one iteration of the simulator's update loop.
 * The random numbers become parameters `u` in [0, 1); the trigonometric
 * position update becomes the displacement `dLatitude`/`dLongitude`
 * supplied by the caller.
 */
module Simulation {
  import opened Wrappers
  import opened Models

  /** The JVM's double value of pi. */
  const Pi: real := 3.141592653589793
  const TwoPi: real := 2.0 * Pi

  const StartLatitude: real := 51.0269
  const StartLongitude: real := 7.5636

  /** One second's change of speed: a tenth of the way toward the target. */
  function Approach(speed: real, target: real): (next: real)
    ensures target - next == 0.9 * (target - speed)
    ensures speed <= target ==> speed <= next <= target
    ensures target <= speed ==> target <= next <= speed
  {
    speed + (target - speed) * 0.1
  }

  function Power(x: real, n: nat): real
  {
    if n == 0 then 1.0 else x * Power(x, n - 1)
  }

  /** The speed after `n` steps toward a fixed target. */
  function SpeedAfter(speed: real, target: real, n: nat): real
  {
    if n == 0 then speed else Approach(SpeedAfter(speed, target, n - 1), target)
  }

  /** After `n` steps the remaining gap to the target is exactly 0.9^n of the initial gap. */
  lemma {:induction false} GapShrinksGeometrically(speed: real, target: real, n: nat)
    ensures target - SpeedAfter(speed, target, n) == Power(0.9, n) * (target - speed)
  {
    if n > 0 {
      GapShrinksGeometrically(speed, target, n - 1);
    }
  }

  /** Starting below the target, the speed rises with every step and never passes the target. */
  lemma {:induction false} NeverOvershoots(speed: real, target: real, n: nat)
    requires speed <= target
    ensures speed <= SpeedAfter(speed, target, n) <= SpeedAfter(speed, target, n + 1) <= target
  {
    if n > 0 {
      NeverOvershoots(speed, target, n - 1);
    }
  }

  /** The heading after adding a perturbation: wrapped back by one turn when it leaves [0, 2π]. */
  function WrapHeading(direction: real): (d: real)
    ensures -TwoPi <= direction <= 2.0 * TwoPi ==> (d == direction || d == direction - TwoPi || d == direction + TwoPi)
    ensures 0.0 <= direction <= TwoPi ==> d == direction
  {
    var d := if direction > TwoPi then direction - TwoPi else direction;
    if d < 0.0 then d + TwoPi else d
  }

  /** The random heading perturbation for a draw `u` in [0, 1). */
  function Perturbation(u: real): (p: real)
    requires 0.0 <= u < 1.0
    ensures -0.05 <= p < 0.05
  {
    (u - 0.5) * 0.1
  }

  /** A heading in [0, 2π] stays there after a perturbation of less than 0.05 rad either way. */
  lemma HeadingStaysInRange(direction: real, p: real)
    requires 0.0 <= direction <= TwoPi
    requires -0.05 <= p < 0.05
    ensures 0.0 <= WrapHeading(direction + p) <= TwoPi
  {
  }

  class LocationSimulator {
    var currentLatitude: real
    var currentLongitude: real
    /** m/s, as the app labels it. */
    var currentSpeed: real
    var isSimulating: bool
    var targetSpeed: real
    /** Radians. */
    var direction: real

    /** The heading is always a proper angle. */
    ghost predicate Valid()
      reads this
    {
      0.0 <= direction <= TwoPi
    }

    constructor ()
      ensures Valid()
      ensures currentLatitude == StartLatitude && currentLongitude == StartLongitude
      ensures currentSpeed == 0.0 && !isSimulating && targetSpeed == 0.0 && direction == 0.0
    {
      currentLatitude := StartLatitude;
      currentLongitude := StartLongitude;
      currentSpeed := 0.0;
      isSimulating := false;
      targetSpeed := 0.0;
      direction := 0.0;
    }

    /**
     * Starts moving toward `targetSpeed` in a random direction `u·2π`;
     * position and current speed are kept.
     */
    method StartSimulation(targetSpeed: real, u: real)
      requires Valid()
      requires 0.0 <= u < 1.0
      modifies this`targetSpeed, this`isSimulating, this`direction
      ensures Valid()
      ensures this.targetSpeed == targetSpeed && isSimulating
      ensures direction == u * 2.0 * Pi && 0.0 <= direction < TwoPi
    {
      this.targetSpeed := targetSpeed;
      isSimulating := true;
      direction := u * 2.0 * Pi;
    }

    /** Halts the jogger: no longer simulating, speed 0; position, target and heading kept. */
    method StopSimulation()
      requires Valid()
      modifies this`isSimulating, this`currentSpeed
      ensures Valid()
      ensures !isSimulating && currentSpeed == 0.0
    {
      isSimulating := false;
      currentSpeed := 0.0;
    }

    /**
     * One second of simulation, if running: ease the speed, move by the
     * given displacement, perturb and wrap the heading, and emit the new
     * position. When not simulating nothing happens and nothing is emitted.
     */
    method Step(u: real, dLatitude: real, dLongitude: real) returns (emitted: Option<LatLng>)
      requires Valid()
      requires 0.0 <= u < 1.0
      modifies this`currentSpeed, this`currentLatitude, this`currentLongitude, this`direction
      ensures Valid()
      ensures !isSimulating ==> unchanged(this) && emitted == None
      ensures isSimulating ==>
        && currentSpeed == Approach(old(currentSpeed), targetSpeed)
        && currentLatitude == old(currentLatitude) + dLatitude
        && currentLongitude == old(currentLongitude) + dLongitude
        && direction == WrapHeading(old(direction) + Perturbation(u))
        && emitted == Some(LatLng(currentLatitude, currentLongitude))
    {
      if !isSimulating {
        return None;
      }
      currentSpeed := currentSpeed + (targetSpeed - currentSpeed) * 0.1;
      currentLatitude := currentLatitude + dLatitude;
      currentLongitude := currentLongitude + dLongitude;
      HeadingStaysInRange(direction, Perturbation(u));
      direction := direction + (u - 0.5) * 0.1;
      if direction > 2.0 * Pi {
        direction := direction - 2.0 * Pi;
      }
      if direction < 0.0 {
        direction := direction + 2.0 * Pi;
      }
      emitted := Some(LatLng(currentLatitude, currentLongitude));
    }

    /** The simulated speed; a query, so nothing changes. */
    function GetCurrentSpeed(): (r: real)
      reads this
      ensures r == currentSpeed
    {
      currentSpeed
    }
  }

  /** The fixed test routes, keyed by quest id. */
  function TestRoutes(): map<string, seq<LatLng>>
  {
    map[
      "easy_jogger1" := [LatLng(51.0269, 7.5636), LatLng(51.0270, 7.5638), LatLng(51.0271, 7.5640), LatLng(51.0272, 7.5642)],
      "medium_runner" := [LatLng(51.0269, 7.5636), LatLng(51.0275, 7.5640), LatLng(51.0280, 7.5645), LatLng(51.0285, 7.5650)],
      "hard_marathon" := [LatLng(51.0269, 7.5636), LatLng(51.0280, 7.5650), LatLng(51.0290, 7.5665), LatLng(51.0300, 7.5680)]
    ]
  }

  /** Each point lies strictly north and east of the one before it. */
  predicate HeadsNorthEast(route: seq<LatLng>)
  {
    forall i :: 0 < i < |route| ==>
      route[i - 1].latitude < route[i].latitude && route[i - 1].longitude < route[i].longitude
  }

  /**
   * There are three test routes; each has four points, starts at the
   * simulator's starting coordinate and heads north-east.
   */
  lemma TestRoutesShape()
    ensures TestRoutes().Keys == {"easy_jogger1", "medium_runner", "hard_marathon"}
    ensures forall k :: k in TestRoutes() ==>
      var r := TestRoutes()[k];
      |r| == 4 && r[0] == LatLng(StartLatitude, StartLongitude) && HeadsNorthEast(r)
  {
  }
}
