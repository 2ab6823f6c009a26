/**
 * The location service: it answers "where am I" and streams positions,
 * from the simulator when simulation mode is on and from the platform's
 * fused location provider otherwise. The provider, the permission check,
 * the clock and the outcome of a fresh-fix request are parameters.
 */
module Location {
  import opened Wrappers
  import opened Models
  import opened Simulation

  /** The fallback coordinate (Gummersbach) used when no fix is available. */
  const DefaultLocation: LatLng := LatLng(51.0269, 7.5636)

  /** A cached platform fix: position and the epoch-millisecond time it was taken. */
  datatype Fix = Fix(latitude: real, longitude: real, time: int)

  /** The outcome of asking the provider for its last fix: a value (possibly none), or an exception. */
  datatype Lookup = Answered(fix: Option<Fix>) | Raised

  /** How old a cached fix may be before a fresh one is requested: five minutes. */
  const MaxFixAge: int := 5 * 60 * 1000

  /**
   * A fresh fix is needed when there is no cached one or when it is more
   * than five minutes old at `now`.
   */
  function ShouldRequestFresh(last: Option<Fix>, now: int): (r: bool)
    ensures r <==> last.None? || now - last.value.time > 300000
  {
    last == None || now - last.value.time > MaxFixAge
  }

  /** Once a cached fix is stale it stays stale as time goes on; at exactly five minutes it is still used. */
  lemma StalenessIsPermanent(fix: Fix, now: int, later: int)
    requires now <= later
    ensures ShouldRequestFresh(Some(fix), now) ==> ShouldRequestFresh(Some(fix), later)
    ensures !ShouldRequestFresh(Some(fix), fix.time + 300000)
    ensures ShouldRequestFresh(Some(fix), fix.time + 300001)
  {
  }

  /**
   * The answer to "where am I", as written: in simulation mode a point
   * whose latitude and longitude are both the simulator's speed; otherwise
   * nothing without permission or on an exception, a fresh fix (`freshFix`)
   * when the cached one is missing or stale, and the cached position else.
   */
  function CurrentLocationAsWritten(simulationMode: bool, simulatedSpeed: real, hasPermission: bool,
                                    last: Lookup, now: int, freshFix: Option<LatLng>): (r: Option<LatLng>)
    ensures simulationMode ==> r == Some(LatLng(simulatedSpeed, simulatedSpeed))
    ensures !simulationMode ==> r == CurrentLocation(false, DefaultLocation, hasPermission, last, now, freshFix)
  {
    if simulationMode then Some(LatLng(simulatedSpeed, simulatedSpeed))
    else CurrentLocation(false, DefaultLocation, hasPermission, last, now, freshFix)
  }

  /**
   * The answer to "where am I" with the simulated branch reporting the
   * simulator's position. Outside simulation mode: nothing without
   * permission or on an exception, the fresh fix when the cached one is
   * missing or older than five minutes, and the cached position otherwise.
   */
  function CurrentLocation(simulationMode: bool, simulatedPosition: LatLng, hasPermission: bool,
                           last: Lookup, now: int, freshFix: Option<LatLng>): (r: Option<LatLng>)
    ensures simulationMode ==> r == Some(simulatedPosition)
    ensures !simulationMode && (!hasPermission || last.Raised?) ==> r == None
    ensures !simulationMode && hasPermission && last.Answered? && ShouldRequestFresh(last.fix, now) ==> r == freshFix
    ensures !simulationMode && hasPermission && last.Answered? && !ShouldRequestFresh(last.fix, now) ==>
      r == Some(LatLng(last.fix.value.latitude, last.fix.value.longitude))
  {
    if simulationMode then Some(simulatedPosition)
    else if !hasPermission then None
    else match last
      case Raised => None
      case Answered(fix) =>
        if ShouldRequestFresh(fix, now) then freshFix
        else Some(LatLng(fix.value.latitude, fix.value.longitude))
  }

  /**
   * Whatever the provider does, a cached position is only ever returned
   * when it is at most five minutes old; and simulation mode needs no
   * permission.
   */
  lemma CachedAnswersAreRecent(hasPermission: bool, last: Lookup, now: int, freshFix: Option<LatLng>, position: LatLng)
    ensures var r := CurrentLocation(false, position, hasPermission, last, now, freshFix);
      r.Some? && r != freshFix ==> last.Answered? && last.fix.Some? && now - last.fix.value.time <= 300000
    ensures CurrentLocation(true, position, false, last, now, freshFix) == Some(position)
  {
  }

  /**
   * With simulation mode on and the simulator not yet moved, the answer as
   * written is (0, 0) in the Atlantic; the corrected answer is the
   * simulator's starting point in Gummersbach.
   */
  lemma SimulatedAnswerIsSpeed(hasPermission: bool, last: Lookup, now: int, freshFix: Option<LatLng>)
    ensures CurrentLocationAsWritten(true, 0.0, hasPermission, last, now, freshFix) == Some(LatLng(0.0, 0.0))
    ensures CurrentLocation(true, LatLng(StartLatitude, StartLongitude), hasPermission, last, now, freshFix) == Some(DefaultLocation)
    ensures LatLng(0.0, 0.0) != DefaultLocation
  {
  }

  /** Where the stream of location updates comes from. */
  datatype UpdateSource = SimulatorUpdates | ClosedImmediately | ProviderUpdates(intervalMillis: int)

  /**
   * The update stream forwards the simulator in simulation mode (without
   * asking for permission), is closed at once without permission, and
   * otherwise asks the provider for a fix every 10 seconds.
   */
  function UpdatesSource(simulationMode: bool, hasPermission: bool): (r: UpdateSource)
    ensures r == SimulatorUpdates <==> simulationMode
    ensures r == ClosedImmediately <==> !simulationMode && !hasPermission
    ensures r.ProviderUpdates? ==> r.intervalMillis == 10000
  {
    if simulationMode then SimulatorUpdates
    else if !hasPermission then ClosedImmediately
    else ProviderUpdates(10000)
  }

  class LocationService {
    const simulator: LocationSimulator
    var isSimulationMode: bool

    ghost predicate Valid()
      reads this, simulator
    {
      simulator.Valid()
    }

    constructor ()
      ensures Valid() && fresh(simulator)
      ensures !isSimulationMode
      ensures simulator.currentLatitude == StartLatitude && simulator.currentLongitude == StartLongitude
      ensures simulator.currentSpeed == 0.0 && !simulator.isSimulating
    {
      simulator := new LocationSimulator();
      isSimulationMode := false;
    }

    method EnableSimulationMode()
      modifies this`isSimulationMode
      ensures isSimulationMode
    {
      isSimulationMode := true;
    }

    /** Leaves simulation mode and stops the simulator (speed 0, position, target and heading kept). */
    method DisableSimulationMode()
      requires Valid()
      modifies this`isSimulationMode, simulator`isSimulating, simulator`currentSpeed
      ensures Valid()
      ensures !isSimulationMode && !simulator.isSimulating && simulator.currentSpeed == 0.0
    {
      isSimulationMode := false;
      simulator.StopSimulation();
    }

    /** Starts the simulator toward `targetSpeed` with heading draw `u`, but only in simulation mode. */
    method StartSimulation(targetSpeed: real, u: real)
      requires Valid()
      requires 0.0 <= u < 1.0
      modifies simulator`targetSpeed, simulator`isSimulating, simulator`direction
      ensures Valid()
      ensures isSimulationMode ==> simulator.targetSpeed == targetSpeed && simulator.isSimulating && simulator.direction == u * 2.0 * Pi
      ensures !isSimulationMode ==> unchanged(simulator)
    {
      if isSimulationMode {
        simulator.StartSimulation(targetSpeed, u);
      }
    }

    /**
     * "Where am I" as the service answers it: in simulation mode the point
     * built twice from the simulator's speed. Changes nothing.
     */
    method GetCurrentLocation(hasPermission: bool, last: Lookup, now: int, freshFix: Option<LatLng>) returns (r: Option<LatLng>)
      ensures r == CurrentLocationAsWritten(isSimulationMode, simulator.currentSpeed, hasPermission, last, now, freshFix)
    {
      if isSimulationMode {
        return Some(LatLng(simulator.currentSpeed, simulator.currentSpeed));
      }
      r := GetCurrentPosition(hasPermission, last, now, freshFix);
    }

    /**
     * "Where am I" with the simulated branch answering the simulator's
     * position, as the simulated update stream does. Changes nothing.
     */
    method GetCurrentPosition(hasPermission: bool, last: Lookup, now: int, freshFix: Option<LatLng>) returns (r: Option<LatLng>)
      ensures r == CurrentLocation(isSimulationMode, LatLng(simulator.currentLatitude, simulator.currentLongitude),
                                   hasPermission, last, now, freshFix)
    {
      if isSimulationMode {
        return Some(LatLng(simulator.currentLatitude, simulator.currentLongitude));
      }
      if !hasPermission {
        return None;
      }
      match last {
        case Raised =>
          return None;
        case Answered(fix) =>
          if ShouldRequestFresh(fix, now) {
            return freshFix;
          }
          return Some(LatLng(fix.value.latitude, fix.value.longitude));
      }
    }
  }

  /** The fallback coordinate is where the simulator starts. */
  lemma DefaultIsSimulatorStart()
    ensures DefaultLocation == LatLng(StartLatitude, StartLongitude)
  {
  }
}
