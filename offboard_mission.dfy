/**
 * models/offboard_mission.py: a position-setpoint flight to one GPS point.
 *
 * `OffboardControl.go_to_position` fixes a home reference the first time it
 * finds a position, turns the target into north/east metres from that home
 * once, and then sends that same position setpoint (with zero velocity) on
 * every pass until the vehicle is within a metre north and east and half a
 * metre vertically of the target.
 *
 * Telemetry is an input: `entry` is `current_position` when the call starts
 * and `ticks[k]` the position read after the `k`-th setpoint. Once
 * `update_position` has stored a position it only ever stores another, so
 * the readings inside the loop are never `None`.
 */
module OffboardMission {
  import opened Wrappers
  import opened Maths
  import opened Polling
  import opened Drone
  import DistanceCalculation
  import opened OffboardControls
  import opened Connection

  /** `CalculateDistance.get_lat_lon_distance`: the north and east components of the geodesic from point 1 to point 2. */
  function GetLatLonDistance(m: Elementary, g: Geodesic, lat1: real, lon1: real, lat2: real, lon2: real)
    : (r: DistanceCalculation.NorthEast)
    ensures var d := DistanceCalculation.GetLatLonDistance(m, g, lat1, lon1, lat2, lon2);
            r.north == d.north && r.east == d.east
  {
    var sol := g.inverse(lat1, lon1, lat2, lon2);
    var azimuth := Radians(sol.azi1);
    DistanceCalculation.NorthEast(sol.s12 * m.cos(azimuth), sol.s12 * m.sin(azimuth))
  }

  /** The split keeps the geodesic length: north^2 + east^2 = s12^2. */
  lemma SplitKeepsDistance(m: Elementary, g: Geodesic, lat1: real, lon1: real, lat2: real, lon2: real)
    requires PythagoreanIdentity(m)
    ensures var r := GetLatLonDistance(m, g, lat1, lon1, lat2, lon2);
            var s := g.inverse(lat1, lon1, lat2, lon2).s12;
            r.north * r.north + r.east * r.east == s * s
  {
    DistanceCalculation.NorthEastKeepsDistance(m, g, lat1, lon1, lat2, lon2);
  }

  /** The home reference: latitude, longitude and absolute altitude, each unset until captured. */
  datatype Home = Home(lat: Option<real>, lon: Option<real>, alt: Option<real>)

  /** All three parts of the home are set. */
  predicate Complete(h: Home)
  {
    h.lat.Some? && h.lon.Some? && h.alt.Some?
  }

  /** The home after a call that found position `p`: taken from `p` when any part was unset, otherwise kept. */
  function Capture(h: Home, p: Position): (r: Home)
    ensures Complete(r)
    ensures Complete(h) ==> r == h
  {
    if Complete(h) then h else Home(Some(p.lat), Some(p.lon), Some(p.absoluteAltitude))
  }

  /** Capturing is done once: a later call, whatever position it finds, keeps the home the first one set. */
  lemma CaptureOnce(h: Home, p: Position, q: Position)
    ensures Capture(Capture(h, p), q) == Capture(h, p)
  {
  }

  /** A home with a part unset is replaced as a whole, from the one position. */
  lemma CaptureFromOnePosition(h: Home, p: Position)
    requires !Complete(h)
    ensures Capture(h, p) == Home(Some(p.lat), Some(p.lon), Some(p.absoluteAltitude))
  {
  }

  /**
   * The one setpoint of a call: the target's north/east from home, `target_alt`
   * up (down = -target_alt), yaw 0, with zero velocity.
   */
  function Setpoint(m: Elementary, g: Geodesic, h: Home, targetLat: real, targetLon: real, targetAlt: real): Command
    requires Complete(h)
  {
    var ne := GetLatLonDistance(m, g, h.lat.value, h.lon.value, targetLat, targetLon);
    SetPositionVelocityNed(Ned(ne.north, ne.east, -targetAlt), Ned(0.0, 0.0, 0.0), 0.0)
  }

  /** The setpoint lies as far from home, horizontally, as the geodesic distance from home to the target. */
  lemma SetpointDistance(m: Elementary, g: Geodesic, h: Home, targetLat: real, targetLon: real, targetAlt: real)
    requires Complete(h) && PythagoreanIdentity(m)
    ensures var c := Setpoint(m, g, h, targetLat, targetLon, targetAlt);
            var s := g.inverse(h.lat.value, h.lon.value, targetLat, targetLon).s12;
            c.position.north * c.position.north + c.position.east * c.position.east == s * s
            && c.position.down == -targetAlt && c.velocity == Ned(0.0, 0.0, 0.0) && c.yaw == 0.0
  {
    SplitKeepsDistance(m, g, h.lat.value, h.lon.value, targetLat, targetLon);
  }

  /**
   * The arrival test at position `p`: under a metre off north and east of
   * the target and under half a metre off `home_alt + target_alt`.
   */
  function Within(m: Elementary, g: Geodesic, homeAlt: real, targetLat: real, targetLon: real, targetAlt: real)
    : Position -> bool
  {
    (p: Position) =>
      var err := GetLatLonDistance(m, g, p.lat, p.lon, targetLat, targetLon);
      Abs(err.north) < 1.0 && Abs(err.east) < 1.0 && Abs(-(homeAlt + targetAlt - p.absoluteAltitude)) < 0.5
  }

  /**
   * Arriving means being under sqrt 2 metres from the target by the geodesic
   * and under half a metre from the target altitude above home.
   */
  lemma WithinIsNear(m: Elementary, g: Geodesic, homeAlt: real, targetLat: real, targetLon: real, targetAlt: real,
                     p: Position)
    requires PythagoreanIdentity(m)
    requires Within(m, g, homeAlt, targetLat, targetLon, targetAlt)(p)
    ensures var s := g.inverse(p.lat, p.lon, targetLat, targetLon).s12;
            s * s < 2.0
    ensures homeAlt + targetAlt - 0.5 < p.absoluteAltitude < homeAlt + targetAlt + 0.5
  {
    var err := GetLatLonDistance(m, g, p.lat, p.lon, targetLat, targetLon);
    var n, e := err.north, err.east;
    assert Abs(n) < 1.0 && Abs(e) < 1.0;
    SplitKeepsDistance(m, g, p.lat, p.lon, targetLat, targetLon);
    SquareBelowOne(n);
    SquareBelowOne(e);
    var s := g.inverse(p.lat, p.lon, targetLat, targetLon).s12;
    assert s * s == n * n + e * e;
    assert s * s == g.inverse(p.lat, p.lon, targetLat, targetLon).s12 * g.inverse(p.lat, p.lon, targetLat, targetLon).s12;
  }

  /** A number under 1 in magnitude has a square under 1. */
  lemma SquareBelowOne(x: real)
    requires Abs(x) < 1.0
    ensures x * x < 1.0
  {
    if x >= 0.0 {
      assert x * x <= x * 1.0;
    } else {
      assert x * x <= (-x) * 1.0;
    }
  }

  /** `n` copies of the setpoint `c`. */
  function Repeat(c: Command, n: nat): (r: seq<Command>)
    ensures |r| == n && forall i :: 0 <= i < n ==> r[i] == c
  {
    seq(n, _ => c)
  }

  /** One more copy at the end. */
  lemma RepeatOneMore(c: Command, n: nat)
    ensures Repeat(c, n) + [c] == Repeat(c, n + 1)
  {
    assert forall i :: 0 <= i < n + 1 ==> (Repeat(c, n) + [c])[i] == c;
  }

  /** How `go_to_position` ends: no position yet, a setpoint raised, arrived at pass `index`, or still approaching. */
  datatype Approach = NoPosition | SetpointRaised | Reached(index: nat) | Approaching

  /** How `initialize_mission` ends: arm or the setpoint raised, offboard start failed (and was reported), or started. */
  datatype Init = InitRaised | StartFailed | Initialized

  /** The default target of `run_mission`. */
  const DefaultLat: real := 47.397704
  const DefaultLon: real := 8.547740
  /** The default `target_alt` of `go_to_position`. */
  const DefaultAlt: real := 10.0

  /** The `connect` call `run_mission` makes: no arguments at all. */
  const WrittenRunCall: Call := Call(0, [])

  /** `connect` needs `system_address` and `port`, so the call in `run_mission` raises `TypeError`. */
  lemma WrittenRunCallRejected()
    ensures !ConnectBinds(WrittenRunCall)
  {
    assert "system_address" in ConnectParameters[0..];
  }

  /** What `__init__` passes up to `DroneConnection.__init__`: keywords `sysid` and `system_address`. */
  const ParentInitCall: Call := Call(0, ["sysid", "system_address"])

  /** `DroneConnection.__init__` takes no arguments, so that call raises `TypeError`. */
  lemma ParentInitRejected()
    ensures !Binds([], ParentInitCall)
  {
    assert ParentInitCall.keywords[0] !in [];
  }

  /**
   * How `run_mission` ends: `connect` did not get through, initialising
   * raised, `go_to_position` raised or is still approaching, or it returned
   * and the call of `end_mission` raised `AttributeError`, since neither the
   * class nor its bases define it.
   */
  /** The calls up to the first setpoint of the flight: connecting, then initialising. */
  function OpeningPlan(address: string, attitudeBound: bool): seq<Command>
  {
    ConnectPlan(address, attitudeBound) + InitPlan()
  }

  datatype Run = ConnectStopped(link: Link) | InitializeRaised | GotoStopped(approach: Approach) | EndMissionMissing

  /**
   * The part of `go_to_position` after the home is set: the target's
   * north/east from home, worked out once, then the one setpoint per pass
   * until the first reading that passes the arrival test.
   */
  method SendUntilWithin(v: Vehicle, m: Elementary, g: Geodesic, h: Home, ticks: seq<Position>,
                         targetLat: real, targetLon: real, targetAlt: real)
    returns (end: Approach)
    requires Complete(h)
    modifies v
    ensures end != NoPosition
    ensures RaisedOnlyAtEnd(|old(v.commands)|, v.commands, v.failing, end == SetpointRaised)
    ensures IssuedPrefix(old(v.commands), v.commands, Repeat(Setpoint(m, g, h, targetLat, targetLon, targetAlt), |ticks|))
    ensures end.Reached? ==>
              FirstFrom(ticks, Within(m, g, h.alt.value, targetLat, targetLon, targetAlt), 0) == Some(end.index)
              && v.commands == old(v.commands) + Repeat(Setpoint(m, g, h, targetLat, targetLon, targetAlt), end.index + 1)
    ensures end == Approaching ==>
              FirstFrom(ticks, Within(m, g, h.alt.value, targetLat, targetLon, targetAlt), 0).None?
              && v.commands == old(v.commands) + Repeat(Setpoint(m, g, h, targetLat, targetLon, targetAlt), |ticks|)
  {
    hide GetLatLonDistance, Within, Repeat;
    var target := GetLatLonDistance(m, g, h.lat.value, h.lon.value, targetLat, targetLon);
    ghost var before := v.commands;
    ghost var c := Setpoint(m, g, h, targetLat, targetLon, targetAlt);
    var within := Within(m, g, h.alt.value, targetLat, targetLon, targetAlt);
    var i := 0;
    while i < |ticks|
      invariant i <= |ticks|
      invariant v.commands == before + Repeat(c, i)
      invariant RaisedOnlyAtEnd(|before|, v.commands, v.failing, false)
      invariant FirstFrom(ticks, within, 0) == FirstFrom(ticks, within, i)
    {
      var ok := v.Issue(SetPositionVelocityNed(Ned(target.north, target.east, -targetAlt), Ned(0.0, 0.0, 0.0), 0.0));
      RepeatOneMore(c, i);
      if !ok {
        return SetpointRaised;
      }
      if within(ticks[i]) {
        return Reached(i);
      }
      i := i + 1;
    }
    return Approaching;
  }

  class OffboardControl {
    const drone: Vehicle
    var homeLat: Option<real>
    var homeLon: Option<real>
    var homeAlt: Option<real>

    /** The home reference as one value. */
    function HomeOf(): Home
      reads this
    {
      Home(homeLat, homeLon, homeAlt)
    }

    /**
     * `__init__` past its call of the parent constructor (see
     * `ParentInitRejected`): the home starts unset.
     */
    constructor(failing: set<nat>)
      ensures HomeOf() == Home(None, None, None)
      ensures fresh(drone) && drone.commands == [] && drone.failing == failing
    {
      drone := new Vehicle(failing);
      homeLat, homeLon, homeAlt := None, None, None;
    }

    /**
     * `go_to_position`: nothing without a position; otherwise the home is
     * captured if unset, and the one setpoint is sent on every pass until
     * the first reading that passes the arrival test.
     */
    method GoToPosition(m: Elementary, g: Geodesic, entry: Option<Position>, ticks: seq<Position>,
                        targetLat: real, targetLon: real, targetAlt: real)
      returns (end: Approach)
      modifies this, drone
      ensures end == NoPosition <==> entry.None?
      ensures entry.None? ==> drone.commands == old(drone.commands) && HomeOf() == old(HomeOf())
      ensures entry.Some? ==> HomeOf() == Capture(old(HomeOf()), entry.value)
      ensures RaisedOnlyAtEnd(|old(drone.commands)|, drone.commands, drone.failing, end == SetpointRaised)
      ensures entry.Some? ==>
                IssuedPrefix(old(drone.commands), drone.commands,
                             Repeat(Setpoint(m, g, HomeOf(), targetLat, targetLon, targetAlt), |ticks|))
      ensures end.Reached? ==>
                FirstFrom(ticks, Within(m, g, homeAlt.value, targetLat, targetLon, targetAlt), 0) == Some(end.index)
                && drone.commands
                   == old(drone.commands) + Repeat(Setpoint(m, g, HomeOf(), targetLat, targetLon, targetAlt), end.index + 1)
      ensures end == Approaching ==>
                FirstFrom(ticks, Within(m, g, homeAlt.value, targetLat, targetLon, targetAlt), 0).None?
                && drone.commands
                   == old(drone.commands) + Repeat(Setpoint(m, g, HomeOf(), targetLat, targetLon, targetAlt), |ticks|)
    {
      if entry.None? {
        return NoPosition;
      }
      var p := entry.value;
      if homeLat.None? || homeLon.None? || homeAlt.None? {
        homeLat, homeLon, homeAlt := Some(p.lat), Some(p.lon), Some(p.absoluteAltitude);
      }
      end := SendUntilWithin(drone, m, g, HomeOf(), ticks, targetLat, targetLon, targetAlt);
    }

    /**
     * `initialize_mission`: arm, the setpoint ten metres up, offboard
     * start. Arm and the setpoint raise through; an `OffboardError` from
     * start is reported and the method returns normally.
     */
    method InitializeMission() returns (end: Init)
      modifies drone
      ensures IssuedPrefix(old(drone.commands), drone.commands, InitPlan())
      ensures RaisedOnlyAtEnd(|old(drone.commands)|, drone.commands, drone.failing, end != Initialized)
      ensures end != InitRaised <==> drone.commands == old(drone.commands) + InitPlan()
      ensures end == StartFailed <==> end != InitRaised && |old(drone.commands)| + 2 in drone.failing
    {
      ghost var before := drone.commands;
      ghost var plan := InitPlan();
      var ok := drone.IssueNext(before, plan, Arm);
      if !ok { return InitRaised; }
      ok := drone.IssueNext(before, plan, SetPositionNed(0.0, 0.0, -10.0, 0.0));
      if !ok { return InitRaised; }
      ok := drone.IssueNext(before, plan, OffboardStart);
      assert plan[..3] == plan;
      if !ok { return StartFailed; }
      return Initialized;
    }

    /**
     * `run_mission` with the `connect` call given as `call`: connect,
     * initialise (going on after a failed offboard start), a flight to the
     * default target at the default altitude, then `end_mission`, which is
     * not there. With the call as written (`WrittenRunCall`) nothing is sent;
     * with `update_attitude` missing (`attitudeBound` false) the connection
     * stops after the connect call and three task starts.
     */
    method RunMission(m: Elementary, g: Geodesic, call: Call, address: string, link: seq<bool>, health: seq<Health>,
                      attitudeBound: bool, entry: Option<Position>, ticks: seq<Position>)
      returns (end: Run)
      modifies this, drone
      ensures end == ConnectStopped(CallRejected) <==> !ConnectBinds(call)
      ensures end == ConnectStopped(CallRejected) ==> drone.commands == old(drone.commands) && HomeOf() == old(HomeOf())
      ensures end.ConnectStopped? || end == InitializeRaised ==> HomeOf() == old(HomeOf())
      ensures end != ConnectStopped(Linked)
      ensures !attitudeBound ==> end.ConnectStopped?
      ensures end == ConnectStopped(AttitudeMissing) <==>
                ConnectBinds(call) && |old(drone.commands)| !in drone.failing && !attitudeBound
                && FirstFrom(link, Connected, 0).Some? && FirstFrom(health, Healthy, 0).Some?
      ensures |drone.commands| <= |old(drone.commands)| + |OpeningPlan(address, attitudeBound)| ==>
                IssuedPrefix(old(drone.commands), drone.commands, OpeningPlan(address, attitudeBound))
      ensures |drone.commands| > |old(drone.commands)| + |OpeningPlan(address, attitudeBound)| ==>
                entry.Some? && Complete(HomeOf())
                && IssuedPrefix(old(drone.commands), drone.commands,
                                OpeningPlan(address, attitudeBound)
                                + Repeat(Setpoint(m, g, HomeOf(), DefaultLat, DefaultLon, DefaultAlt), |ticks|))
      ensures end == EndMissionMissing ==>
                ConnectBinds(call) && attitudeBound
                && FirstFrom(link, Connected, 0).Some? && FirstFrom(health, Healthy, 0).Some?
                && (entry.None? ==> drone.commands == old(drone.commands) + OpeningPlan(address, attitudeBound))
                && (entry.Some? ==>
                      Complete(HomeOf())
                      && var first := FirstFrom(ticks, Within(m, g, homeAlt.value, DefaultLat, DefaultLon, DefaultAlt), 0);
                      first.Some?
                      && drone.commands
                         == old(drone.commands) + OpeningPlan(address, attitudeBound)
                            + Repeat(Setpoint(m, g, HomeOf(), DefaultLat, DefaultLon, DefaultAlt), first.value + 1))
    {
      hide Setpoint, Repeat, Within, FirstFrom, ConnectBinds, Capture;
      ghost var before := drone.commands;
      ghost var opening := OpeningPlan(address, attitudeBound);
      var linked := ConnectVehicle(drone, call, address, link, health, attitudeBound);
      if linked != Linked {
        IssuedWithin(before, drone.commands, ConnectPlan(address, attitudeBound), opening);
        return ConnectStopped(linked);
      }
      ghost var afterConnect := drone.commands;
      var started := InitializeMission();
      IssuedChain(before, afterConnect, drone.commands, ConnectPlan(address, attitudeBound), InitPlan());
      if started == InitRaised {
        return InitializeRaised;
      }
      ghost var afterInit := drone.commands;
      assert afterInit == before + opening;
      var approach := GoToPosition(m, g, entry, ticks, DefaultLat, DefaultLon, DefaultAlt);
      if entry.Some? {
        IssuedChain(before, afterInit, drone.commands, opening,
                    Repeat(Setpoint(m, g, HomeOf(), DefaultLat, DefaultLon, DefaultAlt), |ticks|));
      }
      if approach == SetpointRaised || approach == Approaching {
        return GotoStopped(approach);
      }
      return EndMissionMissing;
    }
  }
}
