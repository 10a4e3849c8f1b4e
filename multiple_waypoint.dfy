/**
 * missions/multiple_waypoint_mission.py: `MultipleWaypointMission`, a
 * `WaypointMission` that visits a list of waypoint tuples in order and wraps
 * that in connect, initialise and end.
 *
 * Each tuple is unpacked as `(lat, lon, alt, hold_time, travel_time)` and
 * `travel_time` is passed on as the target speed. A tuple of another length
 * raises `ValueError` when its turn comes, after the earlier waypoints have
 * been visited. Tuples are sequences of reals here.
 */
module MultipleWaypoints {
  import opened Wrappers
  import opened Maths
  import opened Drone
  import opened OffboardControls
  import opened Connection
  import opened WaypointMissions

  /** Unpacking one tuple: exactly five values, the fifth becoming the target speed. */
  function Unpack(w: seq<real>): (r: Option<Target>)
    ensures r.Some? <==> |w| == 5
    ensures r.Some? ==> r.value.lat == w[0] && r.value.lon == w[1] && r.value.alt == w[2]
                        && r.value.holdTime == w[3] && r.value.speed == w[4]
  {
    if |w| == 5 then Some(Target(w[0], w[1], w[2], w[3], w[4])) else None
  }

  /** The targets of the tuples before the first one that does not unpack. */
  function Unpacked(waypoints: seq<seq<real>>): (targets: seq<Target>)
    ensures |targets| <= |waypoints|
    ensures forall i :: 0 <= i < |targets| ==> Unpack(waypoints[i]) == Some(targets[i])
    ensures |targets| < |waypoints| ==> Unpack(waypoints[|targets|]).None?
    decreases |waypoints|
  {
    if waypoints == [] then []
    else
      match Unpack(waypoints[0])
      case None => []
      case Some(t) => [t] + Unpacked(waypoints[1..])
  }

  /** How `multiple_waypoint_mission` ends: an empty list, the visits as they went, or a tuple that does not unpack. */
  datatype Waypoints = NoWaypoints | Visited(tour: Tour) | BadTuple(index: nat)

  /** Whether `multiple_waypoint_mission` returned normally. */
  predicate Completed(w: Waypoints)
  {
    w == NoWaypoints || w == Visited(Toured)
  }

  /**
   * `multiple_waypoint_mission`: nothing for an empty list; otherwise each
   * waypoint in list order, going on only after arriving, until a tuple
   * does not unpack.
   */
  method MultipleWaypointMission(mission: WaypointMission, m: Elementary, g: Geodesic,
                                 waypoints: seq<seq<real>>, visits: seq<Visit>)
    returns (end: Waypoints)
    modifies mission.drone
    ensures end == NoWaypoints <==> waypoints == []
    ensures end == NoWaypoints ==> mission.drone.commands == old(mission.drone.commands)
    ensures IssuedPrefix(old(mission.drone.commands), mission.drone.commands,
                         TourPlan(m, g, mission.homeAlt, Unpacked(waypoints), visits))
    ensures RaisedOnlyAtEnd(|old(mission.drone.commands)|, mission.drone.commands, mission.drone.failing,
                            end.Visited? && end.tour.Interrupted? && end.tour.why == Raised)
    ensures end.BadTuple? ==>
              end.index == |Unpacked(waypoints)| < |waypoints|
              && ReachedAll(m, g, Unpacked(waypoints), visits, end.index)
              && mission.drone.commands
                 == old(mission.drone.commands) + TourPlan(m, g, mission.homeAlt, Unpacked(waypoints), visits)
    ensures Completed(end) ==>
              |Unpacked(waypoints)| == |waypoints|
              && ReachedAll(m, g, Unpacked(waypoints), visits, |waypoints|)
              && mission.drone.commands
                 == old(mission.drone.commands) + TourPlan(m, g, mission.homeAlt, Unpacked(waypoints), visits)
  {
    if waypoints == [] {
      return NoWaypoints;
    }
    var targets := Unpacked(waypoints);
    var tour := mission.VisitAll(m, g, targets, visits);
    if tour == Toured && |targets| < |waypoints| {
      return BadTuple(|targets|);
    }
    return Visited(tour);
  }

  /** The calls of a complete `run_waypoint_mission`: connect, initialise, the visits, end. */
  function RunPlan(m: Elementary, g: Geodesic, home: Option<real>, address: string, attitudeBound: bool,
                   waypoints: seq<seq<real>>, visits: seq<Visit>): seq<Command>
  {
    StartPlan(address, attitudeBound) + TourPlan(m, g, home, Unpacked(waypoints), visits) + EndPlan()
  }

  /**
   * How `run_waypoint_mission` ends: it did not get through connecting and
   * initialising, the waypoints stopped early, or `end_mission` ran (with
   * how it ended).
   */
  datatype Run = NotStarted(opening: Opening) | VisitsStopped(waypoints: Waypoints) | MissionEnded(end: End)

  /** The `connect` call `run_waypoint_mission` makes: keywords `sysid` and `system_address`. */
  const WrittenConnectCall: Call := Call(0, ["sysid", "system_address"])

  /**
   * `connect` has no `sysid` parameter and needs a `port`, so the call in
   * `run_waypoint_mission` raises `TypeError` before anything is sent.
   */
  lemma WrittenCallRejected()
    ensures !ConnectBinds(WrittenConnectCall)
  {
    var sysid := WrittenConnectCall.keywords[0];
    assert sysid[3] != ConnectParameters[0][3];
    assert sysid !in ConnectParameters[0..];
  }

  /** Concatenation regroups. */
  lemma Regroup(a: seq<Command>, b: seq<Command>, c: seq<Command>)
    ensures a + b + c == a + (b + c)
  {
  }

  /**
   * The part of `run_waypoint_mission` after initialising: the waypoints,
   * then `end_mission` once they all completed.
   */
  method VisitThenEnd(mission: WaypointMission, m: Elementary, g: Geodesic, waypoints: seq<seq<real>>,
                      visits: seq<Visit>)
    returns (end: Run)
    modifies mission.drone
    ensures !end.NotStarted?
    ensures IssuedPrefix(old(mission.drone.commands), mission.drone.commands,
                         TourPlan(m, g, mission.homeAlt, Unpacked(waypoints), visits) + EndPlan())
    ensures end.MissionEnded? ==>
              |Unpacked(waypoints)| == |waypoints| && ReachedAll(m, g, Unpacked(waypoints), visits, |waypoints|)
    ensures end.MissionEnded? && end.end.Ended? ==>
              mission.drone.commands
              == old(mission.drone.commands) + (TourPlan(m, g, mission.homeAlt, Unpacked(waypoints), visits) + EndPlan())
  {
    ghost var before := mission.drone.commands;
    ghost var tour := TourPlan(m, g, mission.homeAlt, Unpacked(waypoints), visits);
    var visited := MultipleWaypointMission(mission, m, g, waypoints, visits);
    IssuedWithin(before, mission.drone.commands, tour, tour + EndPlan());
    if !Completed(visited) {
      return VisitsStopped(visited);
    }
    ghost var afterVisits := mission.drone.commands;
    var ended := EndMission(mission.drone);
    IssuedChain(before, afterVisits, mission.drone.commands, tour, EndPlan());
    return MissionEnded(ended);
  }

  /**
   * `run_waypoint_mission` with the `connect` call given as `call`:
   * connect, initialise, visit, end, in that order, each step starting only
   * when the one before returned. With the call as written
   * (`WrittenConnectCall`) it ends at once and sends nothing; with
   * `KeywordConnectCall`, the call the square-wave run makes, it runs the
   * whole plan once `connect` returns. `attitudeBound` says whether
   * `update_attitude` exists; as written it does not, and then even a
   * binding call stops inside `connect`.
   */
  method RunWaypointMission(mission: WaypointMission, m: Elementary, g: Geodesic, call: Call, address: string,
                            link: seq<bool>, health: seq<Health>, attitudeBound: bool, startAlt: real, currentAlt: real,
                            waypoints: seq<seq<real>>, visits: seq<Visit>)
    returns (end: Run)
    modifies mission.drone
    ensures end == NotStarted(NotConnected(CallRejected)) <==> !ConnectBinds(call)
    ensures end == NotStarted(NotConnected(CallRejected)) ==> mission.drone.commands == old(mission.drone.commands)
    ensures !attitudeBound ==> end.NotStarted?
                               && IssuedPrefix(old(mission.drone.commands), mission.drone.commands,
                                               ConnectPlan(address, false))
    ensures IssuedPrefix(old(mission.drone.commands), mission.drone.commands,
                         RunPlan(m, g, mission.homeAlt, address, attitudeBound, waypoints, visits))
    ensures end.MissionEnded? ==>
              ConnectBinds(call) && attitudeBound && |Unpacked(waypoints)| == |waypoints|
              && ReachedAll(m, g, Unpacked(waypoints), visits, |waypoints|)
    ensures end.MissionEnded? && end.end.Ended? ==>
              mission.drone.commands
              == old(mission.drone.commands) + RunPlan(m, g, mission.homeAlt, address, attitudeBound, waypoints, visits)
  {
    ghost var before := mission.drone.commands;
    ghost var start := StartPlan(address, attitudeBound);
    ghost var tour := TourPlan(m, g, mission.homeAlt, Unpacked(waypoints), visits);
    ghost var rest := tour + EndPlan();
    Regroup(start, tour, EndPlan());
    var opening := mission.StartUp(call, address, link, health, attitudeBound, startAlt, currentAlt);
    IssuedWithin(before, mission.drone.commands, start, start + rest);
    if !opening.Opened? {
      return NotStarted(opening);
    }
    ghost var afterStart := mission.drone.commands;
    end := VisitThenEnd(mission, m, g, waypoints, visits);
    IssuedChain(before, afterStart, mission.drone.commands, start, rest);
  }
}
