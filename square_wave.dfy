/**
 * missions/square_wave_mission.py: `SquareWaveMission`, a `WaypointMission`
 * that lays a square wave of waypoints along the current heading and then
 * flies it.
 *
 * `calculate_square_wave_path` steps `step_size` metres at a time along the
 * centre line from the start on bearing `current_yaw_deg`. At each step the
 * square value is +1 in the first half of every wave and -1 in the second;
 * the waypoint is moved `square * amplitude` metres to the right (yaw + 90)
 * when that is positive, by its magnitude to the left (yaw - 90) when it is
 * negative, and stays on the centre line when it is zero. Every centre-line
 * point is measured from the start, never from the previous waypoint.
 */
module SquareWave {
  import opened Wrappers
  import opened Maths
  import opened Polling
  import opened Drone
  import opened Connection
  import opened OffboardControls
  import opened WaypointMissions

  /**
   * A waypoint's label: `"START-MERKEZ"`, `"S{i}-SAĞ({d:.1f}m)"`,
   * `"S{i}-SOL({d:.1f}m)"` or `"S{i}-MERKEZ"`, with the step number and the
   * offset as numbers.
   */
  datatype Label = StartCentre | Right(step: nat, offset: real) | Left(step: nat, offset: real) | Centre(step: nat)

  /** One path entry: `(lat, lon, label, bearing, square_value)`. */
  datatype Waypoint = Waypoint(lat: real, lon: real, name: Label, bearing: real, square: real)

  /** How far into its wave a point `forward` metres along lies, as a fraction: `(forward % wave_length) / wave_length`. */
  function PositionInWave(forward: real, waveLength: real): (r: real)
    requires waveLength != 0.0
    ensures 0.0 <= r < 1.0
    ensures r == forward / waveLength - (forward / waveLength).Floor as real
  {
    var rem := FloorMod(forward, waveLength);
    FractionOfWave(forward, waveLength, rem);
    rem / waveLength
  }

  /** A floored remainder divided by its divisor is the fractional part of the quotient. */
  lemma FractionOfWave(x: real, m: real, rem: real)
    requires m != 0.0
    requires rem == x - ((x / m).Floor as real) * m
    ensures rem / m == x / m - (x / m).Floor as real
    ensures 0.0 <= rem / m < 1.0
  {
    var k := (x / m).Floor as real;
    assert rem / m == x / m - k by {
      assert rem == (x / m - k) * m;
    }
  }

  /** The square value `forward` metres along: +1 in the first half of each wave, -1 in the second. */
  function SquareValue(forward: real, waveLength: real): (s: real)
    requires waveLength != 0.0
    ensures s == 1.0 || s == -1.0
  {
    if PositionInWave(forward, waveLength) < 0.5 then 1.0 else -1.0
  }

  /** The square value repeats every wave length. */
  lemma SquarePeriodic(forward: real, waveLength: real)
    requires waveLength != 0.0
    ensures SquareValue(forward + waveLength, waveLength) == SquareValue(forward, waveLength)
  {
    hide PositionInWave;
    var q := forward / waveLength;
    var q' := (forward + waveLength) / waveLength;
    ShiftedQuotient(forward, waveLength, waveLength);
    assert q' == q + 1.0;
    assert q'.Floor == q.Floor + 1;
    assert PositionInWave(forward + waveLength, waveLength) == PositionInWave(forward, waveLength);
  }

  /** Moving `d` metres on moves the quotient by `d / w`. */
  lemma ShiftedQuotient(x: real, d: real, w: real)
    requires w != 0.0
    ensures (x + d) / w == x / w + d / w
  {
  }

  /** Half a wave further on, the square value has the opposite sign. */
  lemma SquareFlipsEveryHalfWave(forward: real, waveLength: real)
    requires waveLength != 0.0
    ensures SquareValue(forward + waveLength / 2.0, waveLength) == -SquareValue(forward, waveLength)
  {
    hide PositionInWave;
    var q := forward / waveLength;
    var q' := (forward + waveLength / 2.0) / waveLength;
    ShiftedQuotient(forward, waveLength / 2.0, waveLength);
    assert q' == q + 0.5;
    var f := PositionInWave(forward, waveLength);
    var f' := PositionInWave(forward + waveLength / 2.0, waveLength);
    if f < 0.5 {
      assert q'.Floor == q.Floor;
      assert f' == f + 0.5;
    } else {
      assert q'.Floor == q.Floor + 1;
      assert f' == f - 0.5;
    }
  }

  /** The start of the path: on the centre line, labelled as such, square value 0. */
  function StartWaypoint(startLat: real, startLon: real, yaw: real): Waypoint
  {
    Waypoint(startLat, startLon, StartCentre, yaw, 0.0)
  }

  /** The `i`-th waypoint after the start. */
  function StepWaypoint(g: Geodesic, startLat: real, startLon: real, yaw: real,
                        waveLength: real, amplitude: real, stepSize: real, i: nat): Waypoint
    requires waveLength != 0.0
  {
    var forward := (i as real) * stepSize;
    var square := SquareValue(forward, waveLength);
    var side := square * amplitude;
    var centre := g.direct(startLat, startLon, yaw, forward);
    if side > 0.0 then
      var p := g.direct(centre.lat, centre.lon, yaw + 90.0, side);
      Waypoint(p.lat, p.lon, Right(i, side), yaw + 90.0, square)
    else if side < 0.0 then
      var p := g.direct(centre.lat, centre.lon, yaw - 90.0, Abs(side));
      Waypoint(p.lat, p.lon, Left(i, Abs(side)), yaw - 90.0, square)
    else
      Waypoint(centre.lat, centre.lon, Centre(i), yaw, square)
  }

  /** The waypoints of steps 1 to `n`, in order. */
  function Steps(g: Geodesic, startLat: real, startLon: real, yaw: real,
                 waveLength: real, amplitude: real, stepSize: real, n: nat): (ws: seq<Waypoint>)
    requires n == 0 || waveLength != 0.0
    ensures |ws| == n
    ensures forall j :: 0 <= j < n ==> ws[j] == StepWaypoint(g, startLat, startLon, yaw, waveLength, amplitude, stepSize, j + 1)
    decreases n
  {
    if n == 0 then []
    else Steps(g, startLat, startLon, yaw, waveLength, amplitude, stepSize, n - 1)
         + [StepWaypoint(g, startLat, startLon, yaw, waveLength, amplitude, stepSize, n)]
  }

  /** `int(total_distance / step_size)`, the number of steps. */
  function StepCount(totalDistance: real, stepSize: real): int
    requires stepSize != 0.0
  {
    Trunc(totalDistance / stepSize)
  }

  /**
   * What `calculate_square_wave_path` returns, or `None` where it raises
   * `ZeroDivisionError`: a zero `step_size`, or a zero `wave_length` once
   * there is a step to take. A negative step count gives the start alone.
   */
  function SquareWavePath(g: Geodesic, startLat: real, startLon: real, yaw: real,
                          waveLength: real, amplitude: real, totalDistance: real, stepSize: real)
    : (r: Option<seq<Waypoint>>)
    ensures r.None? <==> stepSize == 0.0 || (StepCount(totalDistance, stepSize) >= 1 && waveLength == 0.0)
    ensures r.Some? ==>
              |r.value| == (if StepCount(totalDistance, stepSize) < 0 then 0 else StepCount(totalDistance, stepSize)) + 1
              && r.value[0] == StartWaypoint(startLat, startLon, yaw)
    ensures r.Some? ==>
              forall i :: 1 <= i < |r.value| ==>
                r.value[i] == StepWaypoint(g, startLat, startLon, yaw, waveLength, amplitude, stepSize, i)
  {
    if stepSize == 0.0 then None
    else
      var n := StepCount(totalDistance, stepSize);
      if n >= 1 && waveLength == 0.0 then None
      else
        var steps := Steps(g, startLat, startLon, yaw, waveLength, amplitude, stepSize, if n < 0 then 0 else n);
        Some([StartWaypoint(startLat, startLon, yaw)] + steps)
  }

  /**
   * The body of the loop of `calculate_square_wave_path` for step `i`: the
   * square value, the side and bearing it selects, and the final point.
   */
  method NextWaypoint(g: Geodesic, startLat: real, startLon: real, yaw: real,
                      waveLength: real, amplitude: real, stepSize: real, i: nat)
    returns (w: Waypoint)
    requires waveLength != 0.0
    ensures w == StepWaypoint(g, startLat, startLon, yaw, waveLength, amplitude, stepSize, i)
  {
    var forward := (i as real) * stepSize;
    var positionInWave := FloorMod(forward, waveLength) / waveLength;
    var square := if positionInWave < 0.5 then 1.0 else -1.0;
    var side := square * amplitude;
    var centre := g.direct(startLat, startLon, yaw, forward);
    var bearing, name;
    if side > 0.0 {
      bearing, name := yaw + 90.0, Right(i, side);
    } else if side < 0.0 {
      bearing := yaw - 90.0;
      side := Abs(side);
      name := Left(i, side);
    } else {
      bearing, side, name := yaw, 0.0, Centre(i);
    }
    var lat, lon := centre.lat, centre.lon;
    if side > 0.0 {
      var p := g.direct(centre.lat, centre.lon, bearing, side);
      lat, lon := p.lat, p.lon;
    }
    return Waypoint(lat, lon, name, bearing, square);
  }

  /**
   * `calculate_square_wave_path`: the start, then one waypoint per step
   * appended in step order.
   */
  method CalculateSquareWavePath(g: Geodesic, startLat: real, startLon: real, yaw: real,
                                 waveLength: real, amplitude: real, totalDistance: real, stepSize: real)
    returns (r: Option<seq<Waypoint>>)
    ensures r == SquareWavePath(g, startLat, startLon, yaw, waveLength, amplitude, totalDistance, stepSize)
  {
    hide StepWaypoint, Trunc;
    var waypoints := [StartWaypoint(startLat, startLon, yaw)];
    if stepSize == 0.0 {
      return None;
    }
    var numSteps := Trunc(totalDistance / stepSize);
    var i := 1;
    while i <= numSteps
      invariant 1 <= i <= if numSteps >= 1 then numSteps + 1 else 1
      invariant i == 1 || waveLength != 0.0
      invariant waypoints
                == [StartWaypoint(startLat, startLon, yaw)]
                   + Steps(g, startLat, startLon, yaw, waveLength, amplitude, stepSize, i - 1)
    {
      if waveLength == 0.0 {
        return None;
      }
      var w := NextWaypoint(g, startLat, startLon, yaw, waveLength, amplitude, stepSize, i);
      waypoints := waypoints + [w];
      i := i + 1;
    }
    assert numSteps == StepCount(totalDistance, stepSize);
    assert i - 1 == if numSteps < 0 then 0 else numSteps;
    return Some(waypoints);
  }

  /**
   * Each step's sideways move: the square value is +1 or -1; a positive
   * `square * amplitude` goes right on yaw + 90, a negative one goes left on
   * yaw - 90, both by `|amplitude|` from the centre-line point measured from
   * the start; a zero one stays on that centre-line point on bearing yaw.
   */
  lemma StepSide(g: Geodesic, startLat: real, startLon: real, yaw: real,
                 waveLength: real, amplitude: real, stepSize: real, i: nat)
    requires waveLength != 0.0
    ensures var w := StepWaypoint(g, startLat, startLon, yaw, waveLength, amplitude, stepSize, i);
            var c := g.direct(startLat, startLon, yaw, (i as real) * stepSize);
            && (w.square == 1.0 || w.square == -1.0)
            && (w.square * amplitude > 0.0 ==>
                  w.bearing == yaw + 90.0 && w.name == Right(i, Abs(amplitude))
                  && LatLon(w.lat, w.lon) == g.direct(c.lat, c.lon, yaw + 90.0, Abs(amplitude)))
            && (w.square * amplitude < 0.0 ==>
                  w.bearing == yaw - 90.0 && w.name == Left(i, Abs(amplitude))
                  && LatLon(w.lat, w.lon) == g.direct(c.lat, c.lon, yaw - 90.0, Abs(amplitude)))
            && (amplitude == 0.0 ==> w.bearing == yaw && w.name == Centre(i) && LatLon(w.lat, w.lon) == c)
  {
  }

  /**
   * With a positive amplitude, steps in the first half of a wave go right
   * and those in the second half go left, each by exactly `amplitude`.
   */
  lemma PositiveAmplitudeSides(g: Geodesic, startLat: real, startLon: real, yaw: real,
                               waveLength: real, amplitude: real, totalDistance: real, stepSize: real, i: nat)
    requires amplitude > 0.0
    requires SquareWavePath(g, startLat, startLon, yaw, waveLength, amplitude, totalDistance, stepSize).Some?
    requires 1 <= i < |SquareWavePath(g, startLat, startLon, yaw, waveLength, amplitude, totalDistance, stepSize).value|
    ensures var w := SquareWavePath(g, startLat, startLon, yaw, waveLength, amplitude, totalDistance, stepSize).value[i];
            && (PositionInWave((i as real) * stepSize, waveLength) < 0.5 <==> w.square == 1.0)
            && (w.square == 1.0 ==> w.bearing == yaw + 90.0 && w.name == Right(i, amplitude))
            && (w.square == -1.0 ==> w.bearing == yaw - 90.0 && w.name == Left(i, amplitude))
  {
    StepSide(g, startLat, startLon, yaw, waveLength, amplitude, stepSize, i);
  }

  /**
   * With amplitude 0 every waypoint after the start is the centre-line point
   * `Direct(start, yaw, i * step_size)`, on bearing yaw.
   */
  lemma ZeroAmplitudeCentreLine(g: Geodesic, startLat: real, startLon: real, yaw: real,
                                waveLength: real, totalDistance: real, stepSize: real, i: nat)
    requires SquareWavePath(g, startLat, startLon, yaw, waveLength, 0.0, totalDistance, stepSize).Some?
    requires 1 <= i < |SquareWavePath(g, startLat, startLon, yaw, waveLength, 0.0, totalDistance, stepSize).value|
    ensures var w := SquareWavePath(g, startLat, startLon, yaw, waveLength, 0.0, totalDistance, stepSize).value[i];
            && LatLon(w.lat, w.lon) == g.direct(startLat, startLon, yaw, (i as real) * stepSize)
            && w.bearing == yaw && w.name == Centre(i)
  {
    StepSide(g, startLat, startLon, yaw, waveLength, 0.0, stepSize, i);
  }

  // ---------------------------------------------------------------------
  // Flying the path
  // ---------------------------------------------------------------------

  /** The `go_to_position` arguments for one waypoint: altitude 15 m, hold 0.5 s, speed 8 m/s. */
  function RunTarget(w: Waypoint): Target
  {
    Target(w.lat, w.lon, 15.0, 0.5, 8.0)
  }

  /** The targets of `waypoints[1:]`, in order. */
  function RunTargets(waypoints: seq<Waypoint>): (targets: seq<Target>)
    ensures |waypoints| <= 1 ==> targets == []
    ensures |waypoints| > 1 ==> |targets| == |waypoints| - 1
    ensures forall i :: 0 <= i < |targets| ==> targets[i] == RunTarget(waypoints[i + 1])
  {
    if |waypoints| <= 1 then []
    else seq(|waypoints| - 1, i requires 0 <= i < |waypoints| - 1 => RunTarget(waypoints[i + 1]))
  }

  /** The calls of a complete run: connect, initialise, one visit per waypoint after the first, land. */
  function SquareRunPlan(m: Elementary, g: Geodesic, home: Option<real>, address: string, attitudeBound: bool,
                         waypoints: seq<Waypoint>, visits: seq<Visit>): seq<Command>
  {
    StartPlan(address, attitudeBound) + TourPlan(m, g, home, RunTargets(waypoints), visits) + [Land]
  }

  /** How `run_square_wave_mission` ends: not started, stopped during the visits, or at the land call (and whether it raised). */
  datatype SquareRun = NotStarted(opening: Opening) | VisitsStopped(tour: Tour) | LandCalled(raised: bool)

  /** The part of the run after initialising: the visits, then land once they all arrived. */
  method VisitThenLand(mission: WaypointMission, m: Elementary, g: Geodesic, waypoints: seq<Waypoint>,
                       visits: seq<Visit>)
    returns (end: SquareRun)
    modifies mission.drone
    ensures !end.NotStarted?
    ensures IssuedPrefix(old(mission.drone.commands), mission.drone.commands,
                         TourPlan(m, g, mission.homeAlt, RunTargets(waypoints), visits) + [Land])
    ensures end.VisitsStopped? ==> end.tour.Interrupted? && (end.tour.why == NoHome <==> mission.homeAlt.None?)
    ensures end.LandCalled? ==>
              (|waypoints| <= 1 || mission.homeAlt.Some?)
              && ReachedAll(m, g, RunTargets(waypoints), visits, |RunTargets(waypoints)|)
              && (end.raised <==> |old(mission.drone.commands)| + |TourPlan(m, g, mission.homeAlt, RunTargets(waypoints), visits)|
                                  in mission.drone.failing)
              && mission.drone.commands
                 == old(mission.drone.commands) + (TourPlan(m, g, mission.homeAlt, RunTargets(waypoints), visits) + [Land])
  {
    hide GotoPlan;
    ghost var before := mission.drone.commands;
    ghost var tour := TourPlan(m, g, mission.homeAlt, RunTargets(waypoints), visits);
    var visited := mission.VisitAll(m, g, RunTargets(waypoints), visits);
    IssuedWithin(before, mission.drone.commands, tour, tour + [Land]);
    if visited != Toured {
      return VisitsStopped(visited);
    }
    ghost var afterVisits := mission.drone.commands;
    var ok := mission.drone.Issue(Land);
    IssuedChain(before, afterVisits, mission.drone.commands, tour, [Land]);
    return LandCalled(!ok);
  }

  /**
   * `run_square_wave_mission`: `connect` with both parameters by keyword
   * (which binds), `initialize_mission`, a visit to each waypoint after the
   * first, then land. As written it never gets past `connect`: with no
   * `update_attitude` in the class hierarchy (`attitudeBound` false) the
   * connection stops with `AttributeError` once the vehicle is healthy, after
   * the connect call and three task starts. Were `update_attitude` there, no
   * method of the class sets `home_position`, so with two or more waypoints
   * the first visit would raise and land would never be called.
   */
  method RunSquareWaveMission(mission: WaypointMission, m: Elementary, g: Geodesic, address: string,
                              link: seq<bool>, health: seq<Health>, attitudeBound: bool,
                              startAlt: real, currentAlt: real, waypoints: seq<Waypoint>, visits: seq<Visit>)
    returns (end: SquareRun)
    modifies mission.drone
    ensures end != NotStarted(NotConnected(CallRejected))
    ensures !attitudeBound ==> end.NotStarted?
                               && IssuedPrefix(old(mission.drone.commands), mission.drone.commands,
                                               ConnectPlan(address, false))
    ensures end == NotStarted(NotConnected(AttitudeMissing)) <==>
              !attitudeBound && |old(mission.drone.commands)| !in mission.drone.failing
              && FirstFrom(link, Connected, 0).Some? && FirstFrom(health, Healthy, 0).Some?
    ensures IssuedPrefix(old(mission.drone.commands), mission.drone.commands,
                         SquareRunPlan(m, g, mission.homeAlt, address, attitudeBound, waypoints, visits))
    ensures end.LandCalled? ==>
              attitudeBound && (|waypoints| <= 1 || mission.homeAlt.Some?)
              && ReachedAll(m, g, RunTargets(waypoints), visits, |RunTargets(waypoints)|)
              && mission.drone.commands
                 == old(mission.drone.commands) + SquareRunPlan(m, g, mission.homeAlt, address, attitudeBound, waypoints, visits)
  {
    ghost var before := mission.drone.commands;
    ghost var start := StartPlan(address, attitudeBound);
    ghost var tour := TourPlan(m, g, mission.homeAlt, RunTargets(waypoints), visits);
    assert start + tour + [Land] == start + (tour + [Land]);
    KeywordCallBinds();
    var opening := mission.StartUp(KeywordConnectCall, address, link, health, attitudeBound, startAlt, currentAlt);
    IssuedWithin(before, mission.drone.commands, start, start + (tour + [Land]));
    if !opening.Opened? {
      return NotStarted(opening);
    }
    ghost var afterStart := mission.drone.commands;
    end := VisitThenLand(mission, m, g, waypoints, visits);
    IssuedChain(before, afterStart, mission.drone.commands, start, tour + [Land]);
  }
}
