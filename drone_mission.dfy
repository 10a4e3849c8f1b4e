/**
 * missions/drone_mission.py: a `DroneMission` object that connects, arms
 * and takes off, goes to a point given in millionths of a degree at
 * altitude 0, waits for arrival and lands, started by the radio handler on
 * command 1.
 *
 * `wait_until_arrival` is modelled as written: its inner `async for` over
 * positions ends only on an arriving sample, so with a positive `timeout`
 * it either answers `True` or keeps reading, and it answers `False` only
 * when `timeout` is not positive.
 */
module DroneMissions {
  import opened Wrappers
  import opened Maths
  import opened Polling
  import opened Drone
  import XbeeService
  import CommandProtocol

  /** What `run_mission` reads: connection states, health reports and positions. */
  datatype Observations = Observations(connection: seq<bool>, health: seq<Health>, position: seq<Position>)

  /**
   * How `run_mission` ends: not started, an exception (which reaches the
   * handler and is caught there), still waiting on telemetry, or landed
   * with what `wait_until_arrival` answered.
   */
  datatype Outcome = NotStarted | Raised | Waiting | Landed(arrived: bool)

  /** A position within `tolerance` degrees of the target in both latitude and longitude. */
  function Within(lat: real, lon: real, tolerance: real): Position -> bool
  {
    (p: Position) => Abs(p.lat - lat) < tolerance && Abs(p.lon - lon) < tolerance
  }

  class DroneMission {
    const port: int
    const systemAddress: string
    const maxSpeed: real
    const tolerance: real
    const timeout: int
    const drone: Vehicle

    /** `__init__` with its defaults; `failing` fixes which of the vehicle's calls raise. */
    constructor(failing: set<nat>)
      ensures port == 50061 && systemAddress == "udpin://0.0.0.0:14541"
      ensures maxSpeed == 5.0 && tolerance == 0.00001 && timeout == 30
      ensures fresh(drone) && drone.commands == [] && drone.failing == failing
    {
      port := 50061;
      systemAddress := "udpin://0.0.0.0:14541";
      maxSpeed := 5.0;
      tolerance := 0.00001;
      timeout := 30;
      drone := new Vehicle(failing);
    }

    /** The calls of a complete mission, in order. */
    function Plan(lat: int, lon: int): seq<Command>
    {
      [Connect(systemAddress), Arm, SetMaximumSpeed(maxSpeed), Takeoff,
       Command.GotoLocation(CommandProtocol.MicroDegrees(lat), CommandProtocol.MicroDegrees(lon), 0.0, 0.0), Command.Land]
    }

    /**
     * `wait_until_arrival`. `None` while it is still reading positions.
     * It answers `False` exactly when `timeout` is not positive: the
     * timeout never ends a wait that has started.
     */
    method WaitUntilArrival(lat: int, lon: int, positions: seq<Position>) returns (r: Option<bool>)
      ensures r == Some(false) <==> timeout <= 0
      ensures r == Some(true) <==>
                timeout > 0 && FirstFrom(positions, Within(CommandProtocol.MicroDegrees(lat),
                                                           CommandProtocol.MicroDegrees(lon), tolerance), 0).Some?
    {
      var latDecimal := CommandProtocol.MicroDegrees(lat);
      var lonDecimal := CommandProtocol.MicroDegrees(lon);
      if timeout <= 0 {
        // `range(timeout)` is empty
        return Some(false);
      }
      // the first pass of the `for` loop: its `async for` ends only by returning
      var k := 0;
      while k < |positions|
        invariant k <= |positions|
        invariant FirstFrom(positions, Within(latDecimal, lonDecimal, tolerance), 0)
                  == FirstFrom(positions, Within(latDecimal, lonDecimal, tolerance), k)
      {
        if Within(latDecimal, lonDecimal, tolerance)(positions[k]) {
          return Some(true);
        }
        k := k + 1;
      }
      return None;
    }

    /**
     * `connect`: the connect call, then the waits for the link and for a
     * healthy estimate. `None` means both arrived.
     */
    method ConnectDrone(obs: Observations, ghost before: seq<Command>, ghost plan: seq<Command>)
      returns (stop: Option<Outcome>)
      requires drone.commands == before && |plan| > 0 && plan[0] == Connect(systemAddress)
      modifies drone
      ensures IssuedPrefix(before, drone.commands, plan)
      ensures RaisedOnlyAtEnd(|before|, drone.commands, drone.failing, stop == Some(Raised))
      ensures stop.None? ==> |drone.commands| == |before| + 1
                             && FirstFrom(obs.connection, Connected, 0).Some? && FirstFrom(obs.health, Healthy, 0).Some?
      ensures stop.Some? ==> stop == Some(Raised) || stop == Some(Waiting)
      ensures stop == Some(Waiting) ==> FirstFrom(obs.connection, Connected, 0).None?
                                        || FirstFrom(obs.health, Healthy, 0).None?
    {
      var ok := drone.IssueNext(before, plan, Connect(systemAddress));
      if !ok {
        return Some(Raised);
      }
      var connected := AwaitFirst(obs.connection, Connected);
      if connected.None? {
        return Some(Waiting);
      }
      var healthy := AwaitFirst(obs.health, Healthy);
      if healthy.None? {
        return Some(Waiting);
      }
      return None;
    }

    /** `arm_and_takeoff`: arm, set the maximum speed, take off; `false` when a call raised. */
    method ArmAndTakeoff(ghost before: seq<Command>, ghost plan: seq<Command>) returns (ok: bool)
      requires IssuedPrefix(before, drone.commands, plan) && |drone.commands| == |before| + 1
      requires RaisedOnlyAtEnd(|before|, drone.commands, drone.failing, false)
      requires |plan| >= 4 && plan[1..4] == [Arm, SetMaximumSpeed(maxSpeed), Takeoff]
      modifies drone
      ensures IssuedPrefix(before, drone.commands, plan)
      ensures RaisedOnlyAtEnd(|before|, drone.commands, drone.failing, !ok)
      ensures ok ==> |drone.commands| == |before| + 4
    {
      ok := drone.IssueNext(before, plan, Arm);
      if ok {
        ok := drone.IssueNext(before, plan, SetMaximumSpeed(maxSpeed));
        if ok {
          ok := drone.IssueNext(before, plan, Takeoff);
        }
      }
    }

    /** `goto_location`: the point in degrees, at altitude 0 and yaw 0. */
    method GotoLocation(lat: int, lon: int, ghost before: seq<Command>, ghost plan: seq<Command>) returns (ok: bool)
      requires IssuedPrefix(before, drone.commands, plan) && |drone.commands| == |before| + 4
      requires RaisedOnlyAtEnd(|before|, drone.commands, drone.failing, false)
      requires |plan| >= 5 && plan[4] == Command.GotoLocation(CommandProtocol.MicroDegrees(lat), CommandProtocol.MicroDegrees(lon), 0.0, 0.0)
      modifies drone
      ensures IssuedPrefix(before, drone.commands, plan) && |drone.commands| == |before| + 5
      ensures RaisedOnlyAtEnd(|before|, drone.commands, drone.failing, !ok)
    {
      var latDecimal := CommandProtocol.MicroDegrees(lat);
      var lonDecimal := CommandProtocol.MicroDegrees(lon);
      ok := drone.IssueNext(before, plan, Command.GotoLocation(latDecimal, lonDecimal, 0.0, 0.0));
    }

    /** `land`. */
    method Land(ghost before: seq<Command>, ghost plan: seq<Command>) returns (ok: bool)
      requires IssuedPrefix(before, drone.commands, plan) && |drone.commands| == |before| + 5
      requires RaisedOnlyAtEnd(|before|, drone.commands, drone.failing, false)
      requires |plan| >= 6 && plan[5] == Command.Land
      modifies drone
      ensures IssuedPrefix(before, drone.commands, plan) && |drone.commands| == |before| + 6
      ensures RaisedOnlyAtEnd(|before|, drone.commands, drone.failing, !ok)
    {
      ok := drone.IssueNext(before, plan, Command.Land);
    }

    /**
     * The part of `run_mission` after `connect`: arm and take off, go to the
     * target, wait, and land whatever the wait answered.
     */
    method FlyAndLand(lat: int, lon: int, obs: Observations, ghost before: seq<Command>, ghost plan: seq<Command>)
      returns (end: Outcome)
      requires plan == Plan(lat, lon)
      requires IssuedPrefix(before, drone.commands, plan) && |drone.commands| == |before| + 1
      requires RaisedOnlyAtEnd(|before|, drone.commands, drone.failing, false)
      modifies drone
      ensures end.Raised? || end.Waiting? || end.Landed?
      ensures IssuedPrefix(before, drone.commands, plan)
      ensures RaisedOnlyAtEnd(|before|, drone.commands, drone.failing, end == Raised)
      ensures end.Landed? ==> drone.commands == before + plan && end.arrived == (timeout > 0)
      ensures end == Waiting ==> timeout > 0 && FirstFrom(obs.position, Within(CommandProtocol.MicroDegrees(lat),
                                                   CommandProtocol.MicroDegrees(lon), tolerance), 0).None?
    {
      var ok := ArmAndTakeoff(before, plan);
      if !ok {
        return Raised;
      }
      ok := GotoLocation(lat, lon, before, plan);
      if !ok {
        return Raised;
      }
      var arrived := WaitUntilArrival(lat, lon, obs.position);
      if arrived.None? {
        return Waiting;
      }
      ok := Land(before, plan);
      if !ok {
        return Raised;
      }
      assert plan[..6] == plan;
      return Landed(arrived.value);
    }

    /**
     * `run_mission`. Only command 1 flies; then connect, arm and take off,
     * go to the target at altitude 0, wait, and land whatever the wait
     * answered. Every call follows `Plan` in order and the first one that
     * raises ends the run.
     */
    method RunMission(lat: int, lon: int, command: int, obs: Observations) returns (end: Outcome)
      modifies drone
      ensures end == NotStarted <==> command != 1
      ensures end == NotStarted ==> drone.commands == old(drone.commands)
      ensures IssuedPrefix(old(drone.commands), drone.commands, Plan(lat, lon))
      ensures RaisedOnlyAtEnd(|old(drone.commands)|, drone.commands, drone.failing, end == Raised)
      ensures end.Landed? ==> drone.commands == old(drone.commands) + Plan(lat, lon)
                              && FirstFrom(obs.connection, Connected, 0).Some?
                              && FirstFrom(obs.health, Healthy, 0).Some?
                              && end.arrived == (timeout > 0)
      ensures end == Waiting ==> FirstFrom(obs.connection, Connected, 0).None?
                                 || FirstFrom(obs.health, Healthy, 0).None?
                                 || (timeout > 0 && FirstFrom(obs.position, Within(CommandProtocol.MicroDegrees(lat),
                                                              CommandProtocol.MicroDegrees(lon), tolerance), 0).None?)
    {
      if command != 1 {
        return NotStarted;
      }
      ghost var before := drone.commands;
      ghost var plan := Plan(lat, lon);
      var stop := ConnectDrone(obs, before, plan);
      if stop.Some? {
        return stop.value;
      }
      end := FlyAndLand(lat, lon, obs, before, plan);
    }
  }

  /**
   * The `custom_message_handler` inside `main`: a well-formed payload with
   * command 1 runs the mission; anything else, or an exception from the
   * mission, changes nothing more.
   */
  method CustomMessageHandler(mission: DroneMission, d: XbeeService.MessageDict, obs: Observations)
    returns (end: Outcome)
    modifies mission.drone
    ensures CommandProtocol.MissionOrder(d).None? ==>
              end == NotStarted && mission.drone.commands == old(mission.drone.commands)
    ensures CommandProtocol.MissionOrder(d).Some? ==>
              end != NotStarted
              && IssuedPrefix(old(mission.drone.commands), mission.drone.commands,
                              mission.Plan(CommandProtocol.MissionOrder(d).value.lat, CommandProtocol.MissionOrder(d).value.lon))
  {
    var order := CommandProtocol.MissionOrder(d);
    if order.None? {
      return NotStarted;
    }
    end := mission.RunMission(order.value.lat, order.value.lon, order.value.command, obs);
  }
}
