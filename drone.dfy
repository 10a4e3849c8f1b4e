/**
 * The vehicle as the mission scripts see it through MAVSDK: a sink for
 * commands, which records them in the order they were issued, and the
 * telemetry samples the scripts read back.
 *
 * Which calls raise is fixed up front: `failing` holds the positions in the
 * trace whose call raises (the call is still recorded as made). The
 * asynchronous tasks a script starts or cancels appear in the same trace so
 * that their order relative to the commands can be stated.
 */
module Drone {

  /** A call a script makes on the vehicle (or on one of its background tasks). */
  datatype Command =
    | Connect(systemAddress: string)
    | Arm
    | SetTakeoffAltitude(metres: real)
    | SetMaximumSpeed(speed: real)
    | SetCurrentSpeed(speed: real)
    | Takeoff
    | Land
    | GotoLocation(lat: real, lon: real, altitudeAmsl: real, yaw: real)
    | SetVelocityNed(north: real, east: real, down: real, yaw: real)
    | SetPositionNed(north: real, east: real, down: real, yaw: real)
    | SetPositionVelocityNed(position: Ned, velocity: Ned, yaw: real)
    | OffboardStart
    | OffboardStop
    | StartTask(task: Task)
    | CancelTask(task: Task)

  /** A north/east/down triple in metres or metres per second. */
  datatype Ned = Ned(north: real, east: real, down: real)

  /** The background tasks models/connect.py starts after connecting (the last one only where `update_attitude` exists). */
  datatype Task = StatusText | PositionUpdate | VelocityPrint | AttitudeUpdate

  /** One `telemetry.position()` sample. */
  datatype Position = Position(lat: real, lon: real, absoluteAltitude: real, relativeAltitude: real)

  /** One `telemetry.health()` sample. */
  datatype Health = Health(globalPositionOk: bool, homePositionOk: bool)

  /** The test the connection waits apply to a `core.connection_state()` sample. */
  predicate Connected(isConnected: bool)
  {
    isConnected
  }

  /** The test the health waits apply: global position and home position both ok. */
  predicate Healthy(h: Health)
  {
    h.globalPositionOk && h.homePositionOk
  }

  class Vehicle {
    /** Every call made, oldest first. */
    var commands: seq<Command>
    /** The positions in `commands` whose call raises. */
    const failing: set<nat>

    constructor(failing: set<nat>)
      ensures commands == [] && this.failing == failing
    {
      commands := [];
      this.failing := failing;
    }

    /** Whether the next call will raise. */
    function NextFails(): bool
      reads this
    {
      |commands| in failing
    }

    /** Makes one call; `ok` is false when it raises. */
    method Issue(c: Command) returns (ok: bool)
      modifies this`commands
      ensures commands == old(commands) + [c]
      ensures ok == (|old(commands)| !in failing)
    {
      ok := |commands| !in failing;
      commands := commands + [c];
    }

    /**
     * Makes the next call of `plan`, begun after `before`, when every call
     * of the plan so far has returned normally.
     */
    method IssueNext(ghost before: seq<Command>, ghost plan: seq<Command>, c: Command) returns (ok: bool)
      requires IssuedPrefix(before, commands, plan)
      requires |commands| - |before| < |plan| && plan[|commands| - |before|] == c
      requires RaisedOnlyAtEnd(|before|, commands, failing, false)
      modifies this`commands
      ensures commands == old(commands) + [c]
      ensures IssuedPrefix(before, commands, plan)
      ensures RaisedOnlyAtEnd(|before|, commands, failing, !ok)
    {
      IssuedNext(before, commands, plan, c);
      ok := Issue(c);
    }

    /** Records a call that cannot raise, such as starting or cancelling a background task. */
    method Record(c: Command)
      modifies this`commands
      ensures commands == old(commands) + [c]
    {
      commands := commands + [c];
    }
  }

  /**
   * `after` is `before` followed by the first few calls of `plan`: a script
   * that stops early has made a prefix of its plan and nothing else.
   */
  predicate IssuedPrefix(before: seq<Command>, after: seq<Command>, plan: seq<Command>)
  {
    |before| <= |after| <= |before| + |plan| && after == before + plan[..|after| - |before|]
  }

  /**
   * Of the calls made after the first `start`, none raised, or, when
   * `raised` holds, the last one did and only that one.
   */
  predicate RaisedOnlyAtEnd(start: nat, commands: seq<Command>, failing: set<nat>, raised: bool)
  {
    (raised ==> start < |commands| && |commands| - 1 in failing)
    && forall i :: start <= i < |commands| && i in failing ==> raised && i == |commands| - 1
  }

  /** Making the plan's next call keeps the trace a prefix of the plan. */
  lemma IssuedNext(before: seq<Command>, after: seq<Command>, plan: seq<Command>, c: Command)
    requires IssuedPrefix(before, after, plan)
    requires |after| - |before| < |plan| && plan[|after| - |before|] == c
    ensures IssuedPrefix(before, after + [c], plan)
  {
    var k := |after| - |before|;
    assert plan[..k + 1] == plan[..k] + [c];
  }

  /** A plan made in full and then a prefix of a second plan is a prefix of the two together. */
  lemma IssuedChain(before: seq<Command>, middle: seq<Command>, after: seq<Command>,
                    first: seq<Command>, second: seq<Command>)
    requires middle == before + first
    requires IssuedPrefix(middle, after, second)
    ensures IssuedPrefix(before, after, first + second)
  {
    assert (first + second)[..|after| - |before|] == first + second[..|after| - |middle|];
  }

  /** No call raising up to `middle`, then the second stretch as it went, is the whole run as it went. */
  lemma RaisedChain(start: nat, middle: seq<Command>, commands: seq<Command>, failing: set<nat>, raised: bool)
    requires start <= |middle| <= |commands|
    requires RaisedOnlyAtEnd(start, middle, failing, false)
    requires RaisedOnlyAtEnd(|middle|, commands, failing, raised)
    ensures RaisedOnlyAtEnd(start, commands, failing, raised)
  {
  }

  /** The prefixes of a plan grow by one call at a time. */
  lemma PrefixGrows(plan: seq<Command>, i: nat)
    requires i < |plan|
    ensures plan[..i + 1] == plan[..i] + [plan[i]]
  {
  }

  /** A prefix of a plan is a prefix of any longer plan that begins with it. */
  lemma IssuedWithin(before: seq<Command>, after: seq<Command>, plan: seq<Command>, longer: seq<Command>)
    requires IssuedPrefix(before, after, plan)
    requires |plan| <= |longer| && plan == longer[..|plan|]
    ensures IssuedPrefix(before, after, longer)
  {
    assert longer[..|after| - |before|] == plan[..|after| - |before|];
  }
}
