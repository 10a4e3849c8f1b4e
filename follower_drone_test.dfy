/**
 * test/follower_drone_test.py: the "safe" follower. It parses the same
 * four-field payload with every field stripped, ignores the received
 * altitude, bounds each wait with a timeout, checks the climb to 5 m above
 * ground before it goes anywhere, and tries to land on every failure that
 * comes after arming.
 */
module FollowerDroneTest {
  import opened Wrappers
  import opened Maths
  import opened Polling
  import opened Drone
  import XbeeService
  import CommandProtocol

  const SystemAddress: string := "udpin://0.0.0.0:14541"
  /** Height above ground the takeoff must reach before the goto. */
  const MinSafeTakeoffRelAlt: real := 5.0
  /** Cruise height above home for the goto. */
  const CruiseRelAlt: real := 10.0
  const TakeoffSpeed: real := 2.5
  const TakeoffTimeout: real := 30.0
  const ConnectTimeout: real := 20.0
  const HealthTimeout: real := 30.0
  const GotoTimeout: real := 120.0
  /** Degrees of latitude and of longitude that count as arrived. */
  const TargetProximityDeg: real := 0.00001
  /** Metres of altitude that count as arrived. */
  const AltProximity: real := 2.0

  /**
   * What the mission reads: connection states and health reports with the
   * seconds since their wait began, home positions, and one position read
   * per pass of the takeoff check and of the progress check, each with the
   * seconds the pass began at (`None` when that read raised).
   */
  datatype Observations = Observations(
    connection: seq<Timed<bool>>,
    health: seq<Timed<Health>>,
    home: seq<Position>,
    climb: seq<Timed<Option<Position>>>,
    progress: seq<Timed<Option<Position>>>)

  /** How `drone_mission` ends. */
  datatype Outcome =
    | NotStarted
    | ConnectFailed
    | ConnectionTimedOut
    | HealthTimedOut
    | TakeoffError
    | TooLow
    | GotoError
    | Arrived
    | NotArrived
    | Waiting

  /** A takeoff-check read that succeeded and shows at least 5 m above ground. */
  predicate SafeAltitude(p: Option<Position>)
  {
    p.Some? && p.value.relativeAltitude >= MinSafeTakeoffRelAlt
  }

  /** A progress read that succeeded and lies within all three thresholds of the target. */
  function Near(lat: real, lon: real, altAmsl: real): Option<Position> -> bool
  {
    (p: Option<Position>) => p.Some? && Abs(p.value.lat - lat) < TargetProximityDeg && Abs(p.value.lon - lon) < TargetProximityDeg
         && Abs(p.value.absoluteAltitude - altAmsl) < AltProximity
  }

  function HomeAltitude(obs: Observations): real
  {
    if |obs.home| > 0 then obs.home[0].absoluteAltitude else 0.0
  }

  /** The goto target: the received point in degrees at home AMSL plus 10 m; the received altitude plays no part. */
  function Target(lat: int, lon: int, homeAlt: real): Command
  {
    GotoLocation(CommandProtocol.MicroDegrees(lat), CommandProtocol.MicroDegrees(lon), homeAlt + CruiseRelAlt, 0.0)
  }

  /** The calls up to the goto, in order. */
  function Plan(lat: int, lon: int, homeAlt: real): seq<Command>
  {
    [Connect(SystemAddress), Arm, SetTakeoffAltitude(MinSafeTakeoffRelAlt), SetCurrentSpeed(TakeoffSpeed), Takeoff,
     Target(lat, lon, homeAlt)]
  }

  /**
   * Waits for the link and a healthy estimate and reads home: the part
   * before arming. `None` means the vehicle is connected, healthy and its
   * home is known.
   */
  method Prepare(v: Vehicle, lat: int, lon: int, obs: Observations) returns (stop: Option<Outcome>)
    modifies v
    ensures v.commands == old(v.commands) + [Connect(SystemAddress)]
    ensures stop == Some(ConnectFailed) <==> |old(v.commands)| in v.failing
    ensures stop.None? ==> |obs.home| > 0
                           && WaitFrom(obs.connection, Connected, ConnectTimeout, 0).Found?
                           && WaitFrom(obs.health, Healthy, HealthTimeout, 0).Found?
    ensures stop == Some(ConnectionTimedOut) <==>
              |old(v.commands)| !in v.failing && WaitFrom(obs.connection, Connected, ConnectTimeout, 0).TimedOut?
    ensures stop == Some(HealthTimedOut) ==> WaitFrom(obs.health, Healthy, HealthTimeout, 0).TimedOut?
    ensures stop.Some? ==> (stop.value.ConnectFailed? || stop.value.ConnectionTimedOut? || stop.value.HealthTimedOut? || stop.value.Waiting?)
  {
    var ok := v.Issue(Connect(SystemAddress));
    if !ok {
      return Some(ConnectFailed);
    }
    var connected := AwaitWithTimeout(obs.connection, Connected, ConnectTimeout);
    if connected.TimedOut? {
      return Some(ConnectionTimedOut);
    }
    if connected.Pending? {
      return Some(Waiting);
    }
    var healthy := AwaitWithTimeout(obs.health, Healthy, HealthTimeout);
    if healthy.TimedOut? {
      return Some(HealthTimedOut);
    }
    if healthy.Pending? {
      return Some(Waiting);
    }
    if |obs.home| == 0 {
      return Some(Waiting);
    }
    return None;
  }

  /** The `land()` the mission attempts before giving up; its failure is swallowed. */
  method TryLand(v: Vehicle)
    modifies v
    ensures v.commands == old(v.commands) + [Land]
  {
    var _ := v.Issue(Land);
  }

  /**
   * Arm, set the takeoff altitude and speed, take off; any failure there
   * lands and stops. `true` when all four calls returned.
   */
  method ArmAndTakeoff(v: Vehicle, ghost before: seq<Command>, ghost plan: seq<Command>) returns (ok: bool)
    requires |plan| == 6 && plan[1..5] == [Arm, SetTakeoffAltitude(MinSafeTakeoffRelAlt), SetCurrentSpeed(TakeoffSpeed), Takeoff]
    requires IssuedPrefix(before, v.commands, plan) && |v.commands| == |before| + 1
    requires RaisedOnlyAtEnd(|before|, v.commands, v.failing, false)
    modifies v
    ensures ok ==> IssuedPrefix(before, v.commands, plan) && |v.commands| == |before| + 5
                   && RaisedOnlyAtEnd(|before|, v.commands, v.failing, false)
    ensures !ok ==> 2 <= |v.commands| - |before| - 1 <= 5
                    && IssuedPrefix(before, v.commands[..|v.commands| - 1], plan)
                    && RaisedOnlyAtEnd(|before|, v.commands[..|v.commands| - 1], v.failing, true)
                    && v.commands[|v.commands| - 1] == Land
  {
    ok := v.IssueNext(before, plan, Arm);
    if ok {
      ok := v.IssueNext(before, plan, SetTakeoffAltitude(MinSafeTakeoffRelAlt));
      if ok {
        ok := v.IssueNext(before, plan, SetCurrentSpeed(TakeoffSpeed));
        if ok {
          ok := v.IssueNext(before, plan, Takeoff);
        }
      }
    }
    if !ok {
      ghost var made := v.commands;
      TryLand(v);
      assert v.commands[..|v.commands| - 1] == made;
    }
  }

  /** No call from position `from` on is a goto. */
  predicate NoGoto(cmds: seq<Command>, from: nat)
  {
    forall i :: from <= i < |cmds| ==> !cmds[i].GotoLocation?
  }

  /** The calls before the goto, followed or not by a landing, hold no goto. */
  lemma NoGotoBeforeTarget(before: seq<Command>, lat: int, lon: int, homeAlt: real, n: nat)
    requires n <= 5
    ensures NoGoto(before + Plan(lat, lon, homeAlt)[..n], |before|)
    ensures NoGoto(before + Plan(lat, lon, homeAlt)[..n] + [Land], |before|)
  {
    var plan := Plan(lat, lon, homeAlt);
    forall i | |before| <= i < |before| + n
      ensures (before + plan[..n])[i] == plan[i - |before|]
    {
    }
  }

  /**
   * From the takeoff check on: without a safe altitude within 30 s it lands
   * and returns; otherwise it goes to the target (landing if the goto
   * raises), watches its progress for up to 120 s and lands either way.
   */
  method Fly(v: Vehicle, lat: int, lon: int, obs: Observations, ghost before: seq<Command>) returns (end: Outcome)
    requires |obs.home| > 0
    requires v.commands == before + Plan(lat, lon, HomeAltitude(obs))[..5]
    modifies v
    ensures end.TooLow? || end.GotoError? || end.Arrived? || end.NotArrived? || end.Waiting?
    ensures end == TooLow ==> v.commands == before + Plan(lat, lon, HomeAltitude(obs))[..5] + [Land]
                              && PollFrom(obs.climb, SafeAltitude, TakeoffTimeout, 0).TimedOut?
    ensures end == GotoError ==> v.commands == before + Plan(lat, lon, HomeAltitude(obs)) + [Land]
                                 && |before| + 5 in v.failing
    ensures end == Arrived || end == NotArrived ==>
              v.commands == before + Plan(lat, lon, HomeAltitude(obs)) + [Land] && |before| + 5 !in v.failing
    ensures end == Arrived ==> PollFrom(obs.progress, Near(CommandProtocol.MicroDegrees(lat), CommandProtocol.MicroDegrees(lon),
                                                           HomeAltitude(obs) + CruiseRelAlt), GotoTimeout, 0).Found?
    ensures end == NotArrived ==> PollFrom(obs.progress, Near(CommandProtocol.MicroDegrees(lat), CommandProtocol.MicroDegrees(lon),
                                                              HomeAltitude(obs) + CruiseRelAlt), GotoTimeout, 0).TimedOut?
    ensures end == Waiting ==> v.commands == before + Plan(lat, lon, HomeAltitude(obs))[..5]
                               || v.commands == before + Plan(lat, lon, HomeAltitude(obs))
    ensures !NoGoto(v.commands, |before|) ==> PollFrom(obs.climb, SafeAltitude, TakeoffTimeout, 0).Found?
    ensures |v.commands| > |before| + 1 && v.commands[|before|] == Connect(SystemAddress)
    ensures end != Waiting ==> v.commands[|v.commands| - 1] == Land
  {
    ghost var plan := Plan(lat, lon, HomeAltitude(obs));
    NoGotoBeforeTarget(before, lat, lon, HomeAltitude(obs), 5);
    var climb := PollUntil(obs.climb, SafeAltitude, TakeoffTimeout);
    if climb.Pending? {
      return Waiting;
    }
    if climb.TimedOut? {
      TryLand(v);
      return TooLow;
    }
    end := GoToTarget(v, lat, lon, obs, before);
  }

  /**
   * After a verified takeoff: the goto (landing if it raises), up to 120 s
   * of progress readings, and the landing whatever they showed.
   */
  method GoToTarget(v: Vehicle, lat: int, lon: int, obs: Observations, ghost before: seq<Command>) returns (end: Outcome)
    requires |obs.home| > 0
    requires v.commands == before + Plan(lat, lon, HomeAltitude(obs))[..5]
    modifies v
    ensures end.GotoError? || end.Arrived? || end.NotArrived? || end.Waiting?
    ensures end == GotoError ==> v.commands == before + Plan(lat, lon, HomeAltitude(obs)) + [Land]
                                 && |before| + 5 in v.failing
    ensures end == Arrived || end == NotArrived ==>
              v.commands == before + Plan(lat, lon, HomeAltitude(obs)) + [Land] && |before| + 5 !in v.failing
    ensures end == Arrived ==> PollFrom(obs.progress, Near(CommandProtocol.MicroDegrees(lat), CommandProtocol.MicroDegrees(lon),
                                                           HomeAltitude(obs) + CruiseRelAlt), GotoTimeout, 0).Found?
    ensures end == NotArrived ==> PollFrom(obs.progress, Near(CommandProtocol.MicroDegrees(lat), CommandProtocol.MicroDegrees(lon),
                                                              HomeAltitude(obs) + CruiseRelAlt), GotoTimeout, 0).TimedOut?
    ensures end == Waiting ==> v.commands == before + Plan(lat, lon, HomeAltitude(obs))
  {
    ghost var plan := Plan(lat, lon, HomeAltitude(obs));
    assert plan[..5] + [plan[5]] == plan;
    var latDecimal := CommandProtocol.MicroDegrees(lat);
    var lonDecimal := CommandProtocol.MicroDegrees(lon);
    var targetAmsl := obs.home[0].absoluteAltitude + CruiseRelAlt;
    var ok := v.Issue(GotoLocation(latDecimal, lonDecimal, targetAmsl, 0.0));
    if !ok {
      TryLand(v);
      return GotoError;
    }
    var progress := PollUntil(obs.progress, Near(latDecimal, lonDecimal, targetAmsl), GotoTimeout);
    if progress.Pending? {
      return Waiting;
    }
    TryLand(v);
    end := if progress.Found? then Arrived else NotArrived;
  }

  /**
   * Everything before the takeoff check: connect, the two waits, home,
   * arming and takeoff. `None` means all of it happened and every call returned.
   */
  method Launch(v: Vehicle, lat: int, lon: int, obs: Observations) returns (stop: Option<Outcome>)
    modifies v
    ensures |v.commands| > |old(v.commands)| && v.commands[..|old(v.commands)|] == old(v.commands)
    ensures v.commands[|old(v.commands)|] == Connect(SystemAddress)
    ensures stop.None? ==> v.commands == old(v.commands) + Plan(lat, lon, HomeAltitude(obs))[..5]
                           && RaisedOnlyAtEnd(|old(v.commands)|, v.commands, v.failing, false) && |obs.home| > 0
    ensures stop.Some? ==> (stop.value.ConnectFailed? || stop.value.ConnectionTimedOut? || stop.value.HealthTimedOut? || stop.value.TakeoffError? || stop.value.Waiting?)
                           && NoGoto(v.commands, |old(v.commands)|)
    ensures stop.Some? && stop.value != TakeoffError ==> v.commands == old(v.commands) + [Connect(SystemAddress)]
    ensures stop == Some(TakeoffError) ==> |v.commands| > |old(v.commands)| + 1 && v.commands[|v.commands| - 1] == Land
    ensures stop == Some(ConnectFailed) <==> |old(v.commands)| in v.failing
    ensures stop == Some(ConnectionTimedOut) ==> WaitFrom(obs.connection, Connected, ConnectTimeout, 0).TimedOut?
    ensures stop == Some(HealthTimedOut) ==> WaitFrom(obs.health, Healthy, HealthTimeout, 0).TimedOut?
  {
    ghost var before := v.commands;
    ghost var plan := Plan(lat, lon, HomeAltitude(obs));
    stop := Prepare(v, lat, lon, obs);
    if stop.Some? {
      return;
    }
    assert plan[..1] == [Connect(SystemAddress)];
    var ok := ArmAndTakeoff(v, before, plan);
    if !ok {
      forall i | |before| <= i < |v.commands| - 1
        ensures !v.commands[i].GotoLocation?
      {
        assert v.commands[i] == v.commands[..|v.commands| - 1][i] == plan[i - |before|];
      }
      return Some(TakeoffError);
    }
  }

  /**
   * `drone_mission` (the safe version). Only command 1 flies. It never
   * sends the goto unless a safe altitude was seen in time, the goto is to
   * the received point at home plus 10 m whatever altitude was received,
   * and once it has armed, every way it ends (but still waiting on
   * telemetry) leaves land as the last call.
   */
  method DroneMission(v: Vehicle, lat: int, lon: int, altUnused: int, command: int, obs: Observations)
    returns (end: Outcome)
    modifies v
    ensures end == NotStarted <==> command != 1
    ensures end == NotStarted ==> v.commands == old(v.commands)
    ensures command == 1 ==> |v.commands| > |old(v.commands)| && v.commands[|old(v.commands)|] == Connect(SystemAddress)
    ensures end.ConnectFailed? || end.ConnectionTimedOut? || end.HealthTimedOut? ==>
              v.commands == old(v.commands) + [Connect(SystemAddress)]
    ensures end == ConnectFailed <==> command == 1 && |old(v.commands)| in v.failing
    ensures end == ConnectionTimedOut ==> WaitFrom(obs.connection, Connected, ConnectTimeout, 0).TimedOut?
    ensures end == HealthTimedOut ==> WaitFrom(obs.health, Healthy, HealthTimeout, 0).TimedOut?
    ensures end != Waiting && |v.commands| > |old(v.commands)| + 1 ==> v.commands[|v.commands| - 1] == Land
    ensures !NoGoto(v.commands, |old(v.commands)|) ==> PollFrom(obs.climb, SafeAltitude, TakeoffTimeout, 0).Found?
    ensures end == TooLow ==> v.commands == old(v.commands) + Plan(lat, lon, HomeAltitude(obs))[..5] + [Land]
                              && PollFrom(obs.climb, SafeAltitude, TakeoffTimeout, 0).TimedOut?
    ensures end == GotoError || end == Arrived || end == NotArrived ==>
              v.commands == old(v.commands) + Plan(lat, lon, HomeAltitude(obs)) + [Land]
    ensures end == Arrived ==> PollFrom(obs.progress, Near(CommandProtocol.MicroDegrees(lat), CommandProtocol.MicroDegrees(lon),
                                                           HomeAltitude(obs) + CruiseRelAlt), GotoTimeout, 0).Found?
    ensures end == NotArrived ==> PollFrom(obs.progress, Near(CommandProtocol.MicroDegrees(lat), CommandProtocol.MicroDegrees(lon),
                                                              HomeAltitude(obs) + CruiseRelAlt), GotoTimeout, 0).TimedOut?
  {
    if command != 1 {
      return NotStarted;
    }
    var stop := Launch(v, lat, lon, obs);
    if stop.Some? {
      return stop.value;
    }
    end := Fly(v, lat, lon, obs, old(v.commands));
  }

  /**
   * The handler inside `main`: the stripped four-field parse, and the safe
   * mission for command 1 only. Nothing is sent on the radio.
   */
  method CustomMessageHandler(d: XbeeService.MessageDict, v: Vehicle, obs: Observations) returns (end: Outcome)
    modifies v
    ensures MissionOrderStripped(d).None? ==> end == NotStarted && v.commands == old(v.commands)
    ensures MissionOrderStripped(d).Some? ==> end != NotStarted && |v.commands| > |old(v.commands)|
                                              && v.commands[|old(v.commands)|] == Connect(SystemAddress)
    ensures MissionOrderStripped(d).Some? ==>
              var o := MissionOrderStripped(d).value;
              (end.ConnectFailed? || end.ConnectionTimedOut? || end.HealthTimedOut? ==>
                 v.commands == old(v.commands) + [Connect(SystemAddress)])
              && (end != Waiting && |v.commands| > |old(v.commands)| + 1 ==> v.commands[|v.commands| - 1] == Land)
              && (!NoGoto(v.commands, |old(v.commands)|) ==> PollFrom(obs.climb, SafeAltitude, TakeoffTimeout, 0).Found?)
              && (end == TooLow ==> v.commands == old(v.commands) + Plan(o.lat, o.lon, HomeAltitude(obs))[..5] + [Land])
              && (end == GotoError || end == Arrived || end == NotArrived ==>
                    v.commands == old(v.commands) + Plan(o.lat, o.lon, HomeAltitude(obs)) + [Land])
  {
    hide CommandProtocol.MessageData, CommandProtocol.ParseStripped, Plan, NoGoto, PollFrom, HomeAltitude;
    var order := MissionOrderStripped(d);
    if order.None? {
      return NotStarted;
    }
    var o := order.value;
    end := DroneMission(v, o.lat, o.lon, o.alt, o.command, obs);
  }

  /** The order this handler acts on: the stripped parse of the data, with command 1. */
  function MissionOrderStripped(d: XbeeService.MessageDict): Option<CommandProtocol.Order>
  {
    match CommandProtocol.MessageData(d)
    case None => None
    case Some(data) =>
      match CommandProtocol.ParseStripped(data)
      case Parsed(o) => if o.command == 1 then Some(o) else None
      case _ => None
  }

  /** Stripping the fields first makes no difference: this handler acts on exactly the orders the others do. */
  lemma StrippedOrderAgrees(d: XbeeService.MessageDict)
    ensures MissionOrderStripped(d) == CommandProtocol.MissionOrder(d)
  {
    match CommandProtocol.MessageData(d)
    case None =>
    case Some(data) =>
      CommandProtocol.ParseStrippedAgrees(data);
  }
}
