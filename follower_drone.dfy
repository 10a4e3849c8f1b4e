/**
 * rpi_execute/follower_drone.py: the follower that listens on the radio for
 * `"lat,lon,alt,command"`, acknowledges a command 1 with `"lat,lon,alt,2"`
 * and then flies to the received point.
 *
 * The flight is modelled as written. Its takeoff check reads at most twenty
 * altitude samples; its arrival loop runs thirty rounds, but each round
 * reads positions until one lies within 1e-5 degrees of the target, so the
 * vehicle lands only after thirty such samples, however long that takes.
 */
module FollowerDrone {
  import opened Wrappers
  import opened Maths
  import opened Polling
  import opened Drone
  import XbeeService
  import CommandProtocol

  const SystemAddress: string := "serial:///dev/ttyACM0:57600"
  /** `set_takeoff_altitude(5.0)`. */
  const TakeoffAltitude: real := 5.0
  /** `for _ in range(20)` around the altitude check. */
  const TakeoffChecks: nat := 20
  /** Height above home that counts as a completed takeoff. */
  const MinimumClimb: real := 3.0
  /** The goto altitude is home AMSL plus this. */
  const CruiseAboveHome: real := 5.0
  const CruiseSpeed: real := 1.5
  /** `for _ in range(30)` around the arrival check. */
  const ArrivalRounds: nat := 30
  /** Degrees of latitude and of longitude that count as arrived. */
  const Proximity: real := 0.00001

  /**
   * What the mission reads, stream by stream, in the order it reads each:
   * connection states, health reports, home positions, then the positions
   * of the takeoff check and those of the arrival check.
   */
  datatype Observations = Observations(
    connection: seq<bool>,
    health: seq<Health>,
    home: seq<Position>,
    climb: seq<Position>,
    approach: seq<Position>)

  /** How `drone_mission` ends. `Raised` covers every exception the mission catches. */
  datatype Outcome = NotStarted | Raised | TakeoffFailed | Landed | Waiting

  /** The result of the takeoff check: the sample that showed the climb, twenty that did not, or too few samples yet. */
  datatype Climb = Reached(check: nat) | NotReached | Undecided

  /** The first home sample's altitude, which every later step uses. */
  function HomeAltitude(obs: Observations): real
  {
    if |obs.home| > 0 then obs.home[0].absoluteAltitude else 0.0
  }

  /** The calls a complete flight makes, in order. */
  function Flight(lat: int, lon: int, homeAlt: real): seq<Command>
  {
    [Connect(SystemAddress), Arm, SetTakeoffAltitude(TakeoffAltitude), Takeoff,
     GotoLocation(CommandProtocol.MicroDegrees(lat), CommandProtocol.MicroDegrees(lon), homeAlt + CruiseAboveHome, 0.0),
     SetCurrentSpeed(CruiseSpeed), Land]
  }

  // ---------------------------------------------------------------------
  // Takeoff check
  // ---------------------------------------------------------------------

  predicate Climbed(p: Position, homeAlt: real)
  {
    p.absoluteAltitude - homeAlt >= MinimumClimb
  }

  /** The takeoff check from its `i`-th pass on. */
  function ClimbFrom(climb: seq<Position>, homeAlt: real, i: nat): (r: Climb)
    requires i <= TakeoffChecks && i <= |climb|
    ensures r.Reached? ==> i <= r.check < TakeoffChecks && r.check < |climb| && Climbed(climb[r.check], homeAlt)
                           && forall j :: i <= j < r.check ==> !Climbed(climb[j], homeAlt)
    ensures r == NotReached ==> |climb| >= TakeoffChecks
                                && forall j :: i <= j < TakeoffChecks ==> !Climbed(climb[j], homeAlt)
    ensures r == Undecided ==> |climb| < TakeoffChecks
                               && forall j :: i <= j < |climb| ==> !Climbed(climb[j], homeAlt)
    decreases TakeoffChecks - i
  {
    if i == TakeoffChecks then NotReached
    else if i >= |climb| then Undecided
    else if Climbed(climb[i], homeAlt) then Reached(i)
    else ClimbFrom(climb, homeAlt, i + 1)
  }

  /** The `for _ in range(20)` loop, one position sample per pass. */
  method CheckTakeoff(climb: seq<Position>, homeAlt: real) returns (r: Climb)
    ensures r == ClimbFrom(climb, homeAlt, 0)
  {
    for i := 0 to TakeoffChecks
      invariant i <= |climb|
      invariant ClimbFrom(climb, homeAlt, 0) == ClimbFrom(climb, homeAlt, i)
    {
      if i >= |climb| {
        return Undecided;
      }
      if Climbed(climb[i], homeAlt) {
        return Reached(i);
      }
    }
    return NotReached;
  }

  // ---------------------------------------------------------------------
  // Arrival check
  // ---------------------------------------------------------------------

  predicate Arriving(p: Position, lat: real, lon: real)
  {
    Abs(p.lat - lat) < Proximity && Abs(p.lon - lon) < Proximity
  }

  /** How many samples of `s` lie within the arrival tolerance. */
  function ArrivalCount(s: seq<Position>, lat: real, lon: real): nat
  {
    if |s| == 0 then 0
    else (if Arriving(s[0], lat, lon) then 1 else 0) + ArrivalCount(s[1..], lat, lon)
  }

  /**
   * The arrival loop from sample `i`, with `rounds` rounds still to run:
   * the number of samples read when it ends, or `None` while it is still reading.
   */
  function ApproachFrom(s: seq<Position>, lat: real, lon: real, i: nat, rounds: nat): (r: Option<nat>)
    requires i <= |s|
    ensures r.Some? ==> i <= r.value <= |s|
    decreases |s| - i
  {
    if rounds == 0 then Some(i)
    else if i == |s| then None
    else if Arriving(s[i], lat, lon) then ApproachFrom(s, lat, lon, i + 1, rounds - 1)
    else ApproachFrom(s, lat, lon, i + 1, rounds)
  }

  /** The `for _ in range(30)` loop with its inner `async for`, which only an arriving sample ends. */
  method AwaitArrival(s: seq<Position>, lat: real, lon: real) returns (r: Option<nat>)
    ensures r == ApproachFrom(s, lat, lon, 0, ArrivalRounds)
  {
    var i := 0;
    for round := 0 to ArrivalRounds
      invariant i <= |s|
      invariant ApproachFrom(s, lat, lon, 0, ArrivalRounds) == ApproachFrom(s, lat, lon, i, ArrivalRounds - round)
    {
      while i < |s| && !Arriving(s[i], lat, lon)
        invariant i <= |s|
        invariant ApproachFrom(s, lat, lon, 0, ArrivalRounds) == ApproachFrom(s, lat, lon, i, ArrivalRounds - round)
      {
        i := i + 1;
      }
      if i == |s| {
        return None;
      }
      i := i + 1;
    }
    return Some(i);
  }

  /** Counting over a sequence split in two. */
  lemma {:induction false} ArrivalCountSplit(s: seq<Position>, lat: real, lon: real, n: nat)
    requires n <= |s|
    ensures ArrivalCount(s, lat, lon) == ArrivalCount(s[..n], lat, lon) + ArrivalCount(s[n..], lat, lon)
  {
    if n > 0 {
      assert s[..n][1..] == s[1..][..n - 1];
      assert s[n..] == s[1..][n - 1..];
      ArrivalCountSplit(s[1..], lat, lon, n - 1);
    }
  }

  /**
   * The arrival loop ends exactly when `rounds` arriving samples have been
   * read, and it ends on the last of them.
   */
  lemma {:induction false} ApproachCounts(s: seq<Position>, lat: real, lon: real, i: nat, rounds: nat)
    requires i <= |s|
    ensures var r := ApproachFrom(s, lat, lon, i, rounds);
            (r.Some? ==> ArrivalCount(s[i..r.value], lat, lon) == rounds
                         && (rounds > 0 ==> Arriving(s[r.value - 1], lat, lon)))
            && (r.None? ==> ArrivalCount(s[i..], lat, lon) < rounds)
    decreases |s| - i
  {
    if rounds == 0 {
      assert s[i..i] == [];
    } else if i < |s| {
      var next := if Arriving(s[i], lat, lon) then rounds - 1 else rounds;
      ApproachCounts(s, lat, lon, i + 1, next);
      var r := ApproachFrom(s, lat, lon, i + 1, next);
      assert ApproachFrom(s, lat, lon, i, rounds) == r;
      assert s[i..][1..] == s[i + 1..];
      if r.Some? {
        assert s[i..r.value][1..] == s[i + 1..r.value];
        if next == 0 {
          assert r.value == i + 1;
        }
      }
    }
  }

  /** The mission lands only once it has read thirty arriving samples, and then it does. */
  lemma ApproachNeedsThirtyArrivals(s: seq<Position>, lat: real, lon: real)
    ensures ApproachFrom(s, lat, lon, 0, ArrivalRounds).Some? <==> ArrivalCount(s, lat, lon) >= ArrivalRounds
  {
    ApproachCounts(s, lat, lon, 0, ArrivalRounds);
    assert s[0..] == s;
    var r := ApproachFrom(s, lat, lon, 0, ArrivalRounds);
    if r.Some? {
      assert s[0..r.value] == s[..r.value];
      ArrivalCountSplit(s, lat, lon, r.value);
    }
  }

  // ---------------------------------------------------------------------
  // The mission and the handler
  // ---------------------------------------------------------------------

  /**
   * The flight up to the takeoff check: connect, wait for the link and for
   * a healthy estimate, read home twice, then arm, set the takeoff altitude
   * and take off. `None` means all of it happened and every call returned.
   */
  method Launch(v: Vehicle, lat: int, lon: int, obs: Observations) returns (stop: Option<Outcome>)
    modifies v
    ensures IssuedPrefix(old(v.commands), v.commands, Flight(lat, lon, HomeAltitude(obs)))
    ensures RaisedOnlyAtEnd(|old(v.commands)|, v.commands, v.failing, stop == Some(Raised))
    ensures stop.None? ==> |v.commands| == |old(v.commands)| + 4 && |obs.home| >= 2
    ensures stop.Some? ==> stop.value == Raised || stop.value == Waiting
    ensures stop == Some(Waiting) ==> FirstFrom(obs.connection, Connected, 0).None?
                                      || FirstFrom(obs.health, Healthy, 0).None? || |obs.home| < 2
  {
    ghost var plan := Flight(lat, lon, HomeAltitude(obs));
    ghost var before := v.commands;
    stop := Prepare(v, obs, before, plan);
    if stop.Some? {
      return;
    }
    var ok := v.IssueNext(before, plan, Arm);
    if !ok {
      return Some(Raised);
    }
    ok := v.IssueNext(before, plan, SetTakeoffAltitude(TakeoffAltitude));
    if !ok {
      return Some(Raised);
    }
    ok := v.IssueNext(before, plan, Takeoff);
    if !ok {
      return Some(Raised);
    }
  }

  /** The connect call, the waits for the link and for a healthy estimate, and the two home reads. */
  method Prepare(v: Vehicle, obs: Observations, ghost before: seq<Command>, ghost plan: seq<Command>)
    returns (stop: Option<Outcome>)
    requires v.commands == before && |plan| > 0 && plan[0] == Connect(SystemAddress)
    modifies v
    ensures IssuedPrefix(before, v.commands, plan)
    ensures RaisedOnlyAtEnd(|before|, v.commands, v.failing, stop == Some(Raised))
    ensures stop.None? ==> |v.commands| == |before| + 1 && |obs.home| >= 2
    ensures stop.Some? ==> stop.value == Raised || stop.value == Waiting
    ensures stop == Some(Waiting) ==> FirstFrom(obs.connection, Connected, 0).None?
                                      || FirstFrom(obs.health, Healthy, 0).None? || |obs.home| < 2
  {
    var ok := v.IssueNext(before, plan, Connect(SystemAddress));
    if !ok {
      return Some(Raised);
    }
    var connected := AwaitFirst(obs.connection, Connected);
    if connected.None? {
      return Some(Waiting);
    }
    var healthy := AwaitFirst(obs.health, Healthy);
    if healthy.None? {
      return Some(Waiting);
    }
    if |obs.home| < 2 {
      return Some(Waiting);
    }
    return None;
  }

  /**
   * The flight from the takeoff check on: without the climb it returns at
   * once, without landing; with it, it goes to the target at home altitude
   * plus five metres, sets the speed, waits for thirty arriving samples and lands.
   */
  method Approach(v: Vehicle, lat: int, lon: int, obs: Observations, ghost before: seq<Command>)
    returns (end: Outcome)
    requires |obs.home| > 0
    requires IssuedPrefix(before, v.commands, Flight(lat, lon, HomeAltitude(obs)))
    requires |v.commands| == |before| + 4 && RaisedOnlyAtEnd(|before|, v.commands, v.failing, false)
    modifies v
    ensures IssuedPrefix(before, v.commands, Flight(lat, lon, HomeAltitude(obs)))
    ensures RaisedOnlyAtEnd(|before|, v.commands, v.failing, end == Raised)
    ensures end == Raised || end == TakeoffFailed || end == Landed || end == Waiting
    ensures end == TakeoffFailed ==> |v.commands| == |before| + 4
                                     && ClimbFrom(obs.climb, HomeAltitude(obs), 0) == NotReached
    ensures end == Landed ==> |v.commands| == |before| + 7
                              && ClimbFrom(obs.climb, HomeAltitude(obs), 0).Reached?
                              && ArrivalCount(obs.approach, CommandProtocol.MicroDegrees(lat),
                                              CommandProtocol.MicroDegrees(lon)) >= ArrivalRounds
    ensures end == Waiting ==> ClimbFrom(obs.climb, HomeAltitude(obs), 0) == Undecided
                               || ApproachFrom(obs.approach, CommandProtocol.MicroDegrees(lat),
                                               CommandProtocol.MicroDegrees(lon), 0, ArrivalRounds).None?
  {
    ghost var plan := Flight(lat, lon, HomeAltitude(obs));
    var homeAlt := obs.home[0].absoluteAltitude;
    var climb := CheckTakeoff(obs.climb, homeAlt);
    if climb == Undecided {
      return Waiting;
    }
    if climb == NotReached {
      return TakeoffFailed;
    }
    var latDecimal := CommandProtocol.MicroDegrees(lat);
    var lonDecimal := CommandProtocol.MicroDegrees(lon);
    var ok := v.IssueNext(before, plan, GotoLocation(latDecimal, lonDecimal, homeAlt + CruiseAboveHome, 0.0));
    if !ok {
      return Raised;
    }
    ok := v.IssueNext(before, plan, SetCurrentSpeed(CruiseSpeed));
    if !ok {
      return Raised;
    }
    var arrival := AwaitArrival(obs.approach, latDecimal, lonDecimal);
    if arrival.None? {
      return Waiting;
    }
    ApproachNeedsThirtyArrivals(obs.approach, latDecimal, lonDecimal);
    ok := v.IssueNext(before, plan, Land);
    if !ok {
      return Raised;
    }
    return Landed;
  }

  /**
   * `drone_mission`. Only command 1 flies. Every call it makes follows the
   * plan `Flight` in order, and the first call that raises ends the mission.
   * A failed takeoff check returns without landing; a finished approach lands.
   */
  method DroneMission(v: Vehicle, lat: int, lon: int, alt: int, command: int, obs: Observations)
    returns (end: Outcome)
    modifies v
    ensures end == NotStarted <==> command != 1
    ensures end == NotStarted ==> v.commands == old(v.commands)
    ensures IssuedPrefix(old(v.commands), v.commands, Flight(lat, lon, HomeAltitude(obs)))
    ensures RaisedOnlyAtEnd(|old(v.commands)|, v.commands, v.failing, end == Raised)
    ensures end == TakeoffFailed ==> |v.commands| == |old(v.commands)| + 4
                                     && ClimbFrom(obs.climb, HomeAltitude(obs), 0) == NotReached
    ensures end == Landed ==> |v.commands| == |old(v.commands)| + 7
                              && ClimbFrom(obs.climb, HomeAltitude(obs), 0).Reached?
                              && ArrivalCount(obs.approach, CommandProtocol.MicroDegrees(lat),
                                              CommandProtocol.MicroDegrees(lon)) >= ArrivalRounds
    ensures end == Waiting ==> FirstFrom(obs.connection, Connected, 0).None?
                               || FirstFrom(obs.health, Healthy, 0).None? || |obs.home| < 2
                               || ClimbFrom(obs.climb, HomeAltitude(obs), 0) == Undecided
                               || ApproachFrom(obs.approach, CommandProtocol.MicroDegrees(lat),
                                               CommandProtocol.MicroDegrees(lon), 0, ArrivalRounds).None?
  {
    if command != 1 {
      return NotStarted;
    }
    var stop := Launch(v, lat, lon, obs);
    if stop.Some? {
      return stop.value;
    }
    end := Approach(v, lat, lon, obs, old(v.commands));
  }

  /** Every field of the service except the record of sent frames is as it was. */
  twostate predicate Unchanged(xbee: XbeeService.Service)
    reads xbee
  {
    unchanged(xbee`deviceOpen, xbee`listening, xbee`recentMessages, xbee`stopEvent,
              xbee`queueThread, xbee`customHandler, xbee`delivered)
  }

  /**
   * `send_feedback_message`: the acknowledgement goes out raw (not in the
   * JSON envelope) when there is a service; every failure is swallowed.
   */
  method SendFeedbackMessage(xbee: XbeeService.Service?, lat: int, lon: int, alt: int,
                             nowMs: int, link: XbeeService.LinkOutcome)
    modifies if xbee == null then {} else {xbee}
    ensures xbee != null ==> Unchanged(xbee) && xbee.deviceOpen == old(xbee.deviceOpen)
    ensures xbee != null ==>
              xbee.transmitted == old(xbee.transmitted)
                + if xbee.deviceOpen && link == XbeeService.Accepted
                  then [XbeeService.Transmission(XbeeService.Broadcast, CommandProtocol.Feedback(lat, lon, alt))]
                  else []
  {
    if xbee != null {
      var _ := xbee.SendBroadcastMessage(CommandProtocol.Feedback(lat, lon, alt), false, nowMs, link);
    }
  }

  /**
   * `custom_message_handler`. A payload of four integers with command 1 is
   * acknowledged once and then flown; anything else (another command, the
   * wrong number of fields, a field that is not an integer, data that is not
   * text) sends nothing and moves nothing.
   */
  method CustomMessageHandler(xbee: XbeeService.Service?, d: XbeeService.MessageDict, v: Vehicle,
                              obs: Observations, nowMs: int, link: XbeeService.LinkOutcome)
    returns (end: Outcome)
    modifies v, if xbee == null then {} else {xbee}
    ensures CommandProtocol.MissionOrder(d).None? ==>
              end == NotStarted && v.commands == old(v.commands)
              && (xbee != null ==> Unchanged(xbee) && xbee.transmitted == old(xbee.transmitted))
    ensures CommandProtocol.MissionOrder(d).Some? ==>
              var o := CommandProtocol.MissionOrder(d).value;
              end != NotStarted
              && IssuedPrefix(old(v.commands), v.commands, Flight(o.lat, o.lon, HomeAltitude(obs)))
              && (xbee != null ==>
                    Unchanged(xbee) && xbee.transmitted == old(xbee.transmitted)
                      + if xbee.deviceOpen && link == XbeeService.Accepted
                        then [XbeeService.Transmission(XbeeService.Broadcast, CommandProtocol.Feedback(o.lat, o.lon, o.alt))]
                        else [])
  {
    var order := CommandProtocol.MissionOrder(d);
    if order.None? {
      return NotStarted;
    }
    var o := order.value;
    SendFeedbackMessage(xbee, o.lat, o.lon, o.alt, nowMs, link);
    end := DroneMission(v, o.lat, o.lon, o.alt, o.command, obs);
  }
}
