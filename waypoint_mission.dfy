/**
 * missions/waypoint_mission.py: `WaypointMission.go_to_position`, a
 * velocity-steering loop towards a GPS point. Each pass reads the current
 * position, stops with a zero-velocity setpoint once within half a metre,
 * and otherwise sends a velocity of at most `min(target_speed, 20)` m/s
 * along the geodesic bearing, slowed to 50% inside five metres and to 20%
 * inside two, with a vertical rate of 0.3 per metre of height error
 * relative to the home altitude. After arriving it holds for `hold_time`
 * seconds when that is positive.
 *
 * Telemetry is an input: `ticks` holds what each pass of the loop reads
 * (the position and, when there is one, the attitude yaw), and `clock` the
 * readings of the hold loop. The loop stops at the first pass within half a
 * metre; a run of ticks that never gets there leaves the loop still
 * steering.
 */
module WaypointMissions {
  import opened Wrappers
  import opened Maths
  import opened Polling
  import opened Drone
  import opened DistanceCalculation
  import opened OffboardControls
  import opened Connection

  /** The arguments of `go_to_position`. */
  datatype Target = Target(lat: real, lon: real, alt: real, holdTime: real, speed: real)

  /** What one pass of the steering loop reads: the position, and the attitude yaw when one is known. */
  datatype Tick = Tick(position: Position, attitudeYaw: Option<real>)

  /** The distance within which the loop stops, in metres. */
  const StopRadius: real := 0.5

  /** The safety cap on the commanded speed, in m/s. */
  const SpeedCap: real := 20.0

  /** `min(target_speed, 20.0)`. */
  function MaxSpeed(targetSpeed: real): (r: real)
    ensures r <= targetSpeed && r <= SpeedCap
    ensures r == targetSpeed || r == SpeedCap
  {
    if SpeedCap < targetSpeed then SpeedCap else targetSpeed
  }

  /** The three speed tiers: 20% within two metres, 50% within five, full speed beyond. */
  function SpeedFactor(distance: real): (f: real)
    ensures f == 0.2 <==> distance <= 2.0
    ensures f == 0.5 <==> 2.0 < distance <= 5.0
    ensures f == 1.0 <==> 5.0 < distance
  {
    if distance <= 2.0 then 0.2
    else if distance <= 5.0 then 0.5
    else 1.0
  }

  /** The north/east/total split of the geodesic from the current position to the target. */
  function Leg(m: Elementary, g: Geodesic, t: Target, p: Position): NorthEastTotal
  {
    GetLatLonDistance(m, g, p.lat, p.lon, t.lat, t.lon)
  }

  /** The stopping test of the loop. */
  function Close(m: Elementary, g: Geodesic, t: Target): Tick -> bool
  {
    (tick: Tick) => Leg(m, g, t, tick.position).total <= StopRadius
  }

  /** The bearing to the target, in degrees, as the loop computes it. */
  function Heading(g: Geodesic, t: Target, p: Position): real
  {
    Degrees(GetTurnAngle(g, p.lat, p.lon, t.lat, t.lon))
  }

  /**
   * The vertical velocity (positive down): 0.3 per metre of error between
   * the current altitude and `home + alt`, climbing when below it.
   */
  function ClimbRate(homeAlt: real, targetAlt: real, currentAlt: real): (down: real)
    ensures down == 0.0 <==> currentAlt == homeAlt + targetAlt
    ensures down < 0.0 <==> currentAlt < homeAlt + targetAlt
    ensures Abs(down) == 0.3 * Abs(homeAlt + targetAlt - currentAlt)
  {
    -(homeAlt + targetAlt - currentAlt) * 0.3
  }

  /** The zero-velocity setpoint sent on arrival, keeping the attitude yaw or 0. */
  function StopCommand(tick: Tick): Command
  {
    SetVelocityNed(0.0, 0.0, 0.0, tick.attitudeYaw.GetOr(0.0))
  }

  /** The setpoint one pass of the loop sends. */
  function TickCommand(m: Elementary, g: Geodesic, homeAlt: real, t: Target, tick: Tick): (c: Command)
    ensures c.SetVelocityNed?
    ensures Close(m, g, t)(tick) ==> c == StopCommand(tick)
    ensures !Close(m, g, t)(tick) ==>
              c.down == ClimbRate(homeAlt, t.alt, tick.position.absoluteAltitude)
              && c.yaw == g.inverse(tick.position.lat, tick.position.lon, t.lat, t.lon).azi1
              && var leg := Leg(m, g, t, tick.position);
                 var k := MaxSpeed(t.speed) * SpeedFactor(leg.total);
                 leg.total > StopRadius && c.north == leg.north / leg.total * k && c.east == leg.east / leg.total * k
  {
    var leg := Leg(m, g, t, tick.position);
    if leg.total <= StopRadius then StopCommand(tick)
    else
      var k := MaxSpeed(t.speed) * SpeedFactor(leg.total);
      SetVelocityNed(leg.north / leg.total * k, leg.east / leg.total * k,
                     ClimbRate(homeAlt, t.alt, tick.position.absoluteAltitude),
                     Heading(g, t, tick.position))
  }

  /**
   * While steering, the horizontal speed is exactly the capped speed times
   * the tier factor: the velocity is the unit vector towards the target
   * scaled by that speed.
   */
  lemma SteeringSpeed(m: Elementary, g: Geodesic, homeAlt: real, t: Target, tick: Tick)
    requires PythagoreanIdentity(m)
    requires !Close(m, g, t)(tick)
    ensures var c := TickCommand(m, g, homeAlt, t, tick);
            var k := MaxSpeed(t.speed) * SpeedFactor(Leg(m, g, t, tick.position).total);
            c.north * c.north + c.east * c.east == k * k
  {
    var p := tick.position;
    var leg := Leg(m, g, t, p);
    var a := GetTurnAngle(g, p.lat, p.lon, t.lat, t.lon);
    var k := MaxSpeed(t.speed) * SpeedFactor(leg.total);
    var c := TickCommand(m, g, homeAlt, t, tick);
    var d, co, si := leg.total, m.cos(a), m.sin(a);
    assert d != 0.0;
    assert leg.north / d == co by {
      assert leg.north == d * co;
    }
    assert leg.east / d == si by {
      assert leg.east == d * si;
    }
    assert c.north == co * k && c.east == si * k;
    assert si * si + co * co == 1.0;
    calc {
      c.north * c.north + c.east * c.east;
      (co * co + si * si) * (k * k);
      k * k;
    }
  }

  /** A horizontal velocity parallel to the leg and with a positive component along it. */
  predicate Along(c: Command, leg: NorthEastTotal)
    requires c.SetVelocityNed?
  {
    c.north * leg.east == c.east * leg.north && c.north * leg.north + c.east * leg.east > 0.0
  }

  /**
   * While steering with a positive speed, the horizontal velocity is parallel
   * to the north/east leg and points towards the target.
   */
  lemma SteeringTowardsTarget(m: Elementary, g: Geodesic, homeAlt: real, t: Target, tick: Tick)
    requires PythagoreanIdentity(m)
    requires !Close(m, g, t)(tick)
    requires t.speed > 0.0
    ensures Along(TickCommand(m, g, homeAlt, t, tick), Leg(m, g, t, tick.position))
  {
    var p := tick.position;
    var leg := Leg(m, g, t, p);
    var k := MaxSpeed(t.speed) * SpeedFactor(leg.total);
    var c := TickCommand(m, g, homeAlt, t, tick);
    NorthEastKeepsDistance(m, g, p.lat, p.lon, t.lat, t.lon);
    ScalePositive(t.speed, leg.total);
    ScaledAlong(leg, k, c);
  }

  /** A positive target speed gives a positive commanded speed in every tier. */
  lemma ScalePositive(speed: real, distance: real)
    requires speed > 0.0
    ensures MaxSpeed(speed) * SpeedFactor(distance) > 0.0
  {
    var f := SpeedFactor(distance);
    if f == 0.2 {} else if f == 0.5 {} else {}
  }

  /**
   * A leg (n, e) of length d > 0, divided by d and scaled by k > 0, gives a
   * velocity parallel to (n, e) with a positive component along it.
   */
  lemma ScaledAlong(leg: NorthEastTotal, k: real, c: Command)
    requires c.SetVelocityNed?
    requires leg.total > 0.0 && k > 0.0
    requires leg.north * leg.north + leg.east * leg.east == leg.total * leg.total
    requires c.north == leg.north / leg.total * k && c.east == leg.east / leg.total * k
    ensures Along(c, leg)
  {
    var n, e, d := leg.north, leg.east, leg.total;
    var s := k / d;
    assert s > 0.0;
    DivScale(n, d, k);
    DivScale(e, d, k);
    assert n * s * e == e * s * n;
    assert n * s * n + e * s * e == s * (d * d);
    assert s * (d * d) > 0.0;
  }

  /** Dividing by `d` and then scaling by `k` is scaling by `k / d`. */
  lemma DivScale(x: real, d: real, k: real)
    requires d != 0.0
    ensures x / d * k == x * (k / d)
  {
  }

  /** With a non-negative target speed, the commanded horizontal speed never exceeds the 20 m/s cap. */
  lemma SpeedCapped(m: Elementary, g: Geodesic, homeAlt: real, t: Target, tick: Tick)
    requires PythagoreanIdentity(m)
    requires t.speed >= 0.0
    ensures var c := TickCommand(m, g, homeAlt, t, tick);
            c.north * c.north + c.east * c.east <= SpeedCap * SpeedCap
  {
    if !Close(m, g, t)(tick) {
      SteeringSpeed(m, g, homeAlt, t, tick);
      var k := MaxSpeed(t.speed) * SpeedFactor(Leg(m, g, t, tick.position).total);
      assert 0.0 <= k <= SpeedCap;
      SquareMonotone(k, SpeedCap);
    }
  }

  /** Squaring is monotone on non-negative reals. */
  lemma SquareMonotone(x: real, y: real)
    requires 0.0 <= x <= y
    ensures x * x <= y * y
  {
    assert x * x <= x * y <= y * y;
  }

  // ---------------------------------------------------------------------
  // The steering loop
  // ---------------------------------------------------------------------

  /** The pass at which the loop stops, if any of the ticks is close enough. */
  function Arrival(m: Elementary, g: Geodesic, t: Target, ticks: seq<Tick>): Option<nat>
  {
    FirstFrom(ticks, Close(m, g, t), 0)
  }

  /** How many setpoints the loop sends: one per pass up to and including the arriving one. */
  function SteerCount(m: Elementary, g: Geodesic, t: Target, ticks: seq<Tick>): (n: nat)
    ensures n <= |ticks|
    ensures Arrival(m, g, t, ticks).Some? ==> n == Arrival(m, g, t, ticks).value + 1
    ensures Arrival(m, g, t, ticks).None? ==> n == |ticks|
  {
    match Arrival(m, g, t, ticks)
    case Some(k) => k + 1
    case None => |ticks|
  }

  /** The setpoints of the steering loop, in order. */
  function SteerPlan(m: Elementary, g: Geodesic, homeAlt: real, t: Target, ticks: seq<Tick>): (plan: seq<Command>)
    ensures |plan| == SteerCount(m, g, t, ticks)
  {
    seq(SteerCount(m, g, t, ticks), i requires 0 <= i < SteerCount(m, g, t, ticks) => TickCommand(m, g, homeAlt, t, ticks[i]))
  }

  /**
   * The loop sends the stop setpoint once, as its last call and exactly on
   * arrival; every earlier setpoint steers, from a position more than half
   * a metre away.
   */
  lemma StopOnlyOnArrival(m: Elementary, g: Geodesic, homeAlt: real, t: Target, ticks: seq<Tick>, i: nat)
    requires i < |SteerPlan(m, g, homeAlt, t, ticks)|
    ensures Arrival(m, g, t, ticks) == Some(i) <==>
              (i == |SteerPlan(m, g, homeAlt, t, ticks)| - 1 && Arrival(m, g, t, ticks).Some?)
    ensures Arrival(m, g, t, ticks) == Some(i) ==> SteerPlan(m, g, homeAlt, t, ticks)[i] == StopCommand(ticks[i])
    ensures Arrival(m, g, t, ticks) != Some(i) ==>
              Leg(m, g, t, ticks[i].position).total > StopRadius
              && SteerPlan(m, g, homeAlt, t, ticks)[i].down == ClimbRate(homeAlt, t.alt, ticks[i].position.absoluteAltitude)
  {
    var plan := SteerPlan(m, g, homeAlt, t, ticks);
    assert plan[i] == TickCommand(m, g, homeAlt, t, ticks[i]);
    if Arrival(m, g, t, ticks) != Some(i) {
      assert !Close(m, g, t)(ticks[i]);
    }
  }

  /** How the steering loop ends: a setpoint raised, it stopped at a pass, or it is still steering. */
  datatype Steer = SteerRaised | Stopped(index: nat) | Steering

  /** The `while True` loop of `go_to_position`, sending one setpoint per pass. */
  method SteerTo(v: Vehicle, m: Elementary, g: Geodesic, homeAlt: real, t: Target, ticks: seq<Tick>)
    returns (end: Steer)
    modifies v
    ensures IssuedPrefix(old(v.commands), v.commands, SteerPlan(m, g, homeAlt, t, ticks))
    ensures RaisedOnlyAtEnd(|old(v.commands)|, v.commands, v.failing, end == SteerRaised)
    ensures end != SteerRaised ==> v.commands == old(v.commands) + SteerPlan(m, g, homeAlt, t, ticks)
    ensures end.Stopped? ==> Arrival(m, g, t, ticks) == Some(end.index)
    ensures end == Steering ==> Arrival(m, g, t, ticks).None?
  {
    ghost var before := v.commands;
    ghost var plan := SteerPlan(m, g, homeAlt, t, ticks);
    var i := 0;
    while i < |ticks|
      invariant i <= |ticks|
      invariant Arrival(m, g, t, ticks) == FirstFrom(ticks, Close(m, g, t), i)
      invariant i <= |plan|
      invariant v.commands == before + plan[..i]
      invariant RaisedOnlyAtEnd(|before|, v.commands, v.failing, false)
    {
      var c := TickCommand(m, g, homeAlt, t, ticks[i]);
      PrefixGrows(plan, i);
      var ok := v.IssueNext(before, plan, c);
      if !ok {
        return SteerRaised;
      }
      if Close(m, g, t)(ticks[i]) {
        assert plan[..i + 1] == plan;
        return Stopped(i);
      }
      i := i + 1;
    }
    assert plan[..i] == plan;
    return Steering;
  }

  // ---------------------------------------------------------------------
  // `go_to_position`
  // ---------------------------------------------------------------------

  /**
   * Whether the hold runs after arriving at pass `k`: only for a positive
   * hold time, and only when an earlier pass steered, since the hold reuses
   * that pass's heading.
   */
  predicate HoldsAfter(t: Target, k: nat)
  {
    t.holdTime > 0.0 && k > 0
  }

  /** The heading the hold keeps: the one the last steering pass computed. */
  function HoldAngle(g: Geodesic, t: Target, ticks: seq<Tick>, k: nat): real
    requires 0 < k <= |ticks|
  {
    Heading(g, t, ticks[k - 1].position)
  }

  /** The calls of `go_to_position` with a home altitude: steering, then the hold when it runs. */
  function GotoPlan(m: Elementary, g: Geodesic, homeAlt: real, t: Target, ticks: seq<Tick>, clock: seq<real>)
    : seq<Command>
  {
    var steer := SteerPlan(m, g, homeAlt, t, ticks);
    match Arrival(m, g, t, ticks)
    case Some(k) =>
      if HoldsAfter(t, k) then steer + HoldPlan(t.holdTime, HoldAngle(g, t, ticks, k), clock) else steer
    case None => steer
  }

  /**
   * A visit's calls start with the steering setpoints; anything after them
   * is the hold, which comes only after arriving at a later pass than the
   * first with a positive hold time, and keeps the last steering heading.
   */
  lemma GotoPlanShape(m: Elementary, g: Geodesic, homeAlt: real, t: Target, ticks: seq<Tick>, clock: seq<real>)
    ensures var plan := GotoPlan(m, g, homeAlt, t, ticks, clock);
            var steer := SteerPlan(m, g, homeAlt, t, ticks);
            && |steer| <= |plan| && plan[..|steer|] == steer
            && (|plan| > |steer| ==>
                  t.holdTime > 0.0 && Arrival(m, g, t, ticks).Some? && Arrival(m, g, t, ticks).value > 0
                  && forall i :: |steer| <= i < |plan| ==>
                       plan[i] == HoldCommand(HoldAngle(g, t, ticks, Arrival(m, g, t, ticks).value)))
  {
    var plan := GotoPlan(m, g, homeAlt, t, ticks, clock);
    var steer := SteerPlan(m, g, homeAlt, t, ticks);
    assert plan[..|steer|] == steer;
  }

  /**
   * How `go_to_position` ends: no home altitude, a call raised, still
   * steering, the hold reached with no heading (`UnboundLocalError`), still
   * holding, or arrived (and held, when asked to).
   */
  datatype Goto = NoHome | Raised | StillSteering | Unbound | StillHolding | Arrived

  /** After arriving at pass `k`, a visit's calls are the steering setpoints and then the hold when it runs. */
  lemma GotoPlanOnArrival(m: Elementary, g: Geodesic, homeAlt: real, t: Target, ticks: seq<Tick>, clock: seq<real>,
                          k: nat)
    requires Arrival(m, g, t, ticks) == Some(k)
    ensures k < |ticks|
    ensures GotoPlan(m, g, homeAlt, t, ticks, clock)
            == SteerPlan(m, g, homeAlt, t, ticks) + HoldAfter(g, t, ticks, k, clock)
  {
  }

  /** The hold that follows arriving at pass `k`, or nothing when it does not run. */
  function HoldAfter(g: Geodesic, t: Target, ticks: seq<Tick>, k: nat, clock: seq<real>): seq<Command>
    requires k < |ticks|
  {
    if HoldsAfter(t, k) then HoldPlan(t.holdTime, HoldAngle(g, t, ticks, k), clock) else []
  }

  /**
   * The end of `go_to_position` once the steering loop stopped at pass
   * `k`: nothing more without a hold time; with one, `UnboundLocalError`
   * when no earlier pass computed a heading, and otherwise `hold_mode` on
   * that heading.
   */
  method HoldOnArrival(v: Vehicle, g: Geodesic, t: Target, ticks: seq<Tick>, k: nat, clock: seq<real>)
    returns (end: Goto)
    requires k < |ticks|
    modifies v
    ensures end == Arrived || end == Unbound || end == StillHolding || end == Raised
    ensures end == Unbound <==> k == 0 && t.holdTime > 0.0
    ensures end == Unbound ==> v.commands == old(v.commands)
    ensures IssuedPrefix(old(v.commands), v.commands, HoldAfter(g, t, ticks, k, clock))
    ensures RaisedOnlyAtEnd(|old(v.commands)|, v.commands, v.failing, end == Raised)
    ensures end == Arrived || end == StillHolding ==> v.commands == old(v.commands) + HoldAfter(g, t, ticks, k, clock)
    ensures end == StillHolding ==> HoldsAfter(t, k) && forall i :: 0 <= i < |clock| ==> clock[i] < t.holdTime
    ensures end == Arrived && HoldsAfter(t, k) ==> exists i :: 0 <= i < |clock| && clock[i] >= t.holdTime
  {
    if !(t.holdTime > 0.0) {
      return Arrived;
    }
    if k == 0 {
      return Unbound;
    }
    var held := HoldMode(v, t.holdTime, HoldAngle(g, t, ticks, k), clock);
    match held
    case HoldRaised => return Raised;
    case Holding => return StillHolding;
    case Held => return Arrived;
  }

  // ---------------------------------------------------------------------
  // Visiting a list of targets in order
  // ---------------------------------------------------------------------

  /** What one `go_to_position` call reads: its steering ticks and its hold clock. */
  datatype Visit = Visit(ticks: seq<Tick>, clock: seq<real>)

  /** A visit whose steering ticks include one within half a metre of the target. */
  predicate Reaches(m: Elementary, g: Geodesic, t: Target, v: Visit)
  {
    Arrival(m, g, t, v.ticks).Some?
  }

  /** Each of the first `n` visits arrived at its target. */
  predicate ReachedAll(m: Elementary, g: Geodesic, targets: seq<Target>, visits: seq<Visit>, n: nat)
    requires n <= |targets|
  {
    forall i :: 0 <= i < n ==> Reaches(m, g, targets[i], VisitOf(visits, i))
  }

  /** The telemetry of the `i`-th visit; a visit with no recorded telemetry is still steering. */
  function VisitOf(visits: seq<Visit>, i: nat): Visit
  {
    if i < |visits| then visits[i] else Visit([], [])
  }

  /** The calls of the first `n` plans, one after another. */
  function Concat(plans: seq<seq<Command>>, n: nat): seq<Command>
    requires n <= |plans|
    decreases n
  {
    if n == 0 then [] else Concat(plans, n - 1) + plans[n - 1]
  }

  /** The calls of fewer plans are a prefix of the calls of more of them. */
  lemma {:induction false} ConcatPrefix(plans: seq<seq<Command>>, n: nat, k: nat)
    requires n <= k <= |plans|
    ensures |Concat(plans, n)| <= |Concat(plans, k)| && Concat(plans, n) == Concat(plans, k)[..|Concat(plans, n)|]
    decreases k
  {
    if n < k {
      ConcatPrefix(plans, n, k - 1);
      var short := Concat(plans, n);
      var mid := Concat(plans, k - 1);
      assert (mid + plans[k - 1])[..|short|] == mid[..|short|];
    }
  }

  /** The calls of each of the first `n` visits on its own, each to arrival, from home altitude `homeAlt`. */
  function VisitPlans(m: Elementary, g: Geodesic, homeAlt: real, targets: seq<Target>, visits: seq<Visit>, n: nat)
    : (plans: seq<seq<Command>>)
    requires n <= |targets|
    ensures |plans| == n
    decreases n
  {
    if n == 0 then []
    else
      VisitPlans(m, g, homeAlt, targets, visits, n - 1)
      + [GotoPlan(m, g, homeAlt, targets[n - 1], VisitOf(visits, n - 1).ticks, VisitOf(visits, n - 1).clock)]
  }

  /** The `i`-th visit plan is the calls of `go_to_position` for the `i`-th target. */
  lemma {:induction false} VisitPlanAt(m: Elementary, g: Geodesic, homeAlt: real, targets: seq<Target>,
                                       visits: seq<Visit>, n: nat, i: nat)
    requires i < n <= |targets|
    ensures VisitPlans(m, g, homeAlt, targets, visits, n)[i]
            == GotoPlan(m, g, homeAlt, targets[i], VisitOf(visits, i).ticks, VisitOf(visits, i).clock)
    decreases n
  {
    if i < n - 1 {
      VisitPlanAt(m, g, homeAlt, targets, visits, n - 1, i);
    }
  }

  /**
   * The calls of visiting the first `n` of `targets` in order, each to
   * arrival. Without a home altitude there are none: the first visit raises
   * at once.
   */
  function TourPlanUpTo(m: Elementary, g: Geodesic, home: Option<real>, targets: seq<Target>, visits: seq<Visit>,
                        n: nat): seq<Command>
    requires n <= |targets|
  {
    if home.None? then [] else Concat(VisitPlans(m, g, home.value, targets, visits, |targets|), n)
  }

  /** The calls of visiting all of `targets` in order, each to arrival. */
  function TourPlan(m: Elementary, g: Geodesic, home: Option<real>, targets: seq<Target>, visits: seq<Visit>)
    : seq<Command>
  {
    TourPlanUpTo(m, g, home, targets, visits, |targets|)
  }

  /**
   * One more plan's calls after the first `i` keep the trace a prefix of
   * all the plans' calls, and when that plan ran through, the trace is the
   * first `i + 1` plans.
   */
  lemma ConcatStep(plans: seq<seq<Command>>, i: nat, before: seq<Command>, middle: seq<Command>, after: seq<Command>)
    requires i < |plans|
    requires middle == before + Concat(plans, i)
    requires IssuedPrefix(middle, after, plans[i])
    ensures IssuedPrefix(before, after, Concat(plans, |plans|))
    ensures after == middle + plans[i] ==> after == before + Concat(plans, i + 1)
  {
    IssuedChain(before, middle, after, Concat(plans, i), plans[i]);
    ConcatPrefix(plans, i + 1, |plans|);
    IssuedWithin(before, after, Concat(plans, i + 1), Concat(plans, |plans|));
  }

  /** One more arriving visit extends the arrivals so far. */
  lemma ReachedOneMore(m: Elementary, g: Geodesic, targets: seq<Target>, visits: seq<Visit>, i: nat)
    requires i < |targets|
    requires ReachedAll(m, g, targets, visits, i)
    requires Reaches(m, g, targets[i], VisitOf(visits, i))
    ensures ReachedAll(m, g, targets, visits, i + 1)
  {
  }

  /** How visiting a list ends: every target reached, or stopped at one of them. */
  datatype Tour = Toured | Interrupted(index: nat, why: Goto)

  /** The calls of `connect` followed by `initialize_mission`. */
  function StartPlan(address: string, attitudeBound: bool): seq<Command>
  {
    ConnectPlan(address, attitudeBound) + InitPlan()
  }

  /** How connecting and initialising end: not connected, the initialisation raised, or ready to fly. */
  datatype Opening = NotConnected(link: Link) | InitRaised | Opened(start: Start)

  /** The prefixes of a run made of a start, a tour and a closing stretch. */
  lemma RunPrefixes(start: seq<Command>, tour: seq<Command>, close: seq<Command>)
    ensures start == (start + tour + close)[..|start|]
    ensures start + tour == (start + tour + close)[..|start + tour|]
  {
  }

  class WaypointMission {
    const drone: Vehicle
    /** The `"alt"` entry of `home_position`, or `None` while it is unset. */
    var homeAlt: Option<real>

    /**
     * `__init__`: `home_position` starts as `None`. No method of the class
     * or of its bases ever assigns it.
     */
    constructor(failing: set<nat>)
      ensures homeAlt.None?
      ensures fresh(drone) && drone.commands == [] && drone.failing == failing
    {
      drone := new Vehicle(failing);
      homeAlt := None;
    }

    /**
     * `go_to_position`. Without a home altitude it raises before any call;
     * otherwise it steers until the first pass within half a metre and then,
     * for a positive hold time, holds on the last steering heading.
     */
    method GoToPosition(m: Elementary, g: Geodesic, t: Target, ticks: seq<Tick>, clock: seq<real>)
      returns (end: Goto)
      modifies drone
      ensures end == NoHome <==> homeAlt.None?
      ensures end == NoHome ==> drone.commands == old(drone.commands)
      ensures homeAlt.Some? ==>
                IssuedPrefix(old(drone.commands), drone.commands, GotoPlan(m, g, homeAlt.value, t, ticks, clock))
      ensures RaisedOnlyAtEnd(|old(drone.commands)|, drone.commands, drone.failing, end == Raised)
      ensures end == Unbound <==> homeAlt.Some? && Arrival(m, g, t, ticks) == Some(0) && t.holdTime > 0.0
                                  && |old(drone.commands)| !in drone.failing
      ensures end == StillSteering ==> Arrival(m, g, t, ticks).None?
      ensures end == Arrived || end == StillHolding ==>
                homeAlt.Some? && Arrival(m, g, t, ticks).Some?
                && drone.commands == old(drone.commands) + GotoPlan(m, g, homeAlt.value, t, ticks, clock)
      ensures end == StillHolding ==>
                HoldsAfter(t, Arrival(m, g, t, ticks).value) && forall i :: 0 <= i < |clock| ==> clock[i] < t.holdTime
      ensures end == Arrived && HoldsAfter(t, Arrival(m, g, t, ticks).value) ==>
                exists i :: 0 <= i < |clock| && clock[i] >= t.holdTime
    {
      if homeAlt.None? {
        return NoHome;
      }
      hide TickCommand, Close, Leg, HoldsAfter, SteerPlan, HoldAfter, HoldPlan, HoldAngle, SteerCount;
      var home := homeAlt.value;
      ghost var before := drone.commands;
      var steer := SteerTo(drone, m, g, home, t, ticks);
      if steer == SteerRaised {
        return Raised;
      }
      if steer == Steering {
        return StillSteering;
      }
      ghost var middle := drone.commands;
      var k := steer.index;
      GotoPlanOnArrival(m, g, home, t, ticks, clock, k);
      end := HoldOnArrival(drone, g, t, ticks, k, clock);
      IssuedChain(before, middle, drone.commands, SteerPlan(m, g, home, t, ticks), HoldAfter(g, t, ticks, k, clock));
      RaisedChain(|before|, middle, drone.commands, drone.failing, end == Raised);
    }

    /**
     * `connect` and then `initialize_mission`, as both multi-point runs
     * begin. `initialize_mission` of `WaypointMission` only calls the
     * inherited one; an `OffboardError` at offboard start is caught there
     * and the run goes on. Without `update_attitude` (`attitudeBound`
     * false, as written) `connect` never returns, so it never opens.
     */
    method StartUp(call: Call, address: string, link: seq<bool>, health: seq<Health>, attitudeBound: bool,
                   startAlt: real, currentAlt: real)
      returns (r: Opening)
      modifies drone
      ensures r == NotConnected(CallRejected) <==> !ConnectBinds(call)
      ensures r == NotConnected(CallRejected) ==> drone.commands == old(drone.commands)
      ensures r.NotConnected? ==> r.link != Linked
      ensures !attitudeBound ==> r.NotConnected?
      ensures r == NotConnected(AttitudeMissing) <==>
                ConnectBinds(call) && |old(drone.commands)| !in drone.failing && !attitudeBound
                && FirstFrom(link, Connected, 0).Some? && FirstFrom(health, Healthy, 0).Some?
      ensures r == NotConnected(AttitudeMissing) ==> drone.commands == old(drone.commands) + ConnectPlan(address, false)
      ensures r.NotConnected? ==> IssuedPrefix(old(drone.commands), drone.commands, ConnectPlan(address, attitudeBound))
      ensures IssuedPrefix(old(drone.commands), drone.commands, StartPlan(address, attitudeBound))
      ensures r.Opened? ==> drone.commands == old(drone.commands) + StartPlan(address, attitudeBound)
                            && r.start != StartRaised && attitudeBound
                            && FirstFrom(link, Connected, 0).Some? && FirstFrom(health, Healthy, 0).Some?
    {
      ghost var before := drone.commands;
      var linked := ConnectVehicle(drone, call, address, link, health, attitudeBound);
      IssuedWithin(before, drone.commands, ConnectPlan(address, attitudeBound), StartPlan(address, attitudeBound));
      if linked != Linked {
        return NotConnected(linked);
      }
      ghost var afterConnect := drone.commands;
      var started := InitializeMission(drone, startAlt, currentAlt);
      IssuedChain(before, afterConnect, drone.commands, ConnectPlan(address, attitudeBound), InitPlan());
      if started == StartRaised {
        return InitRaised;
      }
      return Opened(started);
    }

    /** One pass of `VisitAll`: the visit to the `i`-th target, after the earlier ones all arrived. */
    method VisitNext(m: Elementary, g: Geodesic, targets: seq<Target>, visits: seq<Visit>, i: nat,
                     ghost before: seq<Command>)
      returns (r: Goto)
      requires i < |targets|
      requires drone.commands == before + TourPlanUpTo(m, g, homeAlt, targets, visits, i)
      requires RaisedOnlyAtEnd(|before|, drone.commands, drone.failing, false)
      modifies drone
      ensures IssuedPrefix(before, drone.commands, TourPlan(m, g, homeAlt, targets, visits))
      ensures RaisedOnlyAtEnd(|before|, drone.commands, drone.failing, r == Raised)
      ensures r == NoHome <==> homeAlt.None?
      ensures r == Arrived ==> Reaches(m, g, targets[i], VisitOf(visits, i))
                               && drone.commands == before + TourPlanUpTo(m, g, homeAlt, targets, visits, i + 1)
    {
      ghost var middle := drone.commands;
      var visit := VisitOf(visits, i);
      r := GoToPosition(m, g, targets[i], visit.ticks, visit.clock);
      if homeAlt.Some? {
        ghost var plans := VisitPlans(m, g, homeAlt.value, targets, visits, |targets|);
        VisitPlanAt(m, g, homeAlt.value, targets, visits, |targets|, i);
        ConcatStep(plans, i, before, middle, drone.commands);
      }
      RaisedChain(|before|, middle, drone.commands, drone.failing, r == Raised);
    }

    /**
     * The loop the multi-waypoint and square-wave missions share: one
     * `go_to_position` per target, in list order, going on to the next one
     * only after arriving.
     */
    method VisitAll(m: Elementary, g: Geodesic, targets: seq<Target>, visits: seq<Visit>) returns (end: Tour)
      modifies drone
      ensures IssuedPrefix(old(drone.commands), drone.commands, TourPlan(m, g, homeAlt, targets, visits))
      ensures RaisedOnlyAtEnd(|old(drone.commands)|, drone.commands, drone.failing, end.Interrupted? && end.why == Raised)
      ensures end == Toured ==>
                drone.commands == old(drone.commands) + TourPlan(m, g, homeAlt, targets, visits)
                && ReachedAll(m, g, targets, visits, |targets|)
      ensures end.Interrupted? ==>
                end.index < |targets| && end.why != Arrived
                && (end.why == NoHome <==> homeAlt.None?)
                && ReachedAll(m, g, targets, visits, end.index)
      ensures homeAlt.None? && targets != [] ==> end == Interrupted(0, NoHome)
    {
      hide GotoPlan;
      ghost var before := drone.commands;
      var i := 0;
      while i < |targets|
        invariant i <= |targets|
        invariant drone.commands == before + TourPlanUpTo(m, g, homeAlt, targets, visits, i)
        invariant RaisedOnlyAtEnd(|before|, drone.commands, drone.failing, false)
        invariant ReachedAll(m, g, targets, visits, i)
        invariant homeAlt.None? ==> i == 0
      {
        var r := VisitNext(m, g, targets, visits, i, before);
        if r != Arrived {
          return Interrupted(i, r);
        }
        ReachedOneMore(m, g, targets, visits, i);
        i := i + 1;
      }
      return Toured;
    }
  }
}
