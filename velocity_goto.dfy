/**
 * main.py: `OffboardControl.goto_with_velocity`, a velocity-steering loop
 * towards a GPS point on a flat-earth approximation.
 *
 * After offboard start, each pass reads `current_position`. With no
 * position it sleeps and tries again. Otherwise it takes the error to the
 * target at 111000 m per degree (east scaled by the cosine of the latitude,
 * down as current altitude minus target altitude), stops once the 3-D
 * error is under a metre, and else commands `velocity_m_s` along the unit
 * error vector with yaw 0, then sleeps. Offboard is stopped after the loop.
 *
 * Telemetry is an input: `samples[k]` is what pass `k` reads. The file
 * never imports `asyncio`, so each `asyncio.sleep` raises `NameError`;
 * `asyncioBound` says whether that name is bound, `false` as written.
 */
module VelocityGoto {
  import opened Wrappers
  import opened Maths
  import opened Polling
  import opened Drone

  /** The metres per degree of latitude the loop assumes. */
  const MetresPerDegree: real := 111000.0

  /** The north/east/down error from the current position to the target, in metres. */
  datatype Offset = Offset(north: real, east: real, down: real)

  /** The error at position `p`. */
  function OffsetTo(m: Elementary, targetLat: real, targetLon: real, targetAlt: real, p: Position): Offset
  {
    Offset((targetLat - p.lat) * MetresPerDegree,
           (targetLon - p.lon) * MetresPerDegree * m.cos(Radians(p.lat)),
           p.absoluteAltitude - targetAlt)
  }

  /** On the equator the east error is the longitude difference at 111000 m per degree, unscaled. */
  lemma OffsetOnEquator(m: Elementary, targetLat: real, targetLon: real, targetAlt: real, p: Position)
    requires ZeroAngle(m) && p.lat == 0.0
    ensures OffsetTo(m, targetLat, targetLon, targetAlt, p).east == (targetLon - p.lon) * MetresPerDegree
  {
    assert Radians(0.0) == 0.0;
  }

  /** `math.sqrt(north**2 + east**2 + down**2)`. */
  function Distance(m: Elementary, o: Offset): real
  {
    m.sqrt(o.north * o.north + o.east * o.east + o.down * o.down)
  }

  /** The stopping test, on what one pass reads: a position under a metre from the target. */
  function Arrives(m: Elementary, targetLat: real, targetLon: real, targetAlt: real): Option<Position> -> bool
  {
    (o: Option<Position>) => o.Some? && Distance(m, OffsetTo(m, targetLat, targetLon, targetAlt, o.value)) < 1.0
  }

  /** A reading at the target itself passes the stopping test. */
  lemma ArrivesAtTarget(m: Elementary, targetLat: real, targetLon: real, targetAlt: real, relativeAlt: real)
    requires SqrtIsRoot(m)
    ensures Arrives(m, targetLat, targetLon, targetAlt)(Some(Position(targetLat, targetLon, targetAlt, relativeAlt)))
  {
    var p := Position(targetLat, targetLon, targetAlt, relativeAlt);
    var o := OffsetTo(m, targetLat, targetLon, targetAlt, p);
    assert o.north == 0.0 && o.east == 0.0 && o.down == 0.0;
    SqrtOfZeroBelowOne(m);
  }

  /** The square root of 0 is under a metre. */
  lemma SqrtOfZeroBelowOne(m: Elementary)
    requires SqrtIsRoot(m)
    ensures m.sqrt(0.0) < 1.0
  {
    var r := m.sqrt(0.0);
    assert r * r == 0.0;
  }

  /**
   * The velocity command for an error at least a metre long:
   * `velocity_m_s * error / norm` per axis, yaw 0.
   */
  function VelocityCommand(m: Elementary, speed: real, o: Offset): Command
    requires Distance(m, o) >= 1.0
  {
    var norm := Distance(m, o);
    SetVelocityNed(speed * o.north / norm, speed * o.east / norm, speed * o.down / norm, 0.0)
  }

  /**
   * The commanded velocity has magnitude `velocity_m_s` and, for a positive
   * speed, points the way of the error on every axis; its yaw is 0.
   */
  lemma VelocityMagnitude(m: Elementary, speed: real, o: Offset)
    requires SqrtIsRoot(m)
    requires Distance(m, o) >= 1.0
    ensures var c := VelocityCommand(m, speed, o);
            && c.north * c.north + c.east * c.east + c.down * c.down == speed * speed
            && c.yaw == 0.0
            && (speed > 0.0 ==> c.north * o.north >= 0.0 && c.east * o.east >= 0.0 && c.down * o.down >= 0.0)
  {
    var n := Distance(m, o);
    var sum := o.north * o.north + o.east * o.east + o.down * o.down;
    assert sum >= 0.0;
    assert n * n == sum;
    var c := VelocityCommand(m, speed, o);
    UnitScale(speed, o.north, o.east, o.down, n);
  }

  /** Scaling `(x, y, z)` by `s / n` where `n^2 = x^2 + y^2 + z^2` gives length `|s|`, with the signs of `s * (x, y, z)`. */
  lemma UnitScale(s: real, x: real, y: real, z: real, n: real)
    requires n > 0.0 && n * n == x * x + y * y + z * z
    ensures (s * x / n) * (s * x / n) + (s * y / n) * (s * y / n) + (s * z / n) * (s * z / n) == s * s
    ensures s > 0.0 ==> (s * x / n) * x >= 0.0 && (s * y / n) * y >= 0.0 && (s * z / n) * z >= 0.0
  {
    var k := s / n;
    assert s * x / n == k * x && s * y / n == k * y && s * z / n == k * z;
    calc {
      (k * x) * (k * x) + (k * y) * (k * y) + (k * z) * (k * z);
      k * k * (x * x + y * y + z * z);
      k * k * (n * n);
      (k * n) * (k * n);
      { assert k * n == s; }
      s * s;
    }
    if s > 0.0 {
      assert k > 0.0;
      assert (k * x) * x == k * (x * x);
      assert (k * y) * y == k * (y * y);
      assert (k * z) * z == k * (z * z);
    }
  }

  /** What one pass sends: nothing without a position or at the target, otherwise one velocity command. */
  function PassCommands(m: Elementary, targetLat: real, targetLon: real, targetAlt: real, speed: real,
                        o: Option<Position>): seq<Command>
  {
    if Arrives(m, targetLat, targetLon, targetAlt)(o) || o.None? then []
    else [VelocityCommand(m, speed, OffsetTo(m, targetLat, targetLon, targetAlt, o.value))]
  }

  /** What the first `n` passes send. */
  function Sends(m: Elementary, targetLat: real, targetLon: real, targetAlt: real, speed: real,
                 samples: seq<Option<Position>>, n: nat): seq<Command>
    requires n <= |samples|
  {
    if n == 0 then []
    else Sends(m, targetLat, targetLon, targetAlt, speed, samples, n - 1)
         + PassCommands(m, targetLat, targetLon, targetAlt, speed, samples[n - 1])
  }

  /** Whether `c` is a velocity command of magnitude `speed` with yaw 0. */
  predicate AtSpeed(c: Command, speed: real)
  {
    c.SetVelocityNed? && c.yaw == 0.0 && c.north * c.north + c.east * c.east + c.down * c.down == speed * speed
  }

  /** Everything the passes send is a velocity command of magnitude `velocity_m_s` with yaw 0. */
  lemma {:induction false} SendsAtSpeed(m: Elementary, targetLat: real, targetLon: real, targetAlt: real, speed: real,
                                        samples: seq<Option<Position>>, n: nat)
    requires SqrtIsRoot(m)
    requires n <= |samples|
    ensures |Sends(m, targetLat, targetLon, targetAlt, speed, samples, n)| <= n
    ensures forall c :: c in Sends(m, targetLat, targetLon, targetAlt, speed, samples, n) ==> AtSpeed(c, speed)
    decreases n
  {
    if n > 0 {
      SendsAtSpeed(m, targetLat, targetLon, targetAlt, speed, samples, n - 1);
      var o := samples[n - 1];
      if !Arrives(m, targetLat, targetLon, targetAlt)(o) && o.Some? {
        VelocityMagnitude(m, speed, OffsetTo(m, targetLat, targetLon, targetAlt, o.value));
      }
    }
  }

  /**
   * How `goto_with_velocity` ends: offboard start raised; at pass `pass` a
   * velocity command raised or `asyncio.sleep` raised `NameError`; the
   * target was reached at pass `pass` and offboard stop was called (and
   * whether it raised); or the readings ran out while still flying.
   */
  datatype Flight = StartRaised | VelocityRaised(pass: nat) | SleepUnbound(pass: nat)
                  | Stopped(pass: nat, stopRaised: bool) | StillFlying

  /** One pass that does not stop: the velocity command, if there is a position, then the sleep. */
  method FlyPass(v: Vehicle, m: Elementary, targetLat: real, targetLon: real, targetAlt: real, speed: real,
                 pos: Option<Position>)
    returns (ok: bool)
    requires !Arrives(m, targetLat, targetLon, targetAlt)(pos)
    modifies v
    ensures v.commands == old(v.commands) + PassCommands(m, targetLat, targetLon, targetAlt, speed, pos)
    ensures |v.commands| == |old(v.commands)| + (if pos.None? then 0 else 1)
    ensures ok <==> pos.None? || |old(v.commands)| !in v.failing
  {
    if pos.None? {
      return true;
    }
    var o := OffsetTo(m, targetLat, targetLon, targetAlt, pos.value);
    ok := v.Issue(VelocityCommand(m, speed, o));
  }

  /**
   * `goto_with_velocity`: offboard start, then one pass per reading until
   * the first reading under a metre from the target, then offboard stop.
   * With `asyncio` unbound, as written, the first sleep raises, so it never
   * gets past its first pass.
   */
  method GotoWithVelocity(v: Vehicle, m: Elementary, targetLat: real, targetLon: real, targetAlt: real, speed: real,
                          samples: seq<Option<Position>>, asyncioBound: bool)
    returns (end: Flight)
    modifies v
    ensures end == StartRaised <==> |old(v.commands)| in v.failing
    ensures end == StartRaised ==> v.commands == old(v.commands) + [OffboardStart]
    ensures RaisedOnlyAtEnd(|old(v.commands)|, v.commands, v.failing,
                            end == StartRaised || end.VelocityRaised? || (end.Stopped? && end.stopRaised))
    ensures end.Stopped? ==>
              FirstFrom(samples, Arrives(m, targetLat, targetLon, targetAlt), 0) == Some(end.pass)
              && v.commands == old(v.commands) + [OffboardStart]
                               + Sends(m, targetLat, targetLon, targetAlt, speed, samples, end.pass) + [OffboardStop]
    ensures end.VelocityRaised? || end.SleepUnbound? ==>
              end.pass < |samples|
              && (forall j :: 0 <= j <= end.pass ==> !Arrives(m, targetLat, targetLon, targetAlt)(samples[j]))
              && v.commands == old(v.commands) + [OffboardStart]
                               + Sends(m, targetLat, targetLon, targetAlt, speed, samples, end.pass + 1)
    ensures end == StillFlying ==>
              FirstFrom(samples, Arrives(m, targetLat, targetLon, targetAlt), 0).None?
              && v.commands == old(v.commands) + [OffboardStart]
                               + Sends(m, targetLat, targetLon, targetAlt, speed, samples, |samples|)
    ensures end.SleepUnbound? ==> !asyncioBound
    ensures !asyncioBound ==> (end.VelocityRaised? || end.SleepUnbound? || end.Stopped? ==> end.pass == 0)
                              && (end == StillFlying ==> samples == [])
  {
    hide Arrives, Distance, OffsetTo, VelocityCommand, PassCommands;
    var started := v.Issue(OffboardStart);
    if !started {
      return StartRaised;
    }
    ghost var afterStart := v.commands;
    var arrives := Arrives(m, targetLat, targetLon, targetAlt);
    var i := 0;
    while i < |samples|
      invariant i <= |samples|
      invariant !asyncioBound ==> i == 0
      invariant v.commands == afterStart + Sends(m, targetLat, targetLon, targetAlt, speed, samples, i)
      invariant RaisedOnlyAtEnd(|old(v.commands)|, v.commands, v.failing, false)
      invariant FirstFrom(samples, arrives, 0) == FirstFrom(samples, arrives, i)
    {
      var pos := samples[i];
      if arrives(pos) {
        var stopped := v.Issue(OffboardStop);
        return Stopped(i, !stopped);
      }
      var ok := FlyPass(v, m, targetLat, targetLon, targetAlt, speed, pos);
      if !ok {
        return VelocityRaised(i);
      }
      if !asyncioBound {
        return SleepUnbound(i);
      }
      i := i + 1;
    }
    return StillFlying;
  }

  /**
   * A run whose first reading is missing and whose second is at the target:
   * the stopping test first passes at the second pass, which the run as
   * written never reaches.
   */
  lemma MissingFirstReading(m: Elementary, targetLat: real, targetLon: real, targetAlt: real)
    requires SqrtIsRoot(m)
    ensures var at := Position(targetLat, targetLon, targetAlt, 0.0);
            FirstFrom([None, Some(at)], Arrives(m, targetLat, targetLon, targetAlt), 0) == Some(1)
  {
    ArrivesAtTarget(m, targetLat, targetLon, targetAlt, 0.0);
  }
}
