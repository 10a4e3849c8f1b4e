/**
 * test.py: two drones flying in formation over XBee radio.
 *
 * Each drone broadcasts `POS|id|lat,lon,alt,yaw,speed,code`, reads the
 * other's reports, works out where the other drone is relative to its own
 * heading (`hesapla_mesafe_yon`) and the midpoint between them
 * (`hesapla_orta_nokta`), and on a ground-station `GUI|code|...` order moves
 * five metres off that midpoint (`hedef_nokta_hesapla`). The module globals
 * the script mutates are the fields of `Formation`.
 *
 * Two behaviours are modelled as written:
 *  - `hesapla_mesafe_yon` assigns the roles "sağ" and "sol", while
 *    `hedef_nokta_hesapla` tests for "sag" and "sol"; the drone given "sağ"
 *    therefore never leaves the midpoint.
 *  - A `POS|` report is stored field by field, so a report whose third
 *    field does not parse still overwrites the first two values.
 */
module Formation {
  import opened Wrappers
  import opened Maths
  import opened Text
  import opened Polling
  import opened Drone
  import DistanceCalculation

  /** `R`, the earth radius in metres used by every formula of the script. */
  const EarthRadius: real := 6371000.0

  /** `metre_offset` of `hedef_nokta_hesapla`. */
  const OffsetMetres: real := 5.0

  // ---------------------------------------------------------------------
  // Relative bearing and role (`hesapla_mesafe_yon`)
  // ---------------------------------------------------------------------

  /** Where the other drone is and which side this drone takes. */
  datatype Placement = Placement(konum: string, role: string)

  /**
   * `(angle_to_other - my_yaw_deg + 360) % 360`: the bearing of the other
   * drone measured from this drone's heading, brought into [0, 360).
   */
  function RelativeBearing(angleToOther: real, myYawDeg: real): (r: real)
    ensures 0.0 <= r < 360.0
    ensures SameRelativeBearing(angleToOther, myYawDeg, r)
  {
    var x := angleToOther - myYawDeg;
    var r := FloorMod(x + 360.0, 360.0);
    var q := (x + 360.0 - r) / 360.0;
    assert (x - r) / 360.0 == q - 1.0;
    WholeLess(q);
    r
  }

  /**
   * `y` is the bearing `angleToOther` seen from heading `myYawDeg`, up to
   * whole turns: the two differ by a whole multiple of 360 degrees.
   */
  predicate SameRelativeBearing(angleToOther: real, myYawDeg: real, y: real)
  {
    ((angleToOther - myYawDeg - y) / 360.0).Floor as real == (angleToOther - myYawDeg - y) / 360.0
  }

  /** The relative bearing is the one angle in [0, 360) that is the bearing seen from the heading up to whole turns. */
  lemma BearingUnique(angleToOther: real, myYawDeg: real)
    ensures forall y :: 0.0 <= y < 360.0 && SameRelativeBearing(angleToOther, myYawDeg, y) ==>
                        y == RelativeBearing(angleToOther, myYawDeg)
  {
    forall y | 0.0 <= y < 360.0 && SameRelativeBearing(angleToOther, myYawDeg, y)
      ensures y == RelativeBearing(angleToOther, myYawDeg)
    {
      var x := angleToOther - myYawDeg;
      OneTurnMore(x, y);
      FloorModUnique(x + 360.0, 360.0, y);
    }
  }

  /** A turn more keeps two angles a whole number of turns apart. */
  lemma OneTurnMore(x: real, y: real)
    requires ((x - y) / 360.0).Floor as real == (x - y) / 360.0
    ensures ((x + 360.0 - y) / 360.0).Floor as real == (x + 360.0 - y) / 360.0
  {
    var q := (x - y) / 360.0;
    assert (x + 360.0 - y) / 360.0 == q + 1.0;
    assert (q.Floor + 1) as real == q + 1.0;
  }

  /** One less than a whole number is whole. */
  lemma WholeLess(q: real)
    requires q.Floor as real == q
    ensures (q - 1.0).Floor as real == q - 1.0
  {
    assert (q.Floor - 1) as real == q - 1.0;
  }

  /**
   * The four sectors of the relative bearing: ahead (above 315 or below 45
   * degrees), right [45, 135), behind [135, 225) and left (the rest). The
   * drone takes the role "sol" exactly when the other one is to its right
   * or behind it.
   */
  function Classify(yawFark: real): (p: Placement)
    ensures p.konum == "önünde" <==> yawFark > 315.0 || yawFark < 45.0
    ensures p.konum == "sağında" <==> 45.0 <= yawFark < 135.0
    ensures p.konum == "arkanda" <==> 135.0 <= yawFark < 225.0
    ensures p.konum == "solunda" <==> 225.0 <= yawFark <= 315.0
    ensures p.role == "sol" <==> 45.0 <= yawFark < 225.0
    ensures p.role == "sağ" <==> !(45.0 <= yawFark < 225.0)
  {
    if yawFark > 315.0 || yawFark < 45.0 then Placement("önünde", "sağ")
    else if 45.0 <= yawFark < 135.0 then Placement("sağında", "sol")
    else if 135.0 <= yawFark < 225.0 then Placement("arkanda", "sol")
    else Placement("solunda", "sağ")
  }

  /** East offset `dx` in metres from this drone to the other one. */
  function EastOffset(m: Elementary, myLat: real, myLon: real, lat1: real, lon1: real): real
  {
    EarthRadius * Radians(lon1 - myLon) * m.cos(Radians((myLat + lat1) / 2.0))
  }

  /** North offset `dy` in metres from this drone to the other one. */
  function NorthOffset(myLat: real, lat1: real): real
  {
    EarthRadius * Radians(lat1 - myLat)
  }

  /** What `hesapla_mesafe_yon` computes: distance, position word and role. */
  datatype Relative = Relative(mesafe: real, konum: string, role: string)

  /**
   * `hesapla_mesafe_yon`: the flat-earth distance to the other drone, and
   * the sector of its bearing relative to this drone's heading.
   */
  function MesafeYon(m: Elementary, myLat: real, myLon: real, myYawDeg: real, lat1: real, lon1: real): (r: Relative)
    ensures SqrtIsRoot(m) ==>
              var dx := EastOffset(m, myLat, myLon, lat1, lon1);
              var dy := NorthOffset(myLat, lat1);
              r.mesafe >= 0.0 && r.mesafe * r.mesafe == dx * dx + dy * dy
    ensures var angleToOther := Degrees(m.atan2(EastOffset(m, myLat, myLon, lat1, lon1), NorthOffset(myLat, lat1)));
            (exists y :: 0.0 <= y < 360.0 && SameRelativeBearing(angleToOther, myYawDeg, y))
            && forall y :: 0.0 <= y < 360.0 && SameRelativeBearing(angleToOther, myYawDeg, y) ==>
                             Classify(y) == Placement(r.konum, r.role)
  {
    var dx := EastOffset(m, myLat, myLon, lat1, lon1);
    var dy := NorthOffset(myLat, lat1);
    var mesafe := m.sqrt(dx * dx + dy * dy);
    var angleToOther := Degrees(m.atan2(dx, dy));
    var bearing := RelativeBearing(angleToOther, myYawDeg);
    BearingUnique(angleToOther, myYawDeg);
    var p := Classify(bearing);
    Relative(mesafe, p.konum, p.role)
  }

  /** A `FloorMod` remainder is the only one in [0, m) that differs from `x` by a multiple of `m`. */
  lemma FloorModUnique(x: real, m: real, r: real)
    requires m > 0.0 && 0.0 <= r < m
    requires ((x - r) / m).Floor as real == (x - r) / m
    ensures FloorMod(x, m) == r
  {
    var f := FloorMod(x, m);
    var d := ((x - r) / m).Floor - ((x - f) / m).Floor;
    assert d as real * m == f - r by {
      assert (x - r) / m * m == x - r;
      assert (x - f) / m * m == x - f;
    }
    assert -m < f - r < m;
    WholeMultiple(d, m, f - r);
  }

  /** A whole multiple `p` of a positive number is zero or at least that number in size. */
  lemma WholeMultiple(d: int, m: real, p: real)
    requires m > 0.0 && p == d as real * m
    ensures d >= 1 ==> p >= m
    ensures d <= -1 ==> p <= -m
    ensures d == 0 ==> p == 0.0
  {
    if d >= 1 {
      assert (d as real - 1.0) * m >= 0.0;
    } else if d <= -1 {
      assert (-(d as real) - 1.0) * m >= 0.0;
    }
  }

  /**
   * Only the heading modulo 360 matters: whole turns added to the yaw leave
   * the distance, the position word and the role as they were.
   */
  lemma HeadingModulo360(m: Elementary, myLat: real, myLon: real, myYawDeg: real, lat1: real, lon1: real, turns: int)
    ensures MesafeYon(m, myLat, myLon, myYawDeg + 360.0 * turns as real, lat1, lon1)
            == MesafeYon(m, myLat, myLon, myYawDeg, lat1, lon1)
  {
    var angleToOther := Degrees(m.atan2(EastOffset(m, myLat, myLon, lat1, lon1), NorthOffset(myLat, lat1)));
    var r := RelativeBearing(angleToOther, myYawDeg);
    TurnsOnHeading(angleToOther, myYawDeg, r, turns);
    BearingUnique(angleToOther, myYawDeg + 360.0 * turns as real);
  }

  /** Whole turns added to the heading keep an angle the same relative bearing up to whole turns. */
  lemma TurnsOnHeading(angleToOther: real, myYawDeg: real, y: real, turns: int)
    requires SameRelativeBearing(angleToOther, myYawDeg, y)
    ensures SameRelativeBearing(angleToOther, myYawDeg + 360.0 * turns as real, y)
  {
    var q := (angleToOther - myYawDeg - y) / 360.0;
    assert (angleToOther - (myYawDeg + 360.0 * turns as real) - y) / 360.0 == q - turns as real;
    assert (q.Floor - turns) as real == q - turns as real;
  }

  // ---------------------------------------------------------------------
  // Midpoint (`hesapla_orta_nokta`)
  // ---------------------------------------------------------------------

  /**
   * `hesapla_orta_nokta`: half the metric offset from the other drone,
   * converted back to degrees. `None` stands for the `ZeroDivisionError`
   * raised when the cosine of the mean latitude is zero; otherwise, in
   * exact arithmetic, the radius and the cosine cancel and the result is
   * the plain mean of the two positions.
   */
  function OrtaNokta(m: Elementary, lat1: real, lon1: real, myLat: real, myLon: real): (r: Option<LatLon>)
    ensures r.None? <==> m.cos(Radians((lat1 + myLat) / 2.0)) == 0.0
    ensures r.Some? ==> r.value == DistanceCalculation.FindMiddleOfTwoPoints(lat1, lon1, myLat, myLon)
  {
    var c := m.cos(Radians((lat1 + myLat) / 2.0));
    var dx := EarthRadius * Radians(myLon - lon1) * c;
    var dy := EarthRadius * Radians(myLat - lat1);
    if EarthRadius * c == 0.0 then None
    else
      var ortaLat := lat1 + Degrees(dy / 2.0 / EarthRadius);
      var ortaLon := lon1 + Degrees(dx / 2.0 / (EarthRadius * c));
      assert dx / 2.0 / (EarthRadius * c) == Radians(myLon - lon1) / 2.0 by {
        Cancel(Radians(myLon - lon1) / 2.0, EarthRadius * c);
      }
      Some(LatLon(ortaLat, ortaLon))
  }

  /** Dividing a product by one of its non-zero factors. */
  lemma Cancel(a: real, c: real)
    requires c != 0.0
    ensures a * c / c == a
  {
  }

  // ---------------------------------------------------------------------
  // Formation target (`hedef_nokta_hesapla`)
  // ---------------------------------------------------------------------

  /** Five metres of latitude, in degrees. */
  function DeltaLat(): real
  {
    (OffsetMetres / EarthRadius) * (180.0 / Pi)
  }

  /** Five metres of longitude at latitude `lat`, in degrees. */
  function DeltaLon(m: Elementary, lat: real): real
    requires m.cos(Radians(lat)) != 0.0
  {
    (OffsetMetres / (EarthRadius * m.cos(Radians(lat)))) * (180.0 / Pi)
  }

  /**
   * `hedef_nokta_hesapla`. Both offsets are computed before the code is
   * looked at, so a zero cosine raises (`None`) whatever the code. Code 1
   * moves "sag" south and "sol" north by five metres, code 2 moves "sag"
   * west and "sol" east; any other code or role stays at the midpoint.
   */
  function HedefNokta(m: Elementary, ortaLat: real, ortaLon: real, rol: string, msgCode: int): (r: Option<LatLon>)
    ensures r.None? <==> m.cos(Radians(ortaLat)) == 0.0
    ensures r.Some? && msgCode == 1 ==> r.value.lon == ortaLon
    ensures r.Some? && msgCode == 2 ==> r.value.lat == ortaLat
    ensures r.Some? && ((msgCode != 1 && msgCode != 2) || (rol != "sag" && rol != "sol"))
            ==> r.value == LatLon(ortaLat, ortaLon)
  {
    if EarthRadius * m.cos(Radians(ortaLat)) == 0.0 then None
    else
      var deltaLat := DeltaLat();
      var deltaLon := DeltaLon(m, ortaLat);
      if msgCode == 1 then
        if rol == "sag" then Some(LatLon(ortaLat - deltaLat, ortaLon))
        else if rol == "sol" then Some(LatLon(ortaLat + deltaLat, ortaLon))
        else Some(LatLon(ortaLat, ortaLon))
      else if msgCode == 2 then
        if rol == "sag" then Some(LatLon(ortaLat, ortaLon - deltaLon))
        else if rol == "sol" then Some(LatLon(ortaLat, ortaLon + deltaLon))
        else Some(LatLon(ortaLat, ortaLon))
      else Some(LatLon(ortaLat, ortaLon))
  }

  /**
   * The offset is five metres on the flat-earth scale the script uses:
   * south for "sag" and north for "sol" under code 1, and (where the
   * cosine is positive) west for "sag" and east for "sol" under code 2.
   */
  lemma TargetFiveMetresAway(m: Elementary, ortaLat: real, ortaLon: real, rol: string, msgCode: int)
    requires m.cos(Radians(ortaLat)) != 0.0
    requires msgCode == 1 || msgCode == 2
    requires rol == "sag" || rol == "sol"
    ensures var t := HedefNokta(m, ortaLat, ortaLon, rol, msgCode).value;
            var c := m.cos(Radians(ortaLat));
            (msgCode == 1 ==> EarthRadius * Radians(Abs(t.lat - ortaLat)) == OffsetMetres
                              && (t.lat < ortaLat <==> rol == "sag"))
            && (msgCode == 2 ==> EarthRadius * Abs(c) * Radians(Abs(t.lon - ortaLon)) == OffsetMetres
                                 && (c > 0.0 ==> (t.lon < ortaLon <==> rol == "sag")))
  {
    var c := m.cos(Radians(ortaLat));
    assert EarthRadius * Radians(DeltaLat()) == OffsetMetres;
    assert EarthRadius * Abs(c) * Radians(Abs(DeltaLon(m, ortaLat))) == OffsetMetres by {
      var q := OffsetMetres / (EarthRadius * c);
      assert q * (EarthRadius * c) == OffsetMetres;
      assert Radians(DeltaLon(m, ortaLat)) == q;
      if c < 0.0 {
        assert q < 0.0;
        assert Abs(c) * Abs(q) == c * q;
      } else {
        assert q > 0.0;
      }
    }
    if c > 0.0 {
      assert OffsetMetres / (EarthRadius * c) > 0.0;
    }
  }

  /** The "sag" and "sol" targets of the same code lie symmetrically about the midpoint. */
  lemma SidesSymmetric(m: Elementary, ortaLat: real, ortaLon: real, msgCode: int)
    requires m.cos(Radians(ortaLat)) != 0.0
    ensures var a := HedefNokta(m, ortaLat, ortaLon, "sag", msgCode).value;
            var b := HedefNokta(m, ortaLat, ortaLon, "sol", msgCode).value;
            DistanceCalculation.FindMiddleOfTwoPoints(a.lat, a.lon, b.lat, b.lon) == LatLon(ortaLat, ortaLon)
  {
  }

  /**
   * Of the two roles `hesapla_mesafe_yon` hands out, "sol" moves the drone
   * under codes 1 and 2 while "sağ" never does: it is not the "sag" that
   * `hedef_nokta_hesapla` looks for.
   */
  lemma AssignedRoles(m: Elementary, yawFark: real, ortaLat: real, ortaLon: real, msgCode: int)
    requires m.cos(Radians(ortaLat)) != 0.0
    ensures var role := Classify(yawFark).role;
            var t := HedefNokta(m, ortaLat, ortaLon, role, msgCode).value;
            (role == "sağ" ==> t == LatLon(ortaLat, ortaLon))
            && (role == "sol" && (msgCode == 1 || msgCode == 2) ==> t != LatLon(ortaLat, ortaLon))
  {
    var role := Classify(yawFark).role;
    if role == "sol" && (msgCode == 1 || msgCode == 2) {
      TargetFiveMetresAway(m, ortaLat, ortaLon, role, msgCode);
    }
  }

  // ---------------------------------------------------------------------
  // Outgoing reports (`broadcast_pos`, `broadcast_ort`)
  // ---------------------------------------------------------------------

  /** The telemetry values a position report carries. */
  datatype PosReport = PosReport(lat: real, lon: real, alt: real, yaw: real, speed: real)

  /**
   * The text of one `broadcast_pos` report. `fix6` and `fix1` stand for the
   * `:.6f` and `:.1f` renderings; the code is `msg_code`, or 0 while it is
   * unset or zero.
   */
  function PosMessage(id: string, p: PosReport, msgCode: Option<int>, fix6: real -> string, fix1: real -> string): string
  {
    "POS|" + id + "|" + Join([fix6(p.lat), fix6(p.lon), fix1(p.alt), fix1(p.yaw), fix1(p.speed),
                             IntToString(msgCode.GetOr(0))], ',')
  }

  /** The text of one `broadcast_ort` report. */
  function OrtMessage(id: string, ortaLat: real, ortaLon: real, fix6: real -> string): string
  {
    "ORT|" + id + "|" + Join([fix6(ortaLat), fix6(ortaLon)], ',')
  }

  // ---------------------------------------------------------------------
  // Incoming messages (`xbee_veri_alma`)
  // ---------------------------------------------------------------------

  /** The module globals of the script that the radio side reads or writes. */
  datatype Shared = Shared(
    myLat: Option<real>, myLon: Option<real>, myYaw: Option<real>,
    msgCode: Option<int>,
    lat1: Option<real>, lon1: Option<real>, alt1: Option<real>, yaw1: Option<real>, speed1: Option<real>,
    msgCode1: Option<string>,
    mesafe: Option<real>, konum: Option<string>, myRole: Option<string>,
    ortaLat: Option<real>, ortaLon: Option<real>)

  predicate StartsWith(s: string, prefix: string)
  {
    |prefix| <= |s| && s[..|prefix|] == prefix
  }

  /**
   * The own-position part of a `POS|` report, reached once all six fields
   * are stored: with the own position known, the distance, position word
   * and role are recomputed, and then the midpoint (which raises, leaving
   * it as it was, when the cosine is zero).
   */
  function Relate(m: Elementary, s: Shared): (r: Shared)
    requires s.lat1.Some? && s.lon1.Some?
    ensures r.myLat.None? || r.myLon.None? ==> r == s
    ensures r.msgCode == s.msgCode
  {
    if s.myLat.None? || s.myLon.None? then s
    else
      var rel := MesafeYon(m, s.myLat.value, s.myLon.value, s.myYaw.GetOr(0.0), s.lat1.value, s.lon1.value);
      var s' := s.(mesafe := Some(rel.mesafe), konum := Some(rel.konum), myRole := Some(rel.role));
      match OrtaNokta(m, s.lat1.value, s.lon1.value, s.myLat.value, s.myLon.value)
      case None => s'
      case Some(o) => s'.(ortaLat := Some(o.lat), ortaLon := Some(o.lon))
  }

  /**
   * The five numeric fields of a `POS|` payload, converted and stored one
   * at a time: the first field that is missing or does not parse stops the
   * storing, with the earlier ones already stored.
   */
  function StoreFields(s: Shared, f: seq<string>): (r: Shared)
    requires |f| >= 1
    ensures r == s.(lat1 := r.lat1, lon1 := r.lon1, alt1 := r.alt1, yaw1 := r.yaw1, speed1 := r.speed1)
  {
    match ParseFloat(f[0])
    case None => s
    case Some(lat) =>
      var s := s.(lat1 := Some(lat));
      if |f| < 2 || ParseFloat(f[1]).None? then s
      else
        var s := s.(lon1 := ParseFloat(f[1]));
        if |f| < 3 || ParseFloat(f[2]).None? then s
        else
          var s := s.(alt1 := ParseFloat(f[2]));
          if |f| < 4 || ParseFloat(f[3]).None? then s
          else
            var s := s.(yaw1 := ParseFloat(f[3]));
            if |f| < 5 || ParseFloat(f[4]).None? then s
            else s.(speed1 := ParseFloat(f[4]))
  }

  /** A payload whose five numeric fields parse and which has the sixth, code, field. */
  predicate Complete(f: seq<string>)
  {
    |f| >= 6 && forall i :: 0 <= i < 5 ==> ParseFloat(f[i]).Some?
  }

  /**
   * A `POS|` message: the split on `|` must give three parts; the comma
   * fields are stored, and a complete report also stores its code text and
   * relates the other drone to this one.
   */
  function ReceivePos(m: Elementary, s: Shared, data: string): (r: Shared)
    ensures r.msgCode == s.msgCode
  {
    var parts := Split(data, '|');
    if |parts| != 3 then s
    else
      var f := Split(parts[2], ',');
      var stored := StoreFields(s, f);
      if Complete(f) then Relate(m, stored.(msgCode1 := Some(f[5]))) else stored
  }

  /** An `ORT|` message: exactly two comma fields, both numbers, or nothing changes. */
  function ReceiveOrt(s: Shared, data: string): Shared
  {
    var parts := Split(data, '|');
    if |parts| != 3 then s
    else
      var f := Split(parts[2], ',');
      if |f| != 2 || ParseFloat(f[0]).None? || ParseFloat(f[1]).None? then s
      else s.(ortaLat := ParseFloat(f[0]), ortaLon := ParseFloat(f[1]))
  }

  /** A `GUI|` message: the middle field, read by `int`, becomes `msg_code`. */
  function ReceiveGui(s: Shared, data: string): Shared
  {
    var parts := Split(data, '|');
    if |parts| != 3 || PyInt(parts[1]).None? then s
    else s.(msgCode := PyInt(parts[1]))
  }

  /**
   * One message read by `xbee_veri_alma`, dispatched on its prefix; an
   * unknown prefix is only reported. No message changes the drone's own
   * position or heading.
   */
  function Receive(m: Elementary, s: Shared, data: string): (r: Shared)
    ensures r.myLat == s.myLat && r.myLon == s.myLon && r.myYaw == s.myYaw
    ensures !StartsWith(data, "POS|") && !StartsWith(data, "ORT|") && !StartsWith(data, "GUI|") ==> r == s
    ensures !StartsWith(data, "GUI|") ==> r.msgCode == s.msgCode
  {
    if StartsWith(data, "POS|") then ReceivePos(m, s, data)
    else if StartsWith(data, "ORT|") then ReceiveOrt(s, data)
    else if StartsWith(data, "GUI|") then ReceiveGui(s, data)
    else s
  }

  /** The effect of a run of reads; `None` is a read that timed out. */
  function ReceiveAll(m: Elementary, s: Shared, inbox: seq<Option<string>>): Shared
  {
    if |inbox| == 0 then s
    else
      var before := ReceiveAll(m, s, inbox[..|inbox| - 1]);
      match inbox[|inbox| - 1]
      case None => before
      case Some(data) => Receive(m, before, data)
  }

  /** Received messages never move the drone's own position or heading. */
  lemma {:induction false} OwnPositionKept(m: Elementary, s: Shared, inbox: seq<Option<string>>)
    ensures var r := ReceiveAll(m, s, inbox);
            r.myLat == s.myLat && r.myLon == s.myLon && r.myYaw == s.myYaw
    decreases |inbox|
  {
    if |inbox| > 0 {
      OwnPositionKept(m, s, inbox[..|inbox| - 1]);
    }
  }

  /** Without `GUI|` messages `msg_code` stays what it was. */
  lemma {:induction false} CodeOnlyFromGui(m: Elementary, s: Shared, inbox: seq<Option<string>>)
    requires forall i :: 0 <= i < |inbox| && inbox[i].Some? ==> !StartsWith(inbox[i].value, "GUI|")
    ensures ReceiveAll(m, s, inbox).msgCode == s.msgCode
    decreases |inbox|
  {
    if |inbox| > 0 {
      var rest := inbox[..|inbox| - 1];
      CodeOnlyFromGui(m, s, rest);
    }
  }

  /** Each message tag is its three letters and a bar. */
  lemma TagBars()
    ensures "POS" + "|" == "POS|" && "ORT" + "|" == "ORT|" && "GUI" + "|" == "GUI|"
  {
  }

  /** Concatenation regroups. */
  lemma Regroup(a: string, b: string, c: string, d: string)
    ensures a + b + c + d == a + (b + c + d)
  {
  }

  /** A message that begins with a four-character tag is dispatched on that tag alone. */
  lemma Tagged(tag: string, rest: string)
    requires |tag| == 4
    ensures StartsWith(tag + rest, "POS|") <==> tag == "POS|"
    ensures StartsWith(tag + rest, "ORT|") <==> tag == "ORT|"
    ensures StartsWith(tag + rest, "GUI|") <==> tag == "GUI|"
  {
    assert (tag + rest)[..4] == tag;
  }

  /** Splitting `head|middle|tail` on `|` when none of the three holds a `|`. */
  lemma SplitThree(head: string, middle: string, tail: string)
    requires '|' !in head && '|' !in middle && '|' !in tail
    ensures Split(head + "|" + middle + "|" + tail, '|') == [head, middle, tail]
  {
    assert Join([tail], '|') == tail;
    assert Join([middle, tail], '|') == middle + "|" + tail;
    assert Join([head, middle, tail], '|') == head + "|" + (middle + "|" + tail);
    assert head + "|" + middle + "|" + tail == head + "|" + (middle + "|" + tail);
    SplitJoin([head, middle, tail], '|');
  }

  /** A `GUI|` order written with `str` is read back as the same code. */
  lemma GuiRoundTrip(m: Elementary, s: Shared, code: int, payload: string)
    requires '|' !in payload
    ensures Receive(m, s, "GUI|" + IntToString(code) + "|" + payload) == s.(msgCode := Some(code))
  {
    var data := "GUI|" + IntToString(code) + "|" + payload;
    TagBars();
    Regroup("GUI|", IntToString(code), "|", payload);
    Tagged("GUI|", IntToString(code) + "|" + payload);
    assert Receive(m, s, data) == ReceiveGui(s, data);
    IntToStringPlain(code);
    SplitThree("GUI", IntToString(code), payload);
    PyIntRoundTrip(code);
  }

  /** A rendering that reads back as a number and holds no separator. */
  predicate Readable(t: string)
  {
    ParseFloat(t).Some? && ',' !in t && '|' !in t
  }

  /**
   * A midpoint report from the other drone overwrites the stored midpoint
   * with the values its renderings read back as, and nothing else.
   */
  lemma OrtRoundTrip(m: Elementary, s: Shared, id: string, ortaLat: real, ortaLon: real, fix6: real -> string)
    requires '|' !in id && Readable(fix6(ortaLat)) && Readable(fix6(ortaLon))
    ensures Receive(m, s, OrtMessage(id, ortaLat, ortaLon, fix6))
            == s.(ortaLat := ParseFloat(fix6(ortaLat)), ortaLon := ParseFloat(fix6(ortaLon)))
  {
    var fields := [fix6(ortaLat), fix6(ortaLon)];
    var payload := Join(fields, ',');
    var data := OrtMessage(id, ortaLat, ortaLon, fix6);
    TagBars();
    Regroup("ORT|", id, "|", payload);
    Tagged("ORT|", id + "|" + payload);
    assert Receive(m, s, data) == ReceiveOrt(s, data);
    assert Join([fix6(ortaLon)], ',') == fix6(ortaLon);
    assert payload == fix6(ortaLat) + [','] + fix6(ortaLon);
    SplitThree("ORT", id, payload);
    SplitJoin(fields, ',');
  }

  /**
   * A position report from the other drone is stored in full: the five
   * values its renderings read back as and the code text `msg_code or 0`;
   * the relative placement and the midpoint follow when the own position
   * is known.
   */
  lemma PosRoundTrip(m: Elementary, s: Shared, id: string, p: PosReport, msgCode: Option<int>,
                     fix6: real -> string, fix1: real -> string)
    requires '|' !in id
    requires Readable(fix6(p.lat)) && Readable(fix6(p.lon))
    requires Readable(fix1(p.alt)) && Readable(fix1(p.yaw)) && Readable(fix1(p.speed))
    ensures Receive(m, s, PosMessage(id, p, msgCode, fix6, fix1))
            == Relate(m, s.(lat1 := ParseFloat(fix6(p.lat)), lon1 := ParseFloat(fix6(p.lon)),
                            alt1 := ParseFloat(fix1(p.alt)), yaw1 := ParseFloat(fix1(p.yaw)),
                            speed1 := ParseFloat(fix1(p.speed)),
                            msgCode1 := Some(IntToString(msgCode.GetOr(0)))))
  {
    var code := IntToString(msgCode.GetOr(0));
    IntToStringPlain(msgCode.GetOr(0));
    var fields := [fix6(p.lat), fix6(p.lon), fix1(p.alt), fix1(p.yaw), fix1(p.speed), code];
    assert PosMessage(id, p, msgCode, fix6, fix1) == "POS|" + id + "|" + Join(fields, ',');
    ReceiveCompletePos(m, s, id, fields);
  }

  /** A `POS|` message with six separator-free fields, the first five numbers, stores them all. */
  lemma ReceiveCompletePos(m: Elementary, s: Shared, id: string, fields: seq<string>)
    requires '|' !in id
    requires Complete(fields) && |fields| == 6
    requires forall i :: 0 <= i < 6 ==> ',' !in fields[i] && '|' !in fields[i]
    ensures Receive(m, s, "POS|" + id + "|" + Join(fields, ','))
            == Relate(m, s.(lat1 := ParseFloat(fields[0]), lon1 := ParseFloat(fields[1]),
                            alt1 := ParseFloat(fields[2]), yaw1 := ParseFloat(fields[3]),
                            speed1 := ParseFloat(fields[4]), msgCode1 := Some(fields[5])))
  {
    PayloadSplits(fields);
    var payload := Join(fields, ',');
    var data := "POS|" + id + "|" + payload;
    TagBars();
    Regroup("POS|", id, "|", payload);
    Tagged("POS|", id + "|" + payload);
    SplitThree("POS", id, payload);
    StoreComplete(s, fields);
    assert Receive(m, s, data) == ReceivePos(m, s, data);
  }

  /** A complete payload stores all five values and the code text. */
  lemma StoreComplete(s: Shared, f: seq<string>)
    requires Complete(f)
    ensures StoreFields(s, f).(msgCode1 := Some(f[5]))
            == s.(lat1 := ParseFloat(f[0]), lon1 := ParseFloat(f[1]), alt1 := ParseFloat(f[2]),
                  yaw1 := ParseFloat(f[3]), speed1 := ParseFloat(f[4]), msgCode1 := Some(f[5]))
  {
    assert ParseFloat(f[0]).Some? && ParseFloat(f[1]).Some? && ParseFloat(f[2]).Some?;
    assert ParseFloat(f[3]).Some? && ParseFloat(f[4]).Some?;
  }

  /** A payload of separator-free fields splits back into those fields and holds no `|`. */
  lemma PayloadSplits(fields: seq<string>)
    requires |fields| >= 1
    requires forall i :: 0 <= i < |fields| ==> ',' !in fields[i] && '|' !in fields[i]
    ensures Split(Join(fields, ','), ',') == fields && '|' !in Join(fields, ',')
  {
    SplitJoin(fields, ',');
    JoinFree(fields, ',', '|');
  }

  /** Joining pieces that lack a character, on a different separator, gives text that lacks it. */
  lemma {:induction false} JoinFree(parts: seq<string>, sep: char, c: char)
    requires c != sep
    requires forall i :: 0 <= i < |parts| ==> c !in parts[i]
    ensures c !in Join(parts, sep)
  {
    if |parts| > 1 {
      JoinFree(parts[1..], sep, c);
    }
  }

  /**
   * A report that carries fewer than six fields still overwrites the values
   * before the missing one, but never the placement or the midpoint.
   */
  lemma ShortPosKeepsPlacement(m: Elementary, s: Shared, data: string)
    requires StartsWith(data, "POS|")
    requires var parts := Split(data, '|'); |parts| == 3 && |Split(parts[2], ',')| < 6
    ensures var r := Receive(m, s, data);
            r.mesafe == s.mesafe && r.konum == s.konum && r.myRole == s.myRole
            && r.ortaLat == s.ortaLat && r.ortaLon == s.ortaLon && r.msgCode1 == s.msgCode1
  {
  }

  /**
   * The module globals, mutated by the radio loop. The own position and
   * heading are written by the telemetry task, which is not part of this
   * model, and are only read here.
   */
  class Formation {
    var myLat: Option<real>
    var myLon: Option<real>
    var myYaw: Option<real>
    var msgCode: Option<int>
    var lat1: Option<real>
    var lon1: Option<real>
    var alt1: Option<real>
    var yaw1: Option<real>
    var speed1: Option<real>
    var msgCode1: Option<string>
    var mesafe: Option<real>
    var konum: Option<string>
    var myRole: Option<string>
    var ortaLat: Option<real>
    var ortaLon: Option<real>

    /** Every global starts as `None`. */
    constructor()
      ensures State() == Shared(None, None, None, None, None, None, None, None, None, None, None, None, None, None, None)
    {
      myLat, myLon, myYaw, msgCode := None, None, None, None;
      lat1, lon1, alt1, yaw1, speed1, msgCode1 := None, None, None, None, None, None;
      mesafe, konum, myRole, ortaLat, ortaLon := None, None, None, None, None;
    }

    function State(): Shared
      reads this
    {
      Shared(myLat, myLon, myYaw, msgCode, lat1, lon1, alt1, yaw1, speed1, msgCode1,
             mesafe, konum, myRole, ortaLat, ortaLon)
    }

    /** `hesapla_mesafe_yon`, which also writes the globals `mesafe`, `konum` and `my_role`. */
    method HesaplaMesafeYon(m: Elementary, myLatDeg: real, myLonDeg: real, myYawDeg: real, otherLat: real, otherLon: real)
      returns (distance: real, position: string)
      modifies this`mesafe, this`konum, this`myRole
      ensures var rel := MesafeYon(m, myLatDeg, myLonDeg, myYawDeg, otherLat, otherLon);
              distance == rel.mesafe && position == rel.konum
              && State() == old(State()).(mesafe := Some(rel.mesafe), konum := Some(rel.konum), myRole := Some(rel.role))
    {
      var rel := MesafeYon(m, myLatDeg, myLonDeg, myYawDeg, otherLat, otherLon);
      mesafe := Some(rel.mesafe);
      konum := Some(rel.konum);
      myRole := Some(rel.role);
      distance, position := rel.mesafe, rel.konum;
    }

    /** The numeric fields of a `POS|` payload, one assignment at a time. */
    method StoreReport(f: seq<string>) returns (complete: bool)
      requires |f| >= 1
      modifies this
      ensures State() == StoreFields(old(State()), f)
      ensures complete == Complete(f)
    {
      complete := false;
      var v := ParseFloat(f[0]);
      if v.None? { return; }
      lat1 := v;
      if |f| < 2 { return; }
      v := ParseFloat(f[1]);
      if v.None? { return; }
      lon1 := v;
      if |f| < 3 { return; }
      v := ParseFloat(f[2]);
      if v.None? { return; }
      alt1 := v;
      if |f| < 4 { return; }
      v := ParseFloat(f[3]);
      if v.None? { return; }
      yaw1 := v;
      if |f| < 5 { return; }
      v := ParseFloat(f[4]);
      if v.None? { return; }
      speed1 := v;
      complete := |f| >= 6;
    }

    /** The end of the `POS|` branch: placement and midpoint, when the own position is known. */
    method RelateOwn(m: Elementary)
      requires lat1.Some? && lon1.Some?
      modifies this
      ensures State() == Relate(m, old(State()))
    {
      if myLat.Some? && myLon.Some? {
        var _, _ := HesaplaMesafeYon(m, myLat.value, myLon.value, myYaw.GetOr(0.0), lat1.value, lon1.value);
        var o := OrtaNokta(m, lat1.value, lon1.value, myLat.value, myLon.value);
        if o.Some? {
          ortaLat := Some(o.value.lat);
          ortaLon := Some(o.value.lon);
        }
      }
    }

    /** The `POS|` branch of `xbee_veri_alma`. */
    method HandlePos(m: Elementary, data: string)
      modifies this
      ensures State() == ReceivePos(m, old(State()), data)
    {
      var parts := Split(data, '|');
      if |parts| != 3 {
        return;
      }
      var f := Split(parts[2], ',');
      var complete := StoreReport(f);
      if complete {
        msgCode1 := Some(f[5]);
        RelateOwn(m);
      }
    }

    /** The `ORT|` branch of `xbee_veri_alma`. */
    method HandleOrt(data: string)
      modifies this
      ensures State() == ReceiveOrt(old(State()), data)
    {
      var parts := Split(data, '|');
      if |parts| == 3 {
        var f := Split(parts[2], ',');
        if |f| == 2 && ParseFloat(f[0]).Some? && ParseFloat(f[1]).Some? {
          ortaLat := ParseFloat(f[0]);
          ortaLon := ParseFloat(f[1]);
        }
      }
    }

    /** The `GUI|` branch of `xbee_veri_alma`. */
    method HandleGui(data: string)
      modifies this
      ensures State() == ReceiveGui(old(State()), data)
    {
      var parts := Split(data, '|');
      if |parts| == 3 {
        var code := PyInt(parts[1]);
        if code.Some? {
          msgCode := code;
        }
      }
    }

    /** One pass of the `xbee_veri_alma` loop that read a message. */
    method HandleMessage(m: Elementary, data: string)
      modifies this
      ensures State() == Receive(m, old(State()), data)
    {
      if StartsWith(data, "POS|") {
        HandlePos(m, data);
      } else if StartsWith(data, "ORT|") {
        HandleOrt(data);
      } else if StartsWith(data, "GUI|") {
        HandleGui(data);
      }
    }

    /** `xbee_veri_alma` over a run of reads, each either a message or a timeout. */
    method XbeeVeriAlma(m: Elementary, inbox: seq<Option<string>>)
      modifies this
      ensures State() == ReceiveAll(m, old(State()), inbox)
    {
      for i := 0 to |inbox|
        invariant State() == ReceiveAll(m, old(State()), inbox[..i])
      {
        assert inbox[..i + 1][..i] == inbox[..i];
        if inbox[i].Some? {
          HandleMessage(m, inbox[i].value);
        }
      }
      assert inbox[..|inbox|] == inbox;
    }
  }

  // ---------------------------------------------------------------------
  // `arm_and_takeoff`
  // ---------------------------------------------------------------------

  /** How `arm_and_takeoff` ends. */
  datatype Takeoff = NotStarted | Raised | OffboardFailed | Reached(sample: nat) | Climbing

  /** The calls of a complete `arm_and_takeoff`, in order. */
  function TakeoffPlan(hedefAlt: real): seq<Command>
  {
    [SetVelocityNed(0.0, 0.0, 0.0, 0.0), OffboardStart, Arm, SetTakeoffAltitude(hedefAlt), Command.Takeoff]
  }

  /** The climb is complete within half a metre of the target altitude. */
  function AtAltitude(hedefAlt: real): real -> bool
  {
    (alt: real) => Abs(alt - hedefAlt) < 0.5
  }

  /**
   * The calls of `arm_and_takeoff` in order; `None` when every one of them
   * returned, otherwise how the first failure ends it.
   */
  method IssueTakeoffPlan(v: Vehicle, hedefAlt: real) returns (stop: Option<Takeoff>)
    modifies v
    ensures IssuedPrefix(old(v.commands), v.commands, TakeoffPlan(hedefAlt))
    ensures RaisedOnlyAtEnd(|old(v.commands)|, v.commands, v.failing, stop.Some?)
    ensures stop.Some? ==> stop.value == Raised || stop.value == OffboardFailed
    ensures stop == Some(OffboardFailed) ==> |v.commands| == |old(v.commands)| + 2
    ensures stop == Some(Raised) ==> |v.commands| != |old(v.commands)| + 2
    ensures stop.None? ==> v.commands == old(v.commands) + TakeoffPlan(hedefAlt)
  {
    ghost var before := v.commands;
    ghost var plan := TakeoffPlan(hedefAlt);
    var ok := v.IssueNext(before, plan, SetVelocityNed(0.0, 0.0, 0.0, 0.0));
    if !ok { return Some(Raised); }
    ok := v.IssueNext(before, plan, OffboardStart);
    if !ok { return Some(OffboardFailed); }
    ok := v.IssueNext(before, plan, Arm);
    if !ok { return Some(Raised); }
    ok := v.IssueNext(before, plan, SetTakeoffAltitude(hedefAlt));
    if !ok { return Some(Raised); }
    ok := v.IssueNext(before, plan, Command.Takeoff);
    if !ok { return Some(Raised); }
    assert plan[..5] == plan;
    return None;
  }

  /**
   * `arm_and_takeoff`: nothing unless `msg_code` is 0; then a zero
   * velocity setpoint, offboard start (an `OffboardError` there ends it
   * quietly), arm, takeoff altitude and takeoff, whose errors propagate;
   * then relative altitudes are read until one is within half a metre of
   * the target.
   */
  method ArmAndTakeoff(v: Vehicle, msgCode: int, hedefAlt: real, altitudes: seq<real>) returns (end: Takeoff)
    modifies v
    ensures end == NotStarted <==> msgCode != 0
    ensures end == NotStarted ==> v.commands == old(v.commands)
    ensures IssuedPrefix(old(v.commands), v.commands, TakeoffPlan(hedefAlt))
    ensures RaisedOnlyAtEnd(|old(v.commands)|, v.commands, v.failing, end == Raised || end == OffboardFailed)
    ensures end == OffboardFailed ==> |v.commands| == |old(v.commands)| + 2
    ensures end == Raised ==> |v.commands| != |old(v.commands)| + 2
    ensures end.Reached? || end == Climbing ==> v.commands == old(v.commands) + TakeoffPlan(hedefAlt)
    ensures end.Reached? ==> FirstFrom(altitudes, AtAltitude(hedefAlt), 0) == Some(end.sample)
    ensures end == Climbing ==> FirstFrom(altitudes, AtAltitude(hedefAlt), 0).None?
  {
    if msgCode != 0 {
      return NotStarted;
    }
    var stop := IssueTakeoffPlan(v, hedefAlt);
    if stop.Some? {
      return stop.value;
    }
    var reached := AwaitFirst(altitudes, AtAltitude(hedefAlt));
    if reached.None? {
      return Climbing;
    }
    return Reached(reached.value);
  }
}
