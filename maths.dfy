/**
 * Exact-arithmetic stand-ins for the numeric library calls of the flight code.
 *
 * Python floats are modelled as `real`. The transcendental functions
 * (`math.sin`, `cos`, `tan`, `atan2`, `sqrt`) and the WGS84 geodesic solver
 * (GeographicLib's `Inverse` and `Direct`) are not computed here: they are
 * carried as function values in `Elementary` and `Geodesic`, and a property
 * that needs one of their laws names that law in its `requires`.
 */
module Maths {

  /** The decimal rendering of Python's `math.pi`. */
  const Pi: real := 3.141592653589793

  /** `math.radians`. */
  function Radians(deg: real): real
  {
    deg * Pi / 180.0
  }

  /** `math.degrees`. */
  function Degrees(rad: real): real
  {
    rad * 180.0 / Pi
  }

  /** Python's `abs` on a float. */
  function Abs(x: real): (r: real)
    ensures r >= 0.0 && (r == x || r == -x)
  {
    if x < 0.0 then -x else x
  }

  /** Python's `%` on floats: the remainder takes the divisor's sign (floored division). */
  function FloorMod(x: real, m: real): (r: real)
    requires m != 0.0
    ensures m > 0.0 ==> 0.0 <= r < m
    ensures m < 0.0 ==> m < r <= 0.0
    ensures ((x - r) / m).Floor as real == (x - r) / m
  {
    FloorDivisionBounds(x, m);
    x - ((x / m).Floor as real) * m
  }

  lemma FloorDivisionBounds(x: real, m: real)
    requires m != 0.0
    ensures var k := (x / m).Floor as real;
            var r := x - k * m;
            (m > 0.0 ==> 0.0 <= r < m) && (m < 0.0 ==> m < r <= 0.0) && (x - r) / m == k
  {
    var q := x / m;
    var k := q.Floor as real;
    var f := q - k;
    assert 0.0 <= f < 1.0;
    assert x - k * m == f * m by { DivMul(x, m); }
    ScaledFraction(f, m);
    var r := x - k * m;
    if m > 0.0 {
      assert r < m;
    } else {
      assert m < r;
    }
    assert (k * m) / m == k;
  }

  lemma DivMul(x: real, m: real)
    requires m != 0.0
    ensures forall k: real {:trigger k * m} :: x - k * m == (x / m - k) * m
  {
  }

  lemma ScaledFraction(f: real, m: real)
    requires 0.0 <= f < 1.0
    ensures m > 0.0 ==> 0.0 <= f * m < m
    ensures m < 0.0 ==> m < f * m <= 0.0
  {
    if m > 0.0 {
      assert (1.0 - f) * m > 0.0;
    } else if m < 0.0 {
      assert (1.0 - f) * (-m) > 0.0;
    }
  }

  /** Python's `int(x)` on a float: truncation toward zero. */
  function Trunc(x: real): (n: int)
    ensures x >= 0.0 ==> 0 <= n && (n as real) <= x < (n as real) + 1.0
    ensures x < 0.0 ==> n <= 0 && (n as real) - 1.0 < x <= (n as real)
  {
    if x >= 0.0 then x.Floor else -((-x).Floor)
  }

  /** `int` undoes the conversion of an integer to a float. */
  lemma TruncOfInteger(n: int)
    ensures Trunc(n as real) == n
  {
  }

  /** The elementary functions the code imports from `math`. */
  datatype Elementary = Elementary(
    sin: real -> real,
    cos: real -> real,
    tan: real -> real,
    atan2: (real, real) -> real,
    sqrt: real -> real)

  /** sin^2 + cos^2 = 1 at every angle. */
  ghost predicate PythagoreanIdentity(m: Elementary)
  {
    forall x :: m.sin(x) * m.sin(x) + m.cos(x) * m.cos(x) == 1.0
  }

  /** sin 0 = 0 and cos 0 = 1. */
  predicate ZeroAngle(m: Elementary)
  {
    m.sin(0.0) == 0.0 && m.cos(0.0) == 1.0
  }

  /** `math.sqrt` is the non-negative square root on non-negative arguments. */
  ghost predicate SqrtIsRoot(m: Elementary)
  {
    forall x :: 0.0 <= x ==> 0.0 <= m.sqrt(x) && m.sqrt(x) * m.sqrt(x) == x
  }

  /** The two fields of GeographicLib's `Inverse` result the code reads. */
  datatype InverseSolution = InverseSolution(s12: real, azi1: real)

  /** A latitude/longitude pair in degrees. */
  datatype LatLon = LatLon(lat: real, lon: real)

  /**
   * `Geodesic.WGS84`: `inverse(lat1, lon1, lat2, lon2)` gives the distance and
   * initial azimuth (degrees) from point 1 to point 2; `direct(lat, lon, azi, s)`
   * gives the point reached after `s` metres on initial azimuth `azi`.
   */
  datatype Geodesic = Geodesic(
    inverse: (real, real, real, real) -> InverseSolution,
    direct: (real, real, real, real) -> LatLon)
}
