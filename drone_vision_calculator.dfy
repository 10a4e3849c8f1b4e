/**
 * optimization/drone_vision_calculator.py: the ground footprint of a
 * downward camera and the pixel/metre conversions built on it. The fields
 * set in `__init__` are never written again, so the calculator is a value.
 */
module DroneVisionCalculator {
  import opened Wrappers
  import opened Maths

  /** The calculator's fields: fields of view in radians and the image size in pixels. */
  datatype VisionCalculator = VisionCalculator(fovH: real, fovV: real, imageWidth: int, imageHeight: int)

  /** `__init__`: the fields of view are given in degrees and stored in radians. */
  function NewVisionCalculator(fovHorizontalDeg: real, fovVerticalDeg: real, imageWidth: int, imageHeight: int)
    : (c: VisionCalculator)
    ensures Degrees(c.fovH) == fovHorizontalDeg && Degrees(c.fovV) == fovVerticalDeg
    ensures c.imageWidth == imageWidth && c.imageHeight == imageHeight
  {
    VisionCalculator(Radians(fovHorizontalDeg), Radians(fovVerticalDeg), imageWidth, imageHeight)
  }

  /** The defaults: 90 by 60 degrees, 1920 by 1080 pixels. */
  function DefaultVisionCalculator(): (c: VisionCalculator)
    ensures Degrees(c.fovH) == 90.0 && Degrees(c.fovV) == 60.0
    ensures c.imageWidth == 1920 && c.imageHeight == 1080
  {
    NewVisionCalculator(90.0, 60.0, 1920, 1080)
  }

  /** The dictionary `calculate_ground_coverage` returns. */
  datatype Coverage = Coverage(
    altitude: real,
    width: real,
    height: real,
    area: real,
    metersPerPixelH: real,
    metersPerPixelV: real)

  /** The footprint width and height: twice the altitude times the tangent of half the field of view. */
  function GroundWidth(m: Elementary, c: VisionCalculator, altitude: real): real
  {
    2.0 * altitude * m.tan(c.fovH / 2.0)
  }

  function GroundHeight(m: Elementary, c: VisionCalculator, altitude: real): real
  {
    2.0 * altitude * m.tan(c.fovV / 2.0)
  }

  /**
   * `calculate_ground_coverage`; `None` stands for the `ZeroDivisionError` a
   * zero image width or height raises.
   */
  function CalculateGroundCoverage(m: Elementary, c: VisionCalculator, altitude: real): (r: Option<Coverage>)
    ensures r.Some? <==> c.imageWidth != 0 && c.imageHeight != 0
    ensures r.Some? ==>
      && r.value.altitude == altitude
      && r.value.width == GroundWidth(m, c, altitude)
      && r.value.height == GroundHeight(m, c, altitude)
      && r.value.area == r.value.width * r.value.height
      && r.value.metersPerPixelH * (c.imageWidth as real) == r.value.width
      && r.value.metersPerPixelV * (c.imageHeight as real) == r.value.height
  {
    if c.imageWidth == 0 || c.imageHeight == 0 then None
    else
      var width := GroundWidth(m, c, altitude);
      var height := GroundHeight(m, c, altitude);
      Some(Coverage(altitude, width, height, width * height,
                    width / (c.imageWidth as real), height / (c.imageHeight as real)))
  }

  /** The footprint and the ground sample distances scale linearly with altitude. */
  lemma CoverageLinearInAltitude(m: Elementary, c: VisionCalculator, altitude: real, k: real)
    requires c.imageWidth != 0 && c.imageHeight != 0
    ensures var a := CalculateGroundCoverage(m, c, altitude).value;
            var b := CalculateGroundCoverage(m, c, k * altitude).value;
            b.width == k * a.width && b.height == k * a.height &&
            b.metersPerPixelH == k * a.metersPerPixelH && b.metersPerPixelV == k * a.metersPerPixelV
  {
    HorizontalLinear(m, c, altitude, k);
    VerticalLinear(m, c, altitude, k);
  }

  lemma HorizontalLinear(m: Elementary, c: VisionCalculator, altitude: real, k: real)
    requires c.imageWidth != 0 && c.imageHeight != 0
    ensures var a := CalculateGroundCoverage(m, c, altitude).value;
            var b := CalculateGroundCoverage(m, c, k * altitude).value;
            b.width == k * a.width && b.metersPerPixelH == k * a.metersPerPixelH
  {
    ScaleFootprint(altitude, k, m.tan(c.fovH / 2.0), c.imageWidth as real);
  }

  lemma VerticalLinear(m: Elementary, c: VisionCalculator, altitude: real, k: real)
    requires c.imageWidth != 0 && c.imageHeight != 0
    ensures var a := CalculateGroundCoverage(m, c, altitude).value;
            var b := CalculateGroundCoverage(m, c, k * altitude).value;
            b.height == k * a.height && b.metersPerPixelV == k * a.metersPerPixelV
  {
    ScaleFootprint(altitude, k, m.tan(c.fovV / 2.0), c.imageHeight as real);
  }

  /** On the ground the footprint has no width, height or area. */
  lemma CoverageVanishesOnGround(m: Elementary, c: VisionCalculator)
    requires c.imageWidth != 0 && c.imageHeight != 0
    ensures var z := CalculateGroundCoverage(m, c, 0.0).value;
            z.width == 0.0 && z.height == 0.0 && z.area == 0.0
  {
  }

  lemma ScaleFootprint(altitude: real, k: real, t: real, n: real)
    requires n != 0.0
    ensures 2.0 * (k * altitude) * t == k * (2.0 * altitude * t)
    ensures (2.0 * (k * altitude) * t) / n == k * ((2.0 * altitude * t) / n)
  {
    assert 2.0 * (k * altitude) * t == k * (2.0 * altitude * t);
  }

  /** A ground offset in metres and an image offset in pixels. */
  datatype Metres = Metres(x: real, y: real)

  datatype Pixels = Pixels(x: int, y: int)

  /** `pixel_to_real_world`: pixels times the ground sample distance on each axis. */
  function PixelToRealWorld(m: Elementary, c: VisionCalculator, pixelX: int, pixelY: int, altitude: real)
    : (r: Option<Metres>)
    ensures r.Some? <==> CalculateGroundCoverage(m, c, altitude).Some?
    ensures CalculateGroundCoverage(m, c, altitude).Some? ==>
              var cov := CalculateGroundCoverage(m, c, altitude).value;
              r.Some? && r.value.x == (pixelX as real) * cov.metersPerPixelH &&
              r.value.y == (pixelY as real) * cov.metersPerPixelV
  {
    var cov := CalculateGroundCoverage(m, c, altitude);
    if cov.None? then None
    else Some(Metres((pixelX as real) * cov.value.metersPerPixelH, (pixelY as real) * cov.value.metersPerPixelV))
  }

  /**
   * `real_world_to_pixel`: metres divided by the ground sample distance,
   * truncated toward zero by `int`; `None` when the coverage cannot be computed
   * or a ground sample distance is zero (`ZeroDivisionError`).
   */
  function RealWorldToPixel(m: Elementary, c: VisionCalculator, realX: real, realY: real, altitude: real)
    : (r: Option<Pixels>)
    ensures r.Some? <==> (CalculateGroundCoverage(m, c, altitude).Some? &&
                          CalculateGroundCoverage(m, c, altitude).value.metersPerPixelH != 0.0 &&
                          CalculateGroundCoverage(m, c, altitude).value.metersPerPixelV != 0.0)
    ensures r.Some? && CalculateGroundCoverage(m, c, altitude).Some? ==>
              var cov := CalculateGroundCoverage(m, c, altitude).value;
              cov.metersPerPixelH != 0.0 && cov.metersPerPixelV != 0.0 &&
              TruncatesTo(realX / cov.metersPerPixelH, r.value.x) &&
              TruncatesTo(realY / cov.metersPerPixelV, r.value.y)
  {
    var cov := CalculateGroundCoverage(m, c, altitude);
    if cov.None? || cov.value.metersPerPixelH == 0.0 || cov.value.metersPerPixelV == 0.0 then None
    else Some(Pixels(Trunc(realX / cov.value.metersPerPixelH), Trunc(realY / cov.value.metersPerPixelV)))
  }

  /** `n` is `q` with its fractional part dropped (rounded toward zero). */
  predicate TruncatesTo(q: real, n: int)
  {
    Abs(n as real) <= Abs(q) < Abs(n as real) + 1.0 && (q >= 0.0 ==> n >= 0) && (q < 0.0 ==> n <= 0)
  }

  /**
   * Pixels survive the trip to metres and back whenever the camera sees a
   * non-degenerate footprint (non-zero altitude and non-zero half-angle tangents).
   */
  lemma PixelRoundTrip(m: Elementary, c: VisionCalculator, pixelX: int, pixelY: int, altitude: real)
    requires c.imageWidth != 0 && c.imageHeight != 0
    requires altitude != 0.0 && m.tan(c.fovH / 2.0) != 0.0 && m.tan(c.fovV / 2.0) != 0.0
    ensures PixelToRealWorld(m, c, pixelX, pixelY, altitude).Some?
    ensures var p := PixelToRealWorld(m, c, pixelX, pixelY, altitude).value;
            RealWorldToPixel(m, c, p.x, p.y, altitude) == Some(Pixels(pixelX, pixelY))
  {
    SamplesNonZero(m, c, altitude);
    var cov := CalculateGroundCoverage(m, c, altitude).value;
    var p := PixelToRealWorld(m, c, pixelX, pixelY, altitude).value;
    assert p == Metres((pixelX as real) * cov.metersPerPixelH, (pixelY as real) * cov.metersPerPixelV);
    AxisRoundTrip(pixelX, cov.metersPerPixelH, p.x);
    AxisRoundTrip(pixelY, cov.metersPerPixelV, p.y);
    assert RealWorldToPixel(m, c, p.x, p.y, altitude)
        == Some(Pixels(Trunc(p.x / cov.metersPerPixelH), Trunc(p.y / cov.metersPerPixelV)));
  }

  /** Both ground sample distances are non-zero when the footprint is not degenerate. */
  lemma SamplesNonZero(m: Elementary, c: VisionCalculator, altitude: real)
    requires c.imageWidth != 0 && c.imageHeight != 0
    requires altitude != 0.0 && m.tan(c.fovH / 2.0) != 0.0 && m.tan(c.fovV / 2.0) != 0.0
    ensures var cov := CalculateGroundCoverage(m, c, altitude).value;
            cov.metersPerPixelH != 0.0 && cov.metersPerPixelV != 0.0
  {
    NonZeroSample(altitude, m.tan(c.fovH / 2.0), c.imageWidth as real);
    NonZeroSample(altitude, m.tan(c.fovV / 2.0), c.imageHeight as real);
  }

  /** One axis of the round trip: an integer scaled by `s`, divided back and truncated. */
  lemma AxisRoundTrip(n: int, s: real, x: real)
    requires s != 0.0 && x == (n as real) * s
    ensures Trunc(x / s) == n
  {
    CancelScale(n as real, s);
    TruncOfInteger(n);
  }

  lemma NonZeroSample(altitude: real, t: real, n: real)
    requires altitude != 0.0 && t != 0.0 && n != 0.0
    ensures (2.0 * altitude * t) / n != 0.0
  {
    assert 2.0 * altitude != 0.0;
    assert 2.0 * altitude * t != 0.0 by { NonZeroProduct(2.0 * altitude, t); }
  }

  lemma NonZeroProduct(a: real, b: real)
    requires a != 0.0 && b != 0.0
    ensures a * b != 0.0
  {
  }

  lemma CancelScale(x: real, s: real)
    requires s != 0.0
    ensures (x * s) / s == x
  {
  }
}
