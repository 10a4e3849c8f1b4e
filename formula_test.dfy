/**
 * formula_test.py: the flat-earth north/east offset between two points,
 * with the east leg scaled by the cosine of the mean latitude.
 */
module FormulaTest {
  import opened Maths
  import opened DistanceCalculation

  /** The mean Earth radius the script uses, in metres. */
  const EarthRadius: real := 6371000.0

  /** `get_lat_lon_distance` of formula_test.py. */
  function FlatEarthNorthEast(m: Elementary, lat1: real, lon1: real, lat2: real, lon2: real): (r: NorthEast)
    ensures lon1 == lon2 ==> r.east == 0.0
    ensures lat1 == lat2 && lon1 == lon2 ==> r == NorthEast(0.0, 0.0)
    ensures lat2 > lat1 ==> r.north > 0.0
    ensures lat2 < lat1 ==> r.north < 0.0
  {
    var dLat := Radians(lat2 - lat1);
    var dLon := Radians(lon2 - lon1);
    NorthEast(dLat * EarthRadius, dLon * EarthRadius * m.cos(Radians((lat1 + lat2) / 2.0)))
  }

  /** The north leg reads only the latitudes. */
  lemma NorthOnlyFromLatitudes(m: Elementary, lat1: real, lon1: real, lat2: real, lon2: real, lon1': real, lon2': real)
    ensures FlatEarthNorthEast(m, lat1, lon1, lat2, lon2).north == FlatEarthNorthEast(m, lat1, lon1', lat2, lon2').north
  {
  }

  /** Measuring from the other end negates both legs. */
  lemma SwapNegates(m: Elementary, lat1: real, lon1: real, lat2: real, lon2: real)
    ensures var ab := FlatEarthNorthEast(m, lat1, lon1, lat2, lon2);
            var ba := FlatEarthNorthEast(m, lat2, lon2, lat1, lon1);
            ba.north == -ab.north && ba.east == -ab.east
  {
    assert (lat2 + lat1) / 2.0 == (lat1 + lat2) / 2.0;
  }
}
