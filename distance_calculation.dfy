/**
 * optimization/distance_calculation.py (`CalculateDistance`) and the two
 * copies of the point-midpoint helper (that file and test_camera.py).
 * All of it is pure: static methods made of expressions and library calls.
 */
module DistanceCalculation {
  import opened Maths

  datatype NorthEastTotal = NorthEastTotal(north: real, east: real, total: real)

  datatype NorthEast = NorthEast(north: real, east: real)

  /** `get_turn_angle`: the initial azimuth from point 1 to point 2, in radians. */
  function GetTurnAngle(g: Geodesic, lat1: real, lon1: real, lat2: real, lon2: real): (rad: real)
    ensures Degrees(rad) == g.inverse(lat1, lon1, lat2, lon2).azi1
  {
    Radians(g.inverse(lat1, lon1, lat2, lon2).azi1)
  }

  /**
   * `get_lat_lon_distance`: the geodesic distance split into its north and
   * east components along the initial azimuth, which is the very angle
   * `get_turn_angle` reports.
   */
  function GetLatLonDistance(m: Elementary, g: Geodesic, lat1: real, lon1: real, lat2: real, lon2: real)
    : (r: NorthEastTotal)
    ensures r.total == g.inverse(lat1, lon1, lat2, lon2).s12
    ensures var a := GetTurnAngle(g, lat1, lon1, lat2, lon2);
            r.north == r.total * m.cos(a) && r.east == r.total * m.sin(a)
  {
    var sol := g.inverse(lat1, lon1, lat2, lon2);
    var azimuth := Radians(sol.azi1);
    NorthEastTotal(sol.s12 * m.cos(azimuth), sol.s12 * m.sin(azimuth), sol.s12)
  }

  /** The north/east split preserves length: north^2 + east^2 = total^2. */
  lemma NorthEastKeepsDistance(m: Elementary, g: Geodesic, lat1: real, lon1: real, lat2: real, lon2: real)
    requires PythagoreanIdentity(m)
    ensures var r := GetLatLonDistance(m, g, lat1, lon1, lat2, lon2);
            r.north * r.north + r.east * r.east == r.total * r.total
  {
    var r := GetLatLonDistance(m, g, lat1, lon1, lat2, lon2);
    var a := GetTurnAngle(g, lat1, lon1, lat2, lon2);
    var c, s, t := m.cos(a), m.sin(a), r.total;
    assert s * s + c * c == 1.0;
    calc {
      r.north * r.north + r.east * r.east;
      (t * c) * (t * c) + (t * s) * (t * s);
      t * t * (c * c + s * s);
      t * t;
    }
  }

  /** `find_vectors`: polar (metres, degrees clockwise from north) to north/east. */
  function FindVectors(m: Elementary, meters: real, angleDeg: real): (r: NorthEast)
    ensures r.north == meters * m.cos(Radians(angleDeg)) && r.east == meters * m.sin(Radians(angleDeg))
  {
    var angle := Radians(angleDeg);
    NorthEast(meters * m.cos(angle), meters * m.sin(angle))
  }

  /** Heading due north puts the whole length on the north axis. */
  lemma FindVectorsNorth(m: Elementary, meters: real)
    requires ZeroAngle(m)
    ensures FindVectors(m, meters, 0.0) == NorthEast(meters, 0.0)
  {
    assert Radians(0.0) == 0.0;
  }

  /** The vector has the requested length: north^2 + east^2 = meters^2. */
  lemma FindVectorsLength(m: Elementary, meters: real, angleDeg: real)
    requires PythagoreanIdentity(m)
    ensures var r := FindVectors(m, meters, angleDeg);
            r.north * r.north + r.east * r.east == meters * meters
  {
    var a := Radians(angleDeg);
    var c, s := m.cos(a), m.sin(a);
    assert s * s + c * c == 1.0;
    calc {
      (meters * c) * (meters * c) + (meters * s) * (meters * s);
      meters * meters * (c * c + s * s);
      meters * meters;
    }
  }

  /** `get_lat_lon_distance` and `find_vectors` agree: the split is the polar vector at the azimuth. */
  lemma DistanceIsPolarVector(m: Elementary, g: Geodesic, lat1: real, lon1: real, lat2: real, lon2: real)
    ensures var r := GetLatLonDistance(m, g, lat1, lon1, lat2, lon2);
            var sol := g.inverse(lat1, lon1, lat2, lon2);
            FindVectors(m, sol.s12, sol.azi1) == NorthEast(r.north, r.east)
  {
  }

  /**
   * `find_target_position_by_velocity_and_yaw`: the point `velocity` metres
   * from (lat, lon) on bearing `yaw`; the north/east split it also computes
   * is discarded.
   */
  function FindTargetPositionByVelocityAndYaw(m: Elementary, g: Geodesic, lat: real, lon: real, velocity: real, yaw: real)
    : (r: LatLon)
  {
    var _ := FindVectors(m, velocity, yaw);
    g.direct(lat, lon, yaw, velocity)
  }

  /** The target depends only on the geodesic solver, not on the trigonometry used for the unused split. */
  lemma TargetIgnoresSplit(m1: Elementary, m2: Elementary, g: Geodesic, lat: real, lon: real, velocity: real, yaw: real)
    ensures FindTargetPositionByVelocityAndYaw(m1, g, lat, lon, velocity, yaw)
         == FindTargetPositionByVelocityAndYaw(m2, g, lat, lon, velocity, yaw)
         == g.direct(lat, lon, yaw, velocity)
  {
  }

  /**
   * `find_middle_of_two_points` (also test_camera.py): the component-wise
   * arithmetic mean, i.e. the point equally far from both inputs in each
   * coordinate.
   */
  function FindMiddleOfTwoPoints(lat1: real, lon1: real, lat2: real, lon2: real): (r: LatLon)
    ensures r.lat - lat1 == lat2 - r.lat && r.lon - lon1 == lon2 - r.lon
  {
    LatLon((lat1 + lat2) / 2.0, (lon1 + lon2) / 2.0)
  }

  /** The midpoint does not depend on the order of the two points. */
  lemma MiddleSymmetric(lat1: real, lon1: real, lat2: real, lon2: real)
    ensures FindMiddleOfTwoPoints(lat1, lon1, lat2, lon2) == FindMiddleOfTwoPoints(lat2, lon2, lat1, lon1)
  {
  }

  /** The midpoint of a point with itself is that point. */
  lemma MiddleOfSamePoint(lat: real, lon: real)
    ensures FindMiddleOfTwoPoints(lat, lon, lat, lon) == LatLon(lat, lon)
  {
  }

  /** Each coordinate of the midpoint lies between the corresponding inputs. */
  lemma MiddleBetween(lat1: real, lon1: real, lat2: real, lon2: real)
    ensures var r := FindMiddleOfTwoPoints(lat1, lon1, lat2, lon2);
            (lat1 <= r.lat <= lat2 || lat2 <= r.lat <= lat1) &&
            (lon1 <= r.lon <= lon2 || lon2 <= r.lon <= lon1)
  {
  }

  /** The midpoint latitude depends only on latitudes and the longitude only on longitudes. */
  lemma MiddleSeparable(lat1: real, lon1: real, lat2: real, lon2: real, lon1': real, lon2': real, lat1': real, lat2': real)
    ensures FindMiddleOfTwoPoints(lat1, lon1, lat2, lon2).lat == FindMiddleOfTwoPoints(lat1, lon1', lat2, lon2').lat
    ensures FindMiddleOfTwoPoints(lat1, lon1, lat2, lon2).lon == FindMiddleOfTwoPoints(lat1', lon1, lat2', lon2).lon
  {
  }
}
