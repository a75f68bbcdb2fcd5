/** Planar geometry shared by the airport queries (utils/geo_utils.py and the
    identical private helpers in airport_manager.py).

    Two things are deliberately abstract:
    - the spherical trigonometry (haversine distance, initial bearing and the
      lat/lon-to-meters conversion) is a parameter of type Earth, since it is
      floating-point code over the math library; nothing is assumed about it,
      in particular not that the conversion preserves distances;
    - square roots are never taken: a Euclidean distance is carried as its
      square (Dist.Sq), and every comparison the code makes on a distance is
      restated exactly on the square. */
module Geometry {
  import opened Common

  datatype LatLon = LatLon(lat: real, lon: real)
  datatype Planar = Planar(x: real, y: real)

  datatype Earth = Earth(
    toMeters: LatLon -> Planar,          // lat_lon_to_meters: R*cos(lat)*(cos lon, sin lon)
    haversine: (LatLon, LatLon) -> real, // great-circle distance in meters
    bearing: (LatLon, LatLon) -> real)   // initial great-circle heading in degrees

  /** Meters per degree used by every degree/meter conversion in the code. */
  const MetersPerDegree: real := 111000.0

  /** Real product, kept as a named function: the sign and expansion lemmas
      below are stated on it and so apply wherever a product is formed. */
  function Mul(a: real, b: real): real
  {
    a * b
  }

  /** A Euclidean distance, as its square, or the float('inf') sentinel. */
  datatype Dist = Sq(sq: real) | Inf

  /** `a < b` on distances (inf is never below anything). */
  predicate Less(a: Dist, b: Dist)
  {
    a.Sq? && (b.Inf? || a.sq < b.sq)
  }

  /** `d < limit`, for a distance whose square is d.sq >= 0. */
  predicate Shorter(d: Dist, limit: real)
  {
    d.Sq? && limit > 0.0 && d.sq < Mul(limit, limit)
  }

  /** `d <= limit`, for a distance whose square is d.sq >= 0. */
  predicate NoLongerThan(d: Dist, limit: real)
  {
    d.Sq? && limit >= 0.0 && d.sq <= Mul(limit, limit)
  }

  /** `d / 111000 <= limit`: a meter distance compared with a limit in degrees. */
  predicate WithinDegrees(d: Dist, limit: real)
  {
    NoLongerThan(d, MetersPerDegree * limit)
  }

  function Minus(a: Planar, b: Planar): Planar
  {
    Planar(a.x - b.x, a.y - b.y)
  }

  function Dot(u: Planar, v: Planar): real
  {
    Mul(u.x, v.x) + Mul(u.y, v.y)
  }

  /** The point a + t*v. */
  function PointAt(a: Planar, v: Planar, t: real): Planar
  {
    Planar(a.x + Mul(t, v.x), a.y + Mul(t, v.y))
  }

  /** Squared length of a - b. */
  function Gap(a: Planar, b: Planar): real
  {
    Dot(Minus(a, b), Minus(a, b))
  }

  /** `max(0, min(1, t))`. */
  function Clamp01(t: real): (r: real)
    ensures 0.0 <= r <= 1.0
    ensures 0.0 <= t <= 1.0 ==> r == t
    ensures t < 0.0 ==> r == 0.0
    ensures t > 1.0 ==> r == 1.0
  {
    Max(0.0, if 1.0 < t then 1.0 else t)
  }

  /** Projection parameter of p on the line a + t*(b - a), unclamped; only
      meaningful when a != b. */
  function LineParam(p: Planar, a: Planar, b: Planar): real
  {
    var len := Dot(Minus(b, a), Minus(b, a));
    if len == 0.0 then 0.0 else Dot(Minus(p, a), Minus(b, a)) / len
  }

  /** Distance from p to the closest point of the segment [a, b], all in
      planar meters; infinite for a zero-length segment. */
  function PlanarSegmentDistance(p: Planar, a: Planar, b: Planar): Dist
  {
    if Dot(Minus(b, a), Minus(b, a)) == 0.0 then Inf
    else Sq(Gap(p, PointAt(a, Minus(b, a), Clamp01(LineParam(p, a, b)))))
  }

  /** Distance from p to the (unbounded) line through a and b; infinite when
      the two points coincide. */
  function PlanarLineDistance(p: Planar, a: Planar, b: Planar): Dist
  {
    if Dot(Minus(b, a), Minus(b, a)) == 0.0 then Inf
    else Sq(Gap(p, PointAt(a, Minus(b, a), LineParam(p, a, b))))
  }

  /** distance_to_segment (and AirportManager._distance_to_segment): project
      the three points to meters, then measure in the plane. */
  function SegmentDistance(earth: Earth, pos: LatLon, start: LatLon, end: LatLon): Dist
  {
    PlanarSegmentDistance(earth.toMeters(pos), earth.toMeters(start), earth.toMeters(end))
  }

  /** Euclidean distance in degree space, as ParkingPosition.distance_to and
      HoldingPoint.distance_to compute it. */
  function DegreeDistance(a: LatLon, b: LatLon): Dist
  {
    Sq(Mul(a.lat - b.lat, a.lat - b.lat) + Mul(a.lon - b.lon, a.lon - b.lon))
  }

  // ---------------------------------------------------------------------
  // Arithmetic on Mul

  lemma MulOfPositives(a: real, b: real)
    requires a > 0.0 && b > 0.0
    ensures Mul(a, b) > 0.0
  {
  }

  lemma MulOfNegatives(a: real, b: real)
    requires a < 0.0 && b < 0.0
    ensures Mul(a, b) > 0.0
  {
  }

  /** A product of two factors of the same sign is not negative. */
  lemma MulSameSign(a: real, b: real)
    requires (!(a < 0.0) && !(b < 0.0)) || (!(a > 0.0) && !(b > 0.0))
    ensures !(Mul(a, b) < 0.0)
  {
  }

  lemma SquareSign(a: real)
    ensures !(Mul(a, a) < 0.0)
    ensures a != 0.0 ==> Mul(a, a) > 0.0
  {
    if a > 0.0 {
      MulOfPositives(a, a);
    } else if a < 0.0 {
      MulOfNegatives(a, a);
    } else {
      MulSameSign(a, a);
    }
  }

  lemma MulOfQuotient(k: real, len: real)
    requires len != 0.0
    ensures Mul(k / len, len) == k
  {
  }

  lemma MulCompare(a: real, b: real, len: real)
    requires len > 0.0
    ensures a < b ==> Mul(a, len) < Mul(b, len)
  {
    if a < b {
      MulOfPositives(b - a, len);
      assert Mul(b - a, len) == Mul(b, len) - Mul(a, len);
    }
  }

  lemma ScaledSquareSign(e: real, len: real)
    requires len > 0.0
    ensures !(Mul(e, Mul(e, len)) < 0.0)
  {
    if e < 0.0 {
      MulCompare(e, 0.0, len);
      assert Mul(0.0, len) == 0.0;
    } else {
      MulSameSign(e, len);
    }
    MulSameSign(e, Mul(e, len));
  }

  // ---------------------------------------------------------------------
  // Squared distances

  lemma DotSelfSign(d: Planar)
    ensures !(Dot(d, d) < 0.0)
    ensures d.x != 0.0 || d.y != 0.0 ==> Dot(d, d) > 0.0
  {
    SquareSign(d.x);
    SquareSign(d.y);
  }

  /** A squared distance is never negative, and is zero exactly between equal points. */
  lemma GapSign(a: Planar, b: Planar)
    ensures Gap(a, b) >= 0.0
    ensures Gap(a, b) == 0.0 <==> a == b
  {
    DotSelfSign(Minus(a, b));
  }

  lemma DegreeDistanceSign(a: LatLon, b: LatLon)
    ensures DegreeDistance(a, b).sq >= 0.0
    ensures DegreeDistance(a, b).sq == 0.0 <==> a == b
  {
    SquareSign(a.lat - b.lat);
    SquareSign(a.lon - b.lon);
  }

  /** The quadratic |w - x*v|^2 = g - 2*x*k + x*x*len, for g = |w|^2, k = w.v
      and len = |v|^2. */
  function Quadratic(g: real, k: real, len: real, x: real): real
  {
    g - 2.0 * Mul(x, k) + Mul(x, Mul(x, len))
  }

  lemma QuadraticDifference(g: real, k: real, len: real, t: real, s: real)
    ensures Quadratic(g, k, len, t) - Quadratic(g, k, len, s) == Mul(t - s, Mul(t + s, len) - 2.0 * k)
  {
  }

  lemma CoordinateExpansion(w: real, v: real, t: real)
    ensures Mul(w - Mul(t, v), w - Mul(t, v))
         == Mul(w, w) - 2.0 * Mul(t, Mul(w, v)) + Mul(t, Mul(t, Mul(v, v)))
  {
  }

  lemma MulDistributes(t: real, a: real, b: real)
    ensures Mul(t, a + b) == Mul(t, a) + Mul(t, b)
  {
  }

  /** The squared distance from p to a + t*v is a quadratic in t. */
  lemma GapAlongLine(p: Planar, a: Planar, v: Planar, t: real)
    ensures Gap(p, PointAt(a, v, t)) == Quadratic(Gap(p, a), Dot(Minus(p, a), v), Dot(v, v), t)
  {
    var w := Minus(p, a);
    assert Minus(p, PointAt(a, v, t)) == Planar(w.x - Mul(t, v.x), w.y - Mul(t, v.y));
    CoordinateExpansion(w.x, v.x, t);
    CoordinateExpansion(w.y, v.y, t);
    MulDistributes(t, Mul(w.x, v.x), Mul(w.y, v.y));
    MulDistributes(t, Mul(v.x, v.x), Mul(v.y, v.y));
    MulDistributes(t, Mul(t, Mul(v.x, v.x)), Mul(t, Mul(v.y, v.y)));
  }

  /** Over t in [0, 1], the quadratic is least at the clamped vertex k/len. */
  lemma ClampedVertexIsMinimal(g: real, k: real, len: real, t: real)
    requires len > 0.0 && 0.0 <= t <= 1.0
    ensures Quadratic(g, k, len, Clamp01(k / len)) <= Quadratic(g, k, len, t)
  {
    var c := k / len;
    var s := Clamp01(c);
    MulOfQuotient(k, len);
    QuadraticDifference(g, k, len, t, s);
    var m := Mul(t + s, len) - 2.0 * k;
    if c < 0.0 {
      // s = 0: the factor t*len - 2k is positive because k < 0
      MulCompare(c, 0.0, len);
      MulSameSign(t, len);
      MulSameSign(t - s, m);
    } else if c > 1.0 {
      // s = 1: (t - 1) <= 0 and (t + 1)*len - 2k < 0 because k > len
      MulCompare(1.0, c, len);
      MulCompare(t + s, 2.0, len);
      MulSameSign(2.0 - (t + s), len);
      assert Mul(2.0, len) - Mul(t + s, len) == Mul(2.0 - (t + s), len);
      MulSameSign(t - s, m);
    } else {
      // s = c: the difference is len*(t - c)^2
      assert Mul(t + s, len) - 2.0 * k == Mul(t - s, len);
      ScaledSquareSign(t - s, len);
    }
  }

  /** On the whole line, the quadratic is least at the vertex k/len. */
  lemma VertexIsMinimal(g: real, k: real, len: real, t: real)
    requires len > 0.0
    ensures Quadratic(g, k, len, k / len) <= Quadratic(g, k, len, t)
  {
    var c := k / len;
    MulOfQuotient(k, len);
    QuadraticDifference(g, k, len, t, c);
    assert Mul(t + c, len) - 2.0 * k == Mul(t - c, len);
    ScaledSquareSign(t - c, len);
  }

  // ---------------------------------------------------------------------
  // Properties of the segment distance

  /** The sentinel +inf comes back exactly for a segment whose two ends
      project to the same planar point; otherwise the result is a true square. */
  lemma SegmentDistanceInfIffDegenerate(p: Planar, a: Planar, b: Planar)
    ensures PlanarSegmentDistance(p, a, b).Inf? <==> a == b
    ensures PlanarSegmentDistance(p, a, b).Sq? ==> PlanarSegmentDistance(p, a, b).sq >= 0.0
  {
    GapSign(b, a);
    var t := Clamp01(LineParam(p, a, b));
    GapSign(p, PointAt(a, Minus(b, a), t));
  }

  /** A finite result is the distance to the point a + t*(b - a) of the
      segment, for the projection parameter t clamped into [0, 1]. */
  lemma SegmentDistanceIsToPointOnSegment(p: Planar, a: Planar, b: Planar)
    requires a != b
    ensures 0.0 <= Clamp01(LineParam(p, a, b)) <= 1.0
    ensures PlanarSegmentDistance(p, a, b)
         == Sq(Gap(p, PointAt(a, Minus(b, a), Clamp01(LineParam(p, a, b)))))
  {
    GapSign(b, a);
  }

  /** "The distance from a point to a line segment": no point of the segment
      is closer than the result. */
  lemma SegmentDistanceIsMinimal(p: Planar, a: Planar, b: Planar, t: real)
    requires a != b && 0.0 <= t <= 1.0
    ensures PlanarSegmentDistance(p, a, b).Sq?
    ensures PlanarSegmentDistance(p, a, b).sq <= Gap(p, PointAt(a, Minus(b, a), t))
  {
    var v := Minus(b, a);
    GapSign(b, a);
    var len := Dot(v, v);
    var k := Dot(Minus(p, a), v);
    assert LineParam(p, a, b) == k / len;
    GapAlongLine(p, a, v, t);
    GapAlongLine(p, a, v, Clamp01(k / len));
    ClampedVertexIsMinimal(Gap(p, a), k, len, t);
  }

  /** The perpendicular distance to the line is no more than the distance to
      any point of the line. */
  lemma LineDistanceIsMinimal(p: Planar, a: Planar, b: Planar, t: real)
    requires a != b
    ensures PlanarLineDistance(p, a, b).Sq?
    ensures PlanarLineDistance(p, a, b).sq <= Gap(p, PointAt(a, Minus(b, a), t))
  {
    var v := Minus(b, a);
    GapSign(b, a);
    var len := Dot(v, v);
    var k := Dot(Minus(p, a), v);
    assert LineParam(p, a, b) == k / len;
    GapAlongLine(p, a, v, t);
    GapAlongLine(p, a, v, k / len);
    VertexIsMinimal(Gap(p, a), k, len, t);
  }

  /** In particular the result never exceeds the distance to either end. */
  lemma SegmentDistanceAtMostEndpoints(p: Planar, a: Planar, b: Planar)
    requires a != b
    ensures PlanarSegmentDistance(p, a, b).Sq?
    ensures 0.0 <= PlanarSegmentDistance(p, a, b).sq <= Gap(p, a)
    ensures PlanarSegmentDistance(p, a, b).sq <= Gap(p, b)
  {
    var v := Minus(b, a);
    SegmentDistanceInfIffDegenerate(p, a, b);
    SegmentDistanceIsMinimal(p, a, b, 0.0);
    SegmentDistanceIsMinimal(p, a, b, 1.0);
    assert PointAt(a, v, 0.0) == a;
    assert PointAt(a, v, 1.0) == b;
  }

  /** A position on either end of a non-degenerate segment is at distance 0. */
  lemma SegmentDistanceZeroAtEndpoints(p: Planar, a: Planar, b: Planar)
    requires a != b && (p == a || p == b)
    ensures PlanarSegmentDistance(p, a, b) == Sq(0.0)
  {
    SegmentDistanceAtMostEndpoints(p, a, b);
    if p == a {
      GapSign(p, a);
    } else {
      GapSign(p, b);
    }
  }

  /** The clamped distance is never below the distance to the whole line. */
  lemma LineDistanceAtMostSegmentDistance(p: Planar, a: Planar, b: Planar)
    requires a != b
    ensures PlanarLineDistance(p, a, b).Sq? && PlanarSegmentDistance(p, a, b).Sq?
    ensures PlanarLineDistance(p, a, b).sq <= PlanarSegmentDistance(p, a, b).sq
  {
    GapSign(b, a);
    LineDistanceIsMinimal(p, a, b, Clamp01(LineParam(p, a, b)));
  }
}
