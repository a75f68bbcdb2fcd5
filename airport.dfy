/** The airport layout and its spatial queries (airport_manager.py).

    The layout is the already-loaded value (file and JSON loading are not
    part of this model); every query reads it and changes nothing.  The
    planar geometry comes from module Geometry; distances in meters are kept
    squared and distances in degrees are compared squared as well. */
module Airport {
  import opened Common
  import opened Geometry

  datatype Runway = Runway(
    name: string,
    threshold1: LatLon,
    threshold2: LatLon,
    width: real,                 // meters
    length: real,                // meters
    headingGiven: Option<real>)  // the optional `heading` constructor argument

  datatype TaxiwaySegment = TaxiwaySegment(start: LatLon, end: LatLon, width: real)

  datatype Taxiway = Taxiway(name: string, segments: seq<TaxiwaySegment>)

  datatype ParkingPosition = ParkingPosition(
    name: string, coords: LatLon, kind: string, elevation: real, heading: real, size: real)

  datatype HoldingPoint = HoldingPoint(name: string, coords: LatLon, associatedWith: string)

  datatype Layout = Layout(
    name: string,
    icao: string,
    runways: seq<Runway>,
    taxiways: seq<Taxiway>,
    parkingPositions: seq<ParkingPosition>,
    holdingPoints: seq<HoldingPoint>)

  /** The effective threshold of is_on_runway and get_nearest_taxiway: the
      larger of the given threshold and half the width, both in degrees. */
  function Allowance(threshold: real, widthMeters: real): (r: real)
    ensures r >= threshold && r >= widthMeters / MetersPerDegree / 2.0
  {
    Max(threshold, widthMeters / MetersPerDegree / 2.0)
  }

  /** Default thresholds of the query methods, in degrees. */
  const ParkingThreshold: real := 0.0002
  const TaxiwayThreshold: real := 0.0002
  const HoldingThreshold: real := 0.002
  const RunwayThreshold: real := 0.002

  // ---------------------------------------------------------------------
  // Record methods

  /** Runway.heading: the heading given at construction, else the bearing
      from the first threshold to the second. */
  function RunwayHeading(earth: Earth, r: Runway): (h: real)
    ensures r.headingGiven.Some? ==> h == r.headingGiven.value
    ensures r.headingGiven.None? ==> h == earth.bearing(r.threshold1, r.threshold2)
  {
    match r.headingGiven
    case Some(given) => given
    case None => earth.bearing(r.threshold1, r.threshold2)
  }

  /** Runway.distance_to_center: distance from pos to the unbounded centre
      line through the two thresholds, +inf for a zero-length runway. */
  function DistanceToCenter(earth: Earth, r: Runway, pos: LatLon): Dist
  {
    PlanarLineDistance(earth.toMeters(pos), earth.toMeters(r.threshold1), earth.toMeters(r.threshold2))
  }

  lemma DistanceToCenterIsPerpendicular(earth: Earth, r: Runway, pos: LatLon, t: real)
    ensures var a := earth.toMeters(r.threshold1);
            var b := earth.toMeters(r.threshold2);
            (DistanceToCenter(earth, r, pos).Inf? <==> a == b)
            && (a != b ==> DistanceToCenter(earth, r, pos).sq <= Gap(earth.toMeters(pos), PointAt(a, Minus(b, a), t)))
            && (a != b ==> DistanceToCenter(earth, r, pos).sq <= SegmentDistance(earth, pos, r.threshold1, r.threshold2).sq)
  {
    var p := earth.toMeters(pos);
    var a := earth.toMeters(r.threshold1);
    var b := earth.toMeters(r.threshold2);
    GapSign(b, a);
    if a != b {
      LineDistanceIsMinimal(p, a, b, t);
      LineDistanceAtMostSegmentDistance(p, a, b);
    }
  }

  /** ParkingPosition.distance_to, in degrees. */
  function ParkingDistance(stand: ParkingPosition, pos: LatLon): (d: Dist)
    ensures d.Sq? && d.sq >= 0.0
    ensures d.sq == 0.0 <==> stand.coords == pos
  {
    DegreeDistanceSign(stand.coords, pos);
    DegreeDistance(stand.coords, pos)
  }

  /** HoldingPoint.distance_to, in degrees. */
  function HoldingDistance(hp: HoldingPoint, pos: LatLon): (d: Dist)
    ensures d.Sq? && d.sq >= 0.0
    ensures d.sq == 0.0 <==> hp.coords == pos
  {
    DegreeDistanceSign(hp.coords, pos);
    DegreeDistance(hp.coords, pos)
  }

  // ---------------------------------------------------------------------
  // get_nearest_parking, get_active_runway, is_at_holding_point

  /** The squared distance of each stand, the sort key of get_nearest_parking.
      The ensures restate the comprehension: the callers' proofs need them. */
  function ParkingKeys(stands: seq<ParkingPosition>, pos: LatLon): (keys: seq<real>)
    ensures |keys| == |stands|
    ensures forall i :: 0 <= i < |stands| ==> keys[i] == ParkingDistance(stands[i], pos).sq
  {
    seq(|stands|, i requires 0 <= i < |stands| => ParkingDistance(stands[i], pos).sq)
  }

  /** get_nearest_parking: the first stand among the nearest, if it lies
      within `threshold` degrees. */
  function GetNearestParking(layout: Layout, pos: LatLon, threshold: real): (r: Option<ParkingPosition>)
    ensures layout.parkingPositions == [] ==> r.None?
    ensures r.Some? ==> NoLongerThan(ParkingDistance(r.value, pos), threshold)
    ensures r.Some? ==> exists i :: (0 <= i < |layout.parkingPositions| && layout.parkingPositions[i] == r.value
      && (forall j :: 0 <= j < |layout.parkingPositions| ==>
            ParkingDistance(r.value, pos).sq <= ParkingDistance(layout.parkingPositions[j], pos).sq)
      && (forall j :: 0 <= j < i ==>
            ParkingDistance(r.value, pos).sq < ParkingDistance(layout.parkingPositions[j], pos).sq))
    ensures r.None? ==> forall j :: 0 <= j < |layout.parkingPositions| ==>
      !NoLongerThan(ParkingDistance(layout.parkingPositions[j], pos), threshold)
  {
    var stands := layout.parkingPositions;
    if stands == [] then None
    else
      var keys := ParkingKeys(stands, pos);
      var k := FirstArgMin(keys);
      if NoLongerThan(ParkingDistance(stands[k], pos), threshold) then Some(stands[k]) else None
  }

  /** The sort key of get_active_runway: (heading - wind) mod 360. */
  function WindKey(earth: Earth, r: Runway, wind: real): real
  {
    FloorMod(RunwayHeading(earth, r) - wind, 360.0)
  }

  /** The wind key of each runway. The ensures restate the comprehension:
      the callers' proofs need them. */
  function WindKeys(earth: Earth, runways: seq<Runway>, wind: real): (keys: seq<real>)
    ensures |keys| == |runways|
    ensures forall i :: 0 <= i < |runways| ==> keys[i] == WindKey(earth, runways[i], wind)
  {
    seq(|runways|, i requires 0 <= i < |runways| => WindKey(earth, runways[i], wind))
  }

  /** get_active_runway: the first runway whose heading is closest to the
      wind direction, measured as (heading - wind) mod 360 in [0, 360). */
  function GetActiveRunway(earth: Earth, layout: Layout, wind: real): (r: Option<Runway>)
    ensures r.None? <==> layout.runways == []
    ensures r.Some? ==> 0.0 <= WindKey(earth, r.value, wind) < 360.0
    ensures r.Some? ==> exists i :: (0 <= i < |layout.runways| && layout.runways[i] == r.value
      && (forall j :: 0 <= j < |layout.runways| ==>
            WindKey(earth, r.value, wind) <= WindKey(earth, layout.runways[j], wind))
      && (forall j :: 0 <= j < i ==>
            WindKey(earth, r.value, wind) < WindKey(earth, layout.runways[j], wind)))
  {
    if layout.runways == [] then None
    else
      var k := FirstArgMin(WindKeys(earth, layout.runways, wind));
      Some(layout.runways[k])
  }

  /** The bounding-box test of is_at_holding_point (not a radius). */
  predicate InHoldingBox(hp: HoldingPoint, pos: LatLon, threshold: real)
  {
    Abs(hp.coords.lat - pos.lat) <= threshold && Abs(hp.coords.lon - pos.lon) <= threshold
  }

  /** is_at_holding_point: the first holding point, in list order, whose box
      of half-side `threshold` degrees contains pos. */
  function IsAtHoldingPoint(hps: seq<HoldingPoint>, pos: LatLon, threshold: real): (r: Option<HoldingPoint>)
    ensures r.None? <==> forall i :: 0 <= i < |hps| ==> !InHoldingBox(hps[i], pos, threshold)
    ensures r.Some? ==> exists i :: (0 <= i < |hps| && hps[i] == r.value
      && InHoldingBox(hps[i], pos, threshold)
      && forall j :: 0 <= j < i ==> !InHoldingBox(hps[j], pos, threshold))
  {
    if hps == [] then None
    else if InHoldingBox(hps[0], pos, threshold) then Some(hps[0])
    else
      var r := IsAtHoldingPoint(hps[1..], pos, threshold);
      assert forall i :: 1 <= i < |hps| ==> hps[i] == hps[1..][i - 1];
      r
  }

  // ---------------------------------------------------------------------
  // is_on_runway

  /** is_on_runway: between the thresholds (projection parameter in [0, 1])
      and within max(threshold, width/2) degrees of the centre line. */
  predicate IsOnRunway(earth: Earth, pos: LatLon, runway: Option<Runway>, threshold: real)
  {
    runway.Some? &&
    var p := earth.toMeters(pos);
    var a := earth.toMeters(runway.value.threshold1);
    var b := earth.toMeters(runway.value.threshold2);
    Dot(Minus(b, a), Minus(b, a)) != 0.0 &&
    var t := LineParam(p, a, b);
    !(t < 0.0 || t > 1.0) &&
    WithinDegrees(PlanarLineDistance(p, a, b), Allowance(threshold, runway.value.width))
  }

  /** is_on_runway agrees with distance_to_segment over the runway: between
      the thresholds the clamped and the perpendicular distances coincide. */
  lemma IsOnRunwayMeansNearCenterSegment(earth: Earth, pos: LatLon, runway: Runway, threshold: real)
    ensures var p := earth.toMeters(pos);
            var a := earth.toMeters(runway.threshold1);
            var b := earth.toMeters(runway.threshold2);
            IsOnRunway(earth, pos, Some(runway), threshold)
            <==> a != b && 0.0 <= LineParam(p, a, b) <= 1.0
                 && WithinDegrees(SegmentDistance(earth, pos, runway.threshold1, runway.threshold2),
                                  Allowance(threshold, runway.width))
  {
    var a := earth.toMeters(runway.threshold1);
    var b := earth.toMeters(runway.threshold2);
    GapSign(b, a);
  }

  /** A zero-length runway is never occupied, and is_on_runway implies the
      centre-line distance check it performs. */
  lemma IsOnRunwayFalseCases(earth: Earth, pos: LatLon, runway: Option<Runway>, threshold: real)
    ensures runway.None? ==> !IsOnRunway(earth, pos, runway, threshold)
    ensures runway.Some? && earth.toMeters(runway.value.threshold1) == earth.toMeters(runway.value.threshold2)
            ==> !IsOnRunway(earth, pos, runway, threshold)
    ensures runway.Some? && IsOnRunway(earth, pos, runway, threshold)
            ==> WithinDegrees(DistanceToCenter(earth, runway.value, pos),
                              Allowance(threshold, runway.value.width))
  {
    if runway.Some? {
      var a := earth.toMeters(runway.value.threshold1);
      var b := earth.toMeters(runway.value.threshold2);
      if a == b {
        GapSign(b, a);
        assert Dot(Minus(b, a), Minus(b, a)) == 0.0;
      }
    }
  }

  // ---------------------------------------------------------------------
  // Segment scans: Taxiway.distance_to, _find_nearest_taxiway_segment,
  // get_nearest_taxiway
  //
  // The scans are stated over any per-segment distance `m`; the layout
  // queries instantiate it with SegmentMeasure, the model of
  // _distance_to_segment.  What the scans promise (first strict minimum,
  // nothing nearer) does not depend on how a segment's distance is computed.

  /** _distance_to_segment: +inf for a segment whose ends project to the
      same point, else the clamped projection distance. */
  function SegmentDist(earth: Earth, pos: LatLon, s: TaxiwaySegment): Dist
  {
    SegmentDistance(earth, pos, s.start, s.end)
  }

  /** A segment's distance from a fixed position. */
  type Measure = TaxiwaySegment -> Dist

  function SegmentMeasure(earth: Earth, pos: LatLon): Measure
  {
    s => SegmentDist(earth, pos, s)
  }

  /** A segment whose two ends project to the same planar point. */
  predicate Degenerate(earth: Earth, s: TaxiwaySegment)
  {
    earth.toMeters(s.start) == earth.toMeters(s.end)
  }

  /** _distance_to_segment answers +inf exactly for a degenerate segment. */
  lemma SegmentDistInfIffDegenerate(earth: Earth, pos: LatLon, s: TaxiwaySegment)
    ensures SegmentMeasure(earth, pos)(s).Inf? <==> Degenerate(earth, s)
    ensures SegmentMeasure(earth, pos)(s).Sq? ==> SegmentMeasure(earth, pos)(s).sq >= 0.0
  {
    SegmentDistanceInfIffDegenerate(earth.toMeters(pos), earth.toMeters(s.start), earth.toMeters(s.end));
  }

  /** One scanned segment: taxiway index, segment index and distance. */
  datatype Hit = Hit(taxiway: nat, segment: nat, d: Dist)

  /** The hits of one taxiway's segments, in order. The ensures restate the
      comprehension: the callers' proofs need them. */
  function SegmentHits(m: Measure, ti: nat, segs: seq<TaxiwaySegment>): (hs: seq<Hit>)
    ensures |hs| == |segs|
    ensures forall k :: 0 <= k < |segs| ==> hs[k] == Hit(ti, k, m(segs[k]))
  {
    seq(|segs|, k requires 0 <= k < |segs| => Hit(ti, k, m(segs[k])))
  }

  /** Every segment of every taxiway, in the order the nested loops visit them. */
  function Hits(m: Measure, ts: seq<Taxiway>): (hs: seq<Hit>)
    ensures forall k :: 0 <= k < |hs| ==>
      hs[k].taxiway < |ts| && hs[k].segment < |ts[hs[k].taxiway].segments|
      && hs[k].d == m(ts[hs[k].taxiway].segments[hs[k].segment])
  {
    if ts == [] then []
    else
      var init := ts[..|ts| - 1];
      var hs := Hits(m, init);
      assert forall i :: 0 <= i < |init| ==> init[i] == ts[i];
      hs + SegmentHits(m, |ts| - 1, ts[|ts| - 1].segments)
  }

  lemma {:induction false} HitsCoverEverySegment(m: Measure, ts: seq<Taxiway>, ti: nat, si: nat)
    requires ti < |ts| && si < |ts[ti].segments|
    ensures exists k :: 0 <= k < |Hits(m, ts)| && Hits(m, ts)[k] == Hit(ti, si, m(ts[ti].segments[si]))
    decreases |ts|
  {
    var init := ts[..|ts| - 1];
    var hs := Hits(m, init);
    var tail := SegmentHits(m, |ts| - 1, ts[|ts| - 1].segments);
    assert Hits(m, ts) == hs + tail;
    if ti == |ts| - 1 {
      assert Hits(m, ts)[|hs| + si] == tail[si];
    } else {
      assert init[ti] == ts[ti];
      HitsCoverEverySegment(m, init, ti, si);
      var k :| 0 <= k < |hs| && hs[k] == Hit(ti, si, m(ts[ti].segments[si]));
      assert Hits(m, ts)[k] == hs[k];
    }
  }

  /** Index of the hit a `if distance < min_distance` scan ends on, starting
      from +inf: the first finite distance that no later one undercuts. */
  function FirstNearest(hs: seq<Hit>): (r: Option<nat>)
    ensures r.None? <==> forall k :: 0 <= k < |hs| ==> hs[k].d.Inf?
    ensures r.Some? ==> r.value < |hs| && hs[r.value].d.Sq?
    ensures r.Some? ==> forall k :: 0 <= k < |hs| ==> !Less(hs[k].d, hs[r.value].d)
    ensures r.Some? ==> forall k :: 0 <= k < r.value ==> Less(hs[r.value].d, hs[k].d)
  {
    if hs == [] then None
    else
      var init := hs[..|hs| - 1];
      var b := FirstNearest(init);
      var last := hs[|hs| - 1];
      assert forall k :: 0 <= k < |init| ==> init[k] == hs[k];
      if Less(last.d, if b.None? then Inf else hs[b.value].d) then Some(|hs| - 1) else b
  }

  /** The hit the scan keeps, and its distance (+inf when none). */
  function Best(hs: seq<Hit>): Option<Hit>
  {
    var f := FirstNearest(hs);
    if f.None? then None else Some(hs[f.value])
  }

  function BestDist(hs: seq<Hit>): Dist
  {
    var b := Best(hs);
    if b.None? then Inf else b.value.d
  }

  /** One step of the scan: a hit replaces the kept one only when strictly nearer. */
  lemma BestStep(hs: seq<Hit>, h: Hit)
    ensures Best(hs + [h]) == if Less(h.d, BestDist(hs)) then Some(h) else Best(hs)
    ensures BestDist(hs + [h]) == if Less(h.d, BestDist(hs)) then h.d else BestDist(hs)
  {
    assert (hs + [h])[..|hs|] == hs;
  }

  /** Taxiway.distance_to as a specification: the least segment distance. */
  function DistanceBy(m: Measure, tw: Taxiway): Dist
  {
    BestDist(SegmentHits(m, 0, tw.segments))
  }

  function TaxiwayDistance(earth: Earth, tw: Taxiway, pos: LatLon): Dist
  {
    DistanceBy(SegmentMeasure(earth, pos), tw)
  }

  /** A taxiway is at +inf distance exactly when every one of its segments
      is (with SegmentMeasure: exactly when every segment is degenerate). */
  lemma TaxiwayDistanceInfIffAllInf(m: Measure, tw: Taxiway)
    ensures DistanceBy(m, tw).Inf? <==> forall k :: 0 <= k < |tw.segments| ==> m(tw.segments[k]).Inf?
  {
    var hs := SegmentHits(m, 0, tw.segments);
    assert forall k :: 0 <= k < |tw.segments| ==> hs[k].d == m(tw.segments[k]);
  }

  /** Otherwise it is the distance of one of its segments, and no segment
      is nearer. */
  lemma TaxiwayDistanceIsLeast(m: Measure, tw: Taxiway)
    ensures DistanceBy(m, tw).Sq? ==>
      (exists k :: 0 <= k < |tw.segments| && m(tw.segments[k]) == DistanceBy(m, tw))
      && forall k :: 0 <= k < |tw.segments| ==> !Less(m(tw.segments[k]), DistanceBy(m, tw))
  {
    var hs := SegmentHits(m, 0, tw.segments);
    BestDistIsLeast(hs);
    if FirstNearest(hs).Some? {
      var f := FirstNearest(hs).value;
      assert m(tw.segments[f]) == hs[f].d;
    }
  }

  /** A finite kept distance is that of the hit kept, and no hit is nearer. */
  lemma BestDistIsLeast(hs: seq<Hit>)
    ensures BestDist(hs).Sq? ==> FirstNearest(hs).Some? && hs[FirstNearest(hs).value].d == BestDist(hs)
    ensures forall k :: 0 <= k < |hs| ==> !Less(hs[k].d, BestDist(hs))
  {
  }

  lemma SegmentHitsStep(m: Measure, ti: nat, segs: seq<TaxiwaySegment>, j: nat)
    requires j < |segs|
    ensures SegmentHits(m, ti, segs[..j + 1]) == SegmentHits(m, ti, segs[..j]) + [Hit(ti, j, m(segs[j]))]
  {
  }

  lemma HitsStep(m: Measure, ts: seq<Taxiway>, i: nat)
    requires i < |ts|
    ensures Hits(m, ts[..i + 1]) == Hits(m, ts[..i]) + SegmentHits(m, i, ts[i].segments)
  {
    assert ts[..i + 1][..i] == ts[..i];
  }

  /** Taxiway.distance_to: the loop over the segments, skipping those of
      zero length and keeping a strictly smaller distance. */
  method TaxiwayDistanceTo(earth: Earth, tw: Taxiway, pos: LatLon) returns (minDistance: Dist)
    ensures minDistance == TaxiwayDistance(earth, tw, pos)
  {
    ghost var m := SegmentMeasure(earth, pos);
    minDistance := Inf;
    var segs := tw.segments;
    var j := 0;
    while j < |segs|
      invariant 0 <= j <= |segs|
      invariant minDistance == BestDist(SegmentHits(m, 0, segs[..j]))
    {
      var p := earth.toMeters(pos);
      var a := earth.toMeters(segs[j].start);
      var b := earth.toMeters(segs[j].end);
      ghost var h := Hit(0, j, m(segs[j]));
      SegmentHitsStep(m, 0, segs, j);
      BestStep(SegmentHits(m, 0, segs[..j]), h);
      if Dot(Minus(b, a), Minus(b, a)) == 0.0 {
        j := j + 1;
        continue;
      }
      var distance := PlanarSegmentDistance(p, a, b);
      if Less(distance, minDistance) {
        minDistance := distance;
      }
      j := j + 1;
    }
    assert segs[..j] == segs;
  }

  /** The inner loop of the scan: the segments of taxiway `ti`, continuing
      from what the scan kept over the hits `before`. */
  method ScanTaxiway(earth: Earth, pos: LatLon, ti: nat, segs: seq<TaxiwaySegment>, ghost before: seq<Hit>,
                     nearest0: Option<Hit>, minDistance0: Dist) returns (nearest: Option<Hit>, minDistance: Dist)
    requires nearest0 == Best(before) && minDistance0 == BestDist(before)
    ensures nearest == Best(before + SegmentHits(SegmentMeasure(earth, pos), ti, segs))
    ensures minDistance == BestDist(before + SegmentHits(SegmentMeasure(earth, pos), ti, segs))
  {
    ghost var m := SegmentMeasure(earth, pos);
    nearest, minDistance := nearest0, minDistance0;
    ghost var seen := before;
    var j := 0;
    while j < |segs|
      invariant 0 <= j <= |segs|
      invariant seen == before + SegmentHits(m, ti, segs[..j])
      invariant nearest == Best(seen) && minDistance == BestDist(seen)
    {
      var distance := SegmentDist(earth, pos, segs[j]);
      assert distance == m(segs[j]);
      BestStep(seen, Hit(ti, j, distance));
      if Less(distance, minDistance) {
        minDistance := distance;
        nearest := Some(Hit(ti, j, distance));
      }
      SegmentHitsStep(m, ti, segs, j);
      seen := seen + [Hit(ti, j, distance)];
      j := j + 1;
    }
    assert segs[..j] == segs;
  }

  /** The nested scan shared by _find_nearest_taxiway_segment and
      get_nearest_taxiway: every segment of every taxiway in order, keeping
      a strictly nearer one. */
  method ScanSegments(earth: Earth, ts: seq<Taxiway>, pos: LatLon) returns (nearest: Option<Hit>, minDistance: Dist)
    ensures nearest == Best(Hits(SegmentMeasure(earth, pos), ts))
    ensures minDistance == BestDist(Hits(SegmentMeasure(earth, pos), ts))
  {
    ghost var m := SegmentMeasure(earth, pos);
    nearest := None;
    minDistance := Inf;
    ghost var seen: seq<Hit> := [];
    var i := 0;
    while i < |ts|
      invariant 0 <= i <= |ts|
      invariant seen == Hits(m, ts[..i])
      invariant nearest == Best(seen) && minDistance == BestDist(seen)
    {
      var segs := ts[i].segments;
      nearest, minDistance := ScanTaxiway(earth, pos, i, segs, seen, nearest, minDistance);
      seen := seen + SegmentHits(m, i, segs);
      HitsStep(m, ts, i);
      i := i + 1;
    }
    assert ts[..i] == ts;
  }

  /** The reference _find_nearest_taxiway_segment returns: the taxiway name,
      the segment index and the distance in meters. */
  datatype SegmentRef = SegmentRef(taxiway: string, index: nat, distance: Dist)

  function NearestSegmentBy(m: Measure, ts: seq<Taxiway>): Option<SegmentRef>
  {
    var hs := Hits(m, ts);
    var f := FirstNearest(hs);
    if f.None? then None
    else
      var h := hs[f.value];
      Some(SegmentRef(ts[h.taxiway].name, h.segment, h.d))
  }

  function NearestSegment(earth: Earth, ts: seq<Taxiway>, pos: LatLon): Option<SegmentRef>
  {
    NearestSegmentBy(SegmentMeasure(earth, pos), ts)
  }

  /** The segment found is a real one, finite, and no segment of any
      taxiway is strictly nearer; there is none exactly when every segment
      is at +inf. */
  lemma NearestSegmentIsNearest(m: Measure, ts: seq<Taxiway>)
    ensures NearestSegmentBy(m, ts).None? <==>
      forall ti, si :: 0 <= ti < |ts| && 0 <= si < |ts[ti].segments| ==> m(ts[ti].segments[si]).Inf?
    ensures NearestSegmentBy(m, ts).Some? ==>
      NearestSegmentBy(m, ts).value.distance.Sq?
      && (exists ti :: 0 <= ti < |ts| && ts[ti].name == NearestSegmentBy(m, ts).value.taxiway
            && NearestSegmentBy(m, ts).value.index < |ts[ti].segments|
            && m(ts[ti].segments[NearestSegmentBy(m, ts).value.index]) == NearestSegmentBy(m, ts).value.distance)
      && forall ti, si :: 0 <= ti < |ts| && 0 <= si < |ts[ti].segments| ==>
            !Less(m(ts[ti].segments[si]), NearestSegmentBy(m, ts).value.distance)
  {
    var hs := Hits(m, ts);
    forall ti, si | 0 <= ti < |ts| && 0 <= si < |ts[ti].segments|
      ensures exists k :: 0 <= k < |hs| && hs[k] == Hit(ti, si, m(ts[ti].segments[si]))
    {
      HitsCoverEverySegment(m, ts, ti, si);
    }
    var f := FirstNearest(hs);
    if f.Some? {
      var h := hs[f.value];
      assert 0 <= h.taxiway < |ts| && ts[h.taxiway].name == NearestSegmentBy(m, ts).value.taxiway;
    }
  }

  /** The taxiway named in a nearest segment is one of the layout's. */
  lemma NearestSegmentIsNamed(m: Measure, ts: seq<Taxiway>)
    ensures NearestSegmentBy(m, ts).Some? ==> NearestSegmentBy(m, ts).value.taxiway in Names(ts)
  {
    var hs := Hits(m, ts);
    var f := FirstNearest(hs);
    if f.Some? {
      var i := hs[f.value].taxiway;
      assert ts[i].name in Names(ts);
    }
  }

  /** _find_nearest_taxiway_segment. */
  method FindNearestTaxiwaySegment(earth: Earth, layout: Layout, pos: LatLon) returns (r: Option<SegmentRef>)
    ensures r == NearestSegment(earth, layout.taxiways, pos)
  {
    var nearest, _ := ScanSegments(earth, layout.taxiways, pos);
    if nearest.None? {
      return None;
    }
    var h := nearest.value;
    r := Some(SegmentRef(layout.taxiways[h.taxiway].name, h.segment, h.d));
  }

  /** get_nearest_taxiway as a specification: the taxiway owning the nearest
      segment, if that distance in degrees is within max(threshold, width/2)
      where width is the first segment's width. */
  function NearestTaxiwayBy(m: Measure, ts: seq<Taxiway>, threshold: real): Option<Taxiway>
  {
    var hs := Hits(m, ts);
    var f := FirstNearest(hs);
    if ts == [] || f.None? then None
    else
      var h := hs[f.value];
      var tw := ts[h.taxiway];
      if WithinDegrees(h.d, Allowance(threshold, tw.segments[0].width)) then Some(tw) else None
  }

  function NearestTaxiway(earth: Earth, layout: Layout, pos: LatLon, threshold: real): Option<Taxiway>
  {
    NearestTaxiwayBy(SegmentMeasure(earth, pos), layout.taxiways, threshold)
  }

  /** A taxiway found owns a segment within the allowance that no segment
      of any taxiway undercuts; none is found when no segment is finite.
      When a nearest segment exists, the taxiway found is the one owning it,
      and one is found exactly when that segment's distance is within the
      owner's allowance. */
  lemma NearestTaxiwayIsNearest(m: Measure, ts: seq<Taxiway>, threshold: real)
    ensures NearestTaxiwayBy(m, ts, threshold).Some? ==>
      exists ti, si :: (0 <= ti < |ts| && ts[ti] == NearestTaxiwayBy(m, ts, threshold).value && 0 <= si < |ts[ti].segments|
        && WithinDegrees(m(ts[ti].segments[si]), Allowance(threshold, ts[ti].segments[0].width))
        && forall tj, sj :: 0 <= tj < |ts| && 0 <= sj < |ts[tj].segments| ==>
             !Less(m(ts[tj].segments[sj]), m(ts[ti].segments[si])))
    ensures NearestSegmentBy(m, ts).None? ==> NearestTaxiwayBy(m, ts, threshold).None?
    ensures NearestSegmentBy(m, ts).Some? ==>
      exists ti :: 0 <= ti < |ts| && ts[ti].name == NearestSegmentBy(m, ts).value.taxiway
        && NearestSegmentBy(m, ts).value.index < |ts[ti].segments|
        && (NearestTaxiwayBy(m, ts, threshold).Some? <==>
              WithinDegrees(NearestSegmentBy(m, ts).value.distance, Allowance(threshold, ts[ti].segments[0].width)))
        && (NearestTaxiwayBy(m, ts, threshold).Some? ==> NearestTaxiwayBy(m, ts, threshold).value == ts[ti])
  {
    var hs := Hits(m, ts);
    forall tj, sj | 0 <= tj < |ts| && 0 <= sj < |ts[tj].segments|
      ensures exists k :: 0 <= k < |hs| && hs[k] == Hit(tj, sj, m(ts[tj].segments[sj]))
    {
      HitsCoverEverySegment(m, ts, tj, sj);
    }
    var f := FirstNearest(hs);
    if f.Some? {
      var ti := hs[f.value].taxiway;
      assert ts[ti].name == NearestSegmentBy(m, ts).value.taxiway;
    }
  }

  /** get_nearest_taxiway. */
  method GetNearestTaxiway(earth: Earth, layout: Layout, pos: LatLon, threshold: real) returns (r: Option<Taxiway>)
    ensures r == NearestTaxiway(earth, layout, pos, threshold)
  {
    if layout.taxiways == [] {
      return None;
    }
    var nearest, minDistance := ScanSegments(earth, layout.taxiways, pos);
    ghost var hs := Hits(SegmentMeasure(earth, pos), layout.taxiways);
    ghost var f := FirstNearest(hs);
    assert nearest.None? <==> f.None?;
    assert nearest.Some? ==> nearest.value == hs[f.value] && minDistance == nearest.value.d;
    assert nearest.None? ==> minDistance == Inf;
    var width := if nearest.Some? then layout.taxiways[nearest.value.taxiway].segments[0].width else 0.0;
    if WithinDegrees(minDistance, Allowance(threshold, width)) {
      return Some(layout.taxiways[nearest.value.taxiway]);
    }
    return None;
  }

  // ---------------------------------------------------------------------
  // Taxiway connectivity: _are_taxiways_connected

  /** The first taxiway carrying the name, as `next(..., None)` finds it. */
  function FirstNamed(ts: seq<Taxiway>, name: string): (r: Option<Taxiway>)
    ensures r.Some? ==> r.value.name == name
  {
    if ts == [] then None
    else if ts[0].name == name then Some(ts[0])
    else FirstNamed(ts[1..], name)
  }

  /** FirstNamed finds nothing exactly when no taxiway has the name, and
      otherwise the first taxiway that has it. */
  lemma {:induction false} FirstNamedIsFirst(ts: seq<Taxiway>, name: string)
    ensures var r := FirstNamed(ts, name);
      (r.None? <==> forall i :: 0 <= i < |ts| ==> ts[i].name != name)
      && (r.Some? ==> exists i :: (0 <= i < |ts| && ts[i] == r.value
            && forall j :: 0 <= j < i ==> ts[j].name != name))
  {
    if ts != [] && ts[0].name != name {
      FirstNamedIsFirst(ts[1..], name);
      assert forall i :: 1 <= i < |ts| ==> ts[i] == ts[1..][i - 1];
      var r := FirstNamed(ts[1..], name);
      if r.Some? {
        var k :| 0 <= k < |ts[1..]| && ts[1..][k] == r.value
            && forall j :: 0 <= j < k ==> ts[1..][j].name != name;
        assert ts[k + 1] == r.value;
      }
    }
  }

  predicate SharesEndpoint(s1: TaxiwaySegment, s2: TaxiwaySegment)
  {
    s1.start == s2.start || s1.start == s2.end || s1.end == s2.start || s1.end == s2.end
  }

  /** _are_taxiways_connected: both names exist and some segment of the
      first taxiway of one name shares an endpoint with some segment of the
      first taxiway of the other. */
  predicate AreTaxiwaysConnected(ts: seq<Taxiway>, n1: string, n2: string)
  {
    var t1 := FirstNamed(ts, n1);
    var t2 := FirstNamed(ts, n2);
    t1.Some? && t2.Some? &&
    exists i, j :: 0 <= i < |t1.value.segments| && 0 <= j < |t2.value.segments|
      && SharesEndpoint(t1.value.segments[i], t2.value.segments[j])
  }

  function Names(ts: seq<Taxiway>): set<string>
  {
    set i | 0 <= i < |ts| :: ts[i].name
  }

  lemma ConnectedIsSymmetric(ts: seq<Taxiway>, n1: string, n2: string)
    ensures AreTaxiwaysConnected(ts, n1, n2) <==> AreTaxiwaysConnected(ts, n2, n1)
  {
    if AreTaxiwaysConnected(ts, n1, n2) {
      var t1 := FirstNamed(ts, n1).value;
      var t2 := FirstNamed(ts, n2).value;
      var i, j :| 0 <= i < |t1.segments| && 0 <= j < |t2.segments| && SharesEndpoint(t1.segments[i], t2.segments[j]);
      assert SharesEndpoint(t2.segments[j], t1.segments[i]);
    }
    if AreTaxiwaysConnected(ts, n2, n1) {
      var t1 := FirstNamed(ts, n2).value;
      var t2 := FirstNamed(ts, n1).value;
      var i, j :| 0 <= i < |t1.segments| && 0 <= j < |t2.segments| && SharesEndpoint(t1.segments[i], t2.segments[j]);
      assert SharesEndpoint(t2.segments[j], t1.segments[i]);
    }
  }

  /** Unknown names are never connected; a taxiway whose first occurrence
      has a segment is connected to itself. */
  lemma ConnectedNamesExist(ts: seq<Taxiway>, n1: string, n2: string)
    ensures AreTaxiwaysConnected(ts, n1, n2) ==> n1 in Names(ts) && n2 in Names(ts)
    ensures FirstNamed(ts, n1).Some? && |FirstNamed(ts, n1).value.segments| > 0 ==> AreTaxiwaysConnected(ts, n1, n1)
  {
    if AreTaxiwaysConnected(ts, n1, n2) {
      FirstNamedIsFirst(ts, n1);
      FirstNamedIsFirst(ts, n2);
      var i :| 0 <= i < |ts| && ts[i] == FirstNamed(ts, n1).value;
      var j :| 0 <= j < |ts| && ts[j] == FirstNamed(ts, n2).value;
      assert ts[i].name in Names(ts) && ts[j].name in Names(ts);
    }
    if FirstNamed(ts, n1).Some? && |FirstNamed(ts, n1).value.segments| > 0 {
      var t := FirstNamed(ts, n1).value;
      assert SharesEndpoint(t.segments[0], t.segments[0]);
    }
  }

  // ---------------------------------------------------------------------
  // get_taxi_route: breadth-first search over taxiway names

  /** A move of the search: to another taxiway connected to this one. */
  predicate Edge(ts: seq<Taxiway>, a: string, b: string)
  {
    a != b && AreTaxiwaysConnected(ts, a, b)
  }

  /** A route from s to e: consecutive names are distinct connected taxiways. */
  predicate IsRoute(ts: seq<Taxiway>, p: seq<string>, s: string, e: string)
  {
    |p| >= 1 && p[0] == s && p[|p| - 1] == e
    && forall i :: 0 <= i < |p| - 1 ==> Edge(ts, p[i], p[i + 1])
  }

  /** A queue entry: the taxiway reached and the route that reached it. */
  datatype Entry = Entry(node: string, path: seq<string>)

  ghost predicate EntriesValid(ts: seq<Taxiway>, s: string, q: seq<Entry>)
  {
    forall k :: 0 <= k < |q| ==> q[k].node in Names(ts) && IsRoute(ts, q[k].path, s, q[k].node)
  }

  /** Route lengths along the queue never decrease and differ by at most one. */
  ghost predicate Layered(q: seq<Entry>)
  {
    forall k, l :: 0 <= k < l < |q| ==> |q[k].path| <= |q[l].path| <= |q[k].path| + 1
  }

  /** d maps each visited taxiway to the length of the route it was expanded with. */
  ghost predicate BelowQueue(d: map<string, nat>, q: seq<Entry>)
  {
    forall v, k :: v in d && 0 <= k < |q| ==> d[v] <= |q[k].path|
  }

  ghost predicate FrontierClosed(ts: seq<Taxiway>, d: map<string, nat>, q: seq<Entry>)
  {
    forall v, w :: v in d && Edge(ts, v, w) ==>
      w in d || exists k :: 0 <= k < |q| && q[k].node == w && |q[k].path| <= d[v] + 1
  }

  ghost predicate StepBounded(ts: seq<Taxiway>, d: map<string, nat>)
  {
    forall v, w :: v in d && w in d && Edge(ts, v, w) ==> d[w] <= d[v] + 1
  }

  ghost predicate Started(s: string, d: map<string, nat>, q: seq<Entry>)
  {
    (s in d && d[s] == 1) || (d == map[] && |q| > 0 && q[0] == Entry(s, [s]))
  }

  ghost predicate SearchInv(ts: seq<Taxiway>, s: string, e: string, q: seq<Entry>, d: map<string, nat>)
  {
    d.Keys <= Names(ts) && e !in d
    && EntriesValid(ts, s, q) && Layered(q) && BelowQueue(d, q)
    && FrontierClosed(ts, d, q) && StepBounded(ts, d) && Started(s, d, q)
  }

  /** Popping an already visited taxiway keeps the invariant. */
  lemma PopVisited(ts: seq<Taxiway>, s: string, e: string, q: seq<Entry>, d: map<string, nat>)
    requires SearchInv(ts, s, e, q, d) && |q| > 0 && q[0].node in d
    ensures SearchInv(ts, s, e, q[1..], d)
  {
    var r := q[1..];
    forall v, w | v in d && Edge(ts, v, w)
      ensures w in d || exists k :: 0 <= k < |r| && r[k].node == w && |r[k].path| <= d[v] + 1
    {
      if w !in d {
        var k :| 0 <= k < |q| && q[k].node == w && |q[k].path| <= d[v] + 1;
        assert k > 0;
        assert r[k - 1] == q[k];
      }
    }
  }

  /** Expanding the front taxiway: it becomes visited at its route length
      and every neighbour is queued one step further. */
  lemma Expand(ts: seq<Taxiway>, s: string, e: string, q: seq<Entry>, d: map<string, nat>, succ: seq<Entry>)
    requires SearchInv(ts, s, e, q, d) && |q| > 0 && q[0].node !in d && q[0].node != e
    requires forall m :: 0 <= m < |succ| ==>
      MoveFrom(ts, q[0].node, q[0].path, succ[m])
    requires forall w :: Edge(ts, q[0].node, w) ==> exists m :: 0 <= m < |succ| && succ[m].node == w
    ensures SearchInv(ts, s, e, q[1..] + succ, d[q[0].node := |q[0].path|])
  {
    ExpandEntries(ts, s, q, succ);
    ExpandLayered(q, succ);
    ExpandBelow(d, q, succ);
    ExpandFrontier(ts, d, q, succ);
    ExpandStepBounded(ts, d, q);
    var d' := d[q[0].node := |q[0].path|];
    assert Started(s, d', q[1..] + succ);
  }

  lemma ExpandEntries(ts: seq<Taxiway>, s: string, q: seq<Entry>, succ: seq<Entry>)
    requires EntriesValid(ts, s, q) && |q| > 0
    requires forall m :: 0 <= m < |succ| ==>
      MoveFrom(ts, q[0].node, q[0].path, succ[m])
    ensures EntriesValid(ts, s, q[1..] + succ)
  {
    var q' := q[1..] + succ;
    var path := q[0].path;
    forall k | 0 <= k < |q'|
      ensures q'[k].node in Names(ts) && IsRoute(ts, q'[k].path, s, q'[k].node)
    {
      if k < |q| - 1 {
        assert q'[k] == q[k + 1];
      } else {
        var m := k - (|q| - 1);
        assert q'[k] == succ[m];
        ConnectedNamesExist(ts, q[0].node, succ[m].node);
        var p := succ[m].path;
        assert forall i :: 0 <= i < |path| ==> p[i] == path[i];
      }
    }
  }

  lemma ExpandLayered(q: seq<Entry>, succ: seq<Entry>)
    requires Layered(q) && |q| > 0
    requires forall m :: 0 <= m < |succ| ==> |succ[m].path| == |q[0].path| + 1
    ensures Layered(q[1..] + succ)
  {
    var q' := q[1..] + succ;
    var n := |q| - 1;
    forall k, l | 0 <= k < l < |q'|
      ensures |q'[k].path| <= |q'[l].path| <= |q'[k].path| + 1
    {
      if l < n {
        assert q'[k] == q[k + 1] && q'[l] == q[l + 1];
      } else if k >= n {
        assert q'[k] == succ[k - n] && q'[l] == succ[l - n];
      } else {
        assert q'[k] == q[k + 1] && q'[l] == succ[l - n];
      }
    }
  }

  lemma ExpandBelow(d: map<string, nat>, q: seq<Entry>, succ: seq<Entry>)
    requires BelowQueue(d, q) && Layered(q) && |q| > 0
    requires forall m :: 0 <= m < |succ| ==> |succ[m].path| == |q[0].path| + 1
    ensures BelowQueue(d[q[0].node := |q[0].path|], q[1..] + succ)
  {
    var q' := q[1..] + succ;
    var n := |q| - 1;
    forall k | 0 <= k < |q'|
      ensures |q[0].path| <= |q'[k].path|
    {
      if k < n {
        assert q'[k] == q[k + 1];
      } else {
        assert q'[k] == succ[k - n];
      }
    }
    forall v | v in d
      ensures d[v] <= |q[0].path|
    {
    }
  }

  lemma ExpandFrontier(ts: seq<Taxiway>, d: map<string, nat>, q: seq<Entry>, succ: seq<Entry>)
    requires FrontierClosed(ts, d, q) && |q| > 0
    requires forall m :: 0 <= m < |succ| ==> |succ[m].path| == |q[0].path| + 1
    requires forall w :: Edge(ts, q[0].node, w) ==> exists m :: 0 <= m < |succ| && succ[m].node == w
    ensures FrontierClosed(ts, d[q[0].node := |q[0].path|], q[1..] + succ)
  {
    var cur := q[0].node;
    var q' := q[1..] + succ;
    var d' := d[cur := |q[0].path|];
    var n := |q| - 1;
    forall v, w | v in d' && Edge(ts, v, w)
      ensures w in d' || exists k :: 0 <= k < |q'| && q'[k].node == w && |q'[k].path| <= d'[v] + 1
    {
      if v == cur {
        var m :| 0 <= m < |succ| && succ[m].node == w;
        assert q'[n + m] == succ[m];
      } else if w !in d' {
        var k :| 0 <= k < |q| && q[k].node == w && |q[k].path| <= d[v] + 1;
        assert k > 0;
        assert q'[k - 1] == q[k];
      }
    }
  }

  lemma ExpandStepBounded(ts: seq<Taxiway>, d: map<string, nat>, q: seq<Entry>)
    requires StepBounded(ts, d) && FrontierClosed(ts, d, q) && BelowQueue(d, q) && Layered(q)
    requires |q| > 0 && q[0].node !in d
    ensures StepBounded(ts, d[q[0].node := |q[0].path|])
  {
    var cur := q[0].node;
    var d' := d[cur := |q[0].path|];
    forall v, w | v in d' && w in d' && Edge(ts, v, w)
      ensures d'[w] <= d'[v] + 1
    {
      if w == cur && v != cur {
        var k :| 0 <= k < |q| && q[k].node == w && |q[k].path| <= d[v] + 1;
        if k > 0 {
          assert |q[0].path| <= |q[k].path|;
        }
      } else if v == cur && w != cur {
        assert d[w] <= |q[0].path|;
      }
    }
  }

  /** Every taxiway on a route from s is visited no later than its position
      along the route, or the queue front is no longer than that position. */
  lemma {:induction false} ReachedInOrder(ts: seq<Taxiway>, s: string, e: string, q: seq<Entry>, d: map<string, nat>,
                                          p: seq<string>, i: nat)
    requires SearchInv(ts, s, e, q, d)
    requires |p| >= 1 && p[0] == s && forall j :: 0 <= j < |p| - 1 ==> Edge(ts, p[j], p[j + 1])
    requires i < |p|
    ensures (p[i] in d && d[p[i]] <= i + 1) || (|q| > 0 && |q[0].path| <= i + 1)
  {
    if i > 0 {
      ReachedInOrder(ts, s, e, q, d, p, i - 1);
      var v := p[i - 1];
      var w := p[i];
      assert Edge(ts, v, w);
      if v in d && d[v] <= i {
        if w !in d {
          var k :| 0 <= k < |q| && q[k].node == w && |q[k].path| <= d[v] + 1;
          if k > 0 {
            assert |q[0].path| <= |q[k].path|;
          }
        }
      }
    }
  }

  lemma SearchStarts(ts: seq<Taxiway>, s: string, e: string)
    requires s in Names(ts) && s != e
    ensures SearchInv(ts, s, e, [Entry(s, [s])], map[])
  {
  }

  lemma QueueFront(ts: seq<Taxiway>, s: string, e: string, q: seq<Entry>, d: map<string, nat>)
    requires SearchInv(ts, s, e, q, d) && |q| > 0
    ensures q[0].node in Names(ts) && IsRoute(ts, q[0].path, s, q[0].node)
    ensures d.Keys <= Names(ts) && e !in d
  {
  }

  /** A shortest route ends at the front once e reaches it; an empty queue
      means e is unreachable. */
  lemma FrontIsShortest(ts: seq<Taxiway>, s: string, e: string, q: seq<Entry>, d: map<string, nat>)
    requires SearchInv(ts, s, e, q, d)
    ensures |q| > 0 && q[0].node == e ==> forall p :: IsRoute(ts, p, s, e) ==> |q[0].path| <= |p|
    ensures q == [] ==> forall p :: !IsRoute(ts, p, s, e)
  {
    forall p | IsRoute(ts, p, s, e)
      ensures |q| > 0 && |q[0].path| <= |p|
    {
      ReachedInOrder(ts, s, e, q, d, p, |p| - 1);
    }
  }

  /** The entries the inner loop of get_taxi_route appends after looking at
      the first k taxiways: every other taxiway connected to `current`, in
      layout order, reached by `path` extended with its name. */
  function NeighbourEntries(ts: seq<Taxiway>, k: nat, current: string, path: seq<string>): seq<Entry>
    requires k <= |ts|
  {
    if k == 0 then []
    else
      var name := ts[k - 1].name;
      NeighbourEntries(ts, k - 1, current, path)
      + (if name != current && AreTaxiwaysConnected(ts, current, name) then [Entry(name, path + [name])] else [])
  }

  /** An entry one move from `current`, reached by `path` extended with it. */
  predicate MoveFrom(ts: seq<Taxiway>, current: string, path: seq<string>, entry: Entry)
  {
    Edge(ts, current, entry.node) && entry.path == path + [entry.node]
  }

  /** Every appended entry is one move from `current`, by `path`. */
  lemma {:induction false} NeighbourEntriesAreMoves(ts: seq<Taxiway>, k: nat, current: string, path: seq<string>)
    requires k <= |ts|
    ensures forall m :: 0 <= m < |NeighbourEntries(ts, k, current, path)| ==>
      MoveFrom(ts, current, path, NeighbourEntries(ts, k, current, path)[m])
  {
    if k > 0 {
      NeighbourEntriesAreMoves(ts, k - 1, current, path);
      var name := ts[k - 1].name;
      var n0 := NeighbourEntries(ts, k - 1, current, path);
      var n := NeighbourEntries(ts, k, current, path);
      var added := name != current && AreTaxiwaysConnected(ts, current, name);
      assert n == n0 + (if added then [Entry(name, path + [name])] else []);
      forall m | 0 <= m < |n|
        ensures MoveFrom(ts, current, path, n[m])
      {
        if m < |n0| {
          assert n[m] == n0[m];
        } else {
          assert added && n[m] == Entry(name, path + [name]);
        }
      }
    }
  }

  /** Some entry of `q` is for taxiway `name`. */
  predicate Listed(q: seq<Entry>, name: string)
  {
    exists m :: 0 <= m < |q| && q[m].node == name
  }

  /** Every taxiway among the first k that is one move from `current` has
      an entry. */
  lemma {:induction false} NeighbourEntriesComplete(ts: seq<Taxiway>, k: nat, current: string, path: seq<string>)
    requires k <= |ts|
    ensures forall j :: 0 <= j < k && Edge(ts, current, ts[j].name) ==> Listed(NeighbourEntries(ts, k, current, path), ts[j].name)
  {
    if k > 0 {
      NeighbourEntriesComplete(ts, k - 1, current, path);
      var name := ts[k - 1].name;
      var n0 := NeighbourEntries(ts, k - 1, current, path);
      var n := NeighbourEntries(ts, k, current, path);
      var added := name != current && AreTaxiwaysConnected(ts, current, name);
      assert n == n0 + (if added then [Entry(name, path + [name])] else []);
      forall j | 0 <= j < k && Edge(ts, current, ts[j].name)
        ensures Listed(n, ts[j].name)
      {
        if j < k - 1 {
          var m :| 0 <= m < |n0| && n0[m].node == ts[j].name;
          assert n[m] == n0[m];
        } else {
          assert added && n[|n0|].node == ts[j].name;
        }
      }
    }
  }

  /** Every taxiway one move from `current` has an entry. */
  lemma NeighbourEntriesCoverEdges(ts: seq<Taxiway>, current: string, path: seq<string>)
    ensures forall w :: Edge(ts, current, w) ==> Listed(NeighbourEntries(ts, |ts|, current, path), w)
  {
    NeighbourEntriesComplete(ts, |ts|, current, path);
    forall w | Edge(ts, current, w)
      ensures Listed(NeighbourEntries(ts, |ts|, current, path), w)
    {
      ConnectedNamesExist(ts, current, w);
      var j :| 0 <= j < |ts| && ts[j].name == w;
    }
  }

  /** The inner loop of get_taxi_route: append, in layout order, an entry
      for every other taxiway connected to `current`. */
  method AppendNeighbours(ts: seq<Taxiway>, current: string, path: seq<string>, queue: seq<Entry>)
    returns (result: seq<Entry>)
    ensures result == queue + NeighbourEntries(ts, |ts|, current, path)
  {
    result := queue;
    var k := 0;
    while k < |ts|
      invariant 0 <= k <= |ts|
      invariant result == queue + NeighbourEntries(ts, k, current, path)
    {
      if ts[k].name != current && AreTaxiwaysConnected(ts, current, ts[k].name) {
        result := result + [Entry(ts[k].name, path + [ts[k].name])];
      }
      k := k + 1;
    }
  }

  /** The search proper, from the nearest taxiway of the start to that of
      the end: the first route it pops is a shortest one, and an exhausted
      queue means there is none. */
  method SearchRoute(ts: seq<Taxiway>, s: string, e: string) returns (route: seq<string>)
    requires s in Names(ts) && s != e
    ensures route != [] ==> IsRoute(ts, route, s, e) && forall p :: IsRoute(ts, p, s, e) ==> |route| <= |p|
    ensures route == [] ==> forall p :: !IsRoute(ts, p, s, e)
  {
    var visited: set<string> := {};
    ghost var d: map<string, nat> := map[];
    var queue := [Entry(s, [s])];
    SearchStarts(ts, s, e);
    while queue != []
      invariant visited == d.Keys
      invariant SearchInv(ts, s, e, queue, d)
      decreases |Names(ts) - visited|, |queue|
    {
      ghost var q := queue;
      QueueFront(ts, s, e, q, d);
      var current := queue[0].node;
      var path := queue[0].path;
      queue := queue[1..];
      if current == e {
        FrontIsShortest(ts, s, e, q, d);
        return path;
      }
      if current in visited {
        PopVisited(ts, s, e, q, d);
        continue;
      }
      assert Names(ts) - (visited + {current}) < Names(ts) - visited;
      visited := visited + {current};
      ghost var succ := NeighbourEntries(ts, |ts|, current, path);
      NeighbourEntriesAreMoves(ts, |ts|, current, path);
      NeighbourEntriesCoverEdges(ts, current, path);
      queue := AppendNeighbours(ts, current, path, queue);
      Expand(ts, s, e, q, d, succ);
      d := d[current := |path|];
    }
    FrontIsShortest(ts, s, e, queue, d);
    return [];
  }

  /** get_taxi_route. */
  method GetTaxiRoute(earth: Earth, layout: Layout, start: LatLon, end: LatLon) returns (route: seq<string>)
    ensures layout.taxiways == [] ==> route == []
    ensures NearestSegment(earth, layout.taxiways, start).None? || NearestSegment(earth, layout.taxiways, end).None?
            ==> route == []
    ensures NearestSegment(earth, layout.taxiways, start).Some? && NearestSegment(earth, layout.taxiways, end).Some? ==>
      var s := NearestSegment(earth, layout.taxiways, start).value.taxiway;
      var e := NearestSegment(earth, layout.taxiways, end).value.taxiway;
      (s == e ==> route == [s])
      && (s != e && route != [] ==>
            IsRoute(layout.taxiways, route, s, e) && forall p :: IsRoute(layout.taxiways, p, s, e) ==> |route| <= |p|)
      && (s != e && route == [] ==> forall p :: !IsRoute(layout.taxiways, p, s, e))
  {
    if layout.taxiways == [] {
      return [];
    }
    var startSegment := FindNearestTaxiwaySegment(earth, layout, start);
    var endSegment := FindNearestTaxiwaySegment(earth, layout, end);
    if startSegment.None? || endSegment.None? {
      return [];
    }
    var current := startSegment.value.taxiway;
    var target := endSegment.value.taxiway;
    if current == target {
      return [current];
    }
    NearestSegmentIsNamed(SegmentMeasure(earth, start), layout.taxiways);
    route := SearchRoute(layout.taxiways, current, target);
  }
}
