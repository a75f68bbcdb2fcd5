/** The per-sample position classifier (position_detector.py).

    A sample is classified by a fixed priority order: missing data, in
    flight, at a parking stand (only when nearly stopped), then, only when
    moving faster than 0.5 m/s, on a taxiway, at a holding point and on a
    runway.  The decision itself is the function Decide; the detector class
    runs it step by step and remembers the last position and time. */
module Position {
  import opened Common
  import opened Geometry
  import opened Airport

  datatype Area = NotDetected | AtParking | OnTaxiway | AtHoldingPoint | OnRunway | InFlight

  /** The parts of the telemetry the classifier reads. */
  datatype Gps = Gps(latitude: real, longitude: real, altitude: real, groundSpeed: real)
  datatype Attitude = Attitude(trueHeading: real)
  datatype Sample = Sample(gps: Option<Gps>, attitude: Option<Attitude>)

  datatype PositionInfo = PositionInfo(
    area: Area,
    specificLocation: Option<string>,
    taxiway: Option<string>,
    runway: Option<string>,
    distanceToCenter: Option<Dist>,  // meters
    heading: Option<real>,
    speed: Option<real>)

  /** Capture distance of the parking check (degrees) and of the taxiway check
      (compared with a distance in meters, as the detector does). */
  const StandCapture: real := 0.00005
  const TaxiwayCapture: real := 0.00005

  function Blank(area: Area): PositionInfo
  {
    PositionInfo(area, None, None, None, None, None, None)
  }

  predicate HasData(sample: Sample)
  {
    sample.gps.Some? && sample.attitude.Some?
  }

  function SamplePosition(gps: Gps): LatLon
  {
    LatLon(gps.latitude, gps.longitude)
  }

  predicate IsFlying(gps: Gps)
  {
    gps.altitude > 500.0 && gps.groundSpeed > 50.0
  }

  /** The three runway conditions of the detector: between the thresholds
      and near the centre line (is_on_runway), closer than half the width to
      the centre line, and heading within 45 degrees of the runway heading. */
  predicate RunwayMatches(earth: Earth, r: Runway, pos: LatLon, trueHeading: real)
  {
    IsOnRunway(earth, pos, Some(r), RunwayThreshold)
    && Shorter(DistanceToCenter(earth, r, pos), r.width / 2.0)
    && var diff := FloorMod(trueHeading - RunwayHeading(earth, r), 360.0);
       diff < 45.0 || diff > 315.0
  }

  /** The first runway, in list order, that the aircraft is rolling along. */
  function FirstOnRunway(earth: Earth, runways: seq<Runway>, pos: LatLon, trueHeading: real): (r: Option<Runway>)
    ensures r.Some? ==> r.value in runways
  {
    if runways == [] then None
    else if RunwayMatches(earth, runways[0], pos, trueHeading) then Some(runways[0])
    else FirstOnRunway(earth, runways[1..], pos, trueHeading)
  }

  /** FirstOnRunway finds nothing exactly when no runway matches, and
      otherwise a matching runway with no matching runway before it. */
  lemma {:induction false} FirstOnRunwayIsFirst(earth: Earth, runways: seq<Runway>, pos: LatLon, trueHeading: real)
    ensures var r := FirstOnRunway(earth, runways, pos, trueHeading);
      (r.None? <==> forall i :: 0 <= i < |runways| ==> !RunwayMatches(earth, runways[i], pos, trueHeading))
      && (r.Some? ==> exists i :: (0 <= i < |runways| && runways[i] == r.value
            && RunwayMatches(earth, runways[i], pos, trueHeading)
            && forall j :: 0 <= j < i ==> !RunwayMatches(earth, runways[j], pos, trueHeading)))
  {
    if runways != [] && !RunwayMatches(earth, runways[0], pos, trueHeading) {
      FirstOnRunwayIsFirst(earth, runways[1..], pos, trueHeading);
      assert forall i :: 1 <= i < |runways| ==> runways[i] == runways[1..][i - 1];
      var r := FirstOnRunway(earth, runways[1..], pos, trueHeading);
      if r.Some? {
        var k :| 0 <= k < |runways[1..]| && runways[1..][k] == r.value
            && RunwayMatches(earth, runways[1..][k], pos, trueHeading)
            && forall j :: 0 <= j < k ==> !RunwayMatches(earth, runways[1..][j], pos, trueHeading);
        assert runways[k + 1] == r.value;
      }
    }
  }

  /** Where the decision ends: with a finished result, or on the holding
      point branch, whose last assignment is where the source goes wrong. */
  datatype Stage = Decided(info: PositionInfo) | HoldingFound(info: PositionInfo, hp: HoldingPoint)

  function Decide(earth: Earth, layout: Layout, sample: Sample): Stage
  {
    if !HasData(sample) then Decided(Blank(NotDetected))
    else
      var gps := sample.gps.value;
      var pos := SamplePosition(gps);
      var heading := sample.attitude.value.trueHeading;
      var info := Blank(NotDetected).(heading := Some(heading), speed := Some(gps.groundSpeed));
      var parking := GetNearestParking(layout, pos, ParkingThreshold);
      var taxiway := NearestTaxiway(earth, layout, pos, TaxiwayThreshold);
      var holding := IsAtHoldingPoint(layout.holdingPoints, pos, HoldingThreshold);
      var runway := FirstOnRunway(earth, layout.runways, pos, heading);
      if IsFlying(gps) then Decided(info.(area := InFlight))
      else if gps.groundSpeed < 0.5 && parking.Some? && Shorter(ParkingDistance(parking.value, pos), StandCapture) then
        Decided(info.(area := AtParking, specificLocation := Some(parking.value.name)))
      else if !(gps.groundSpeed > 0.5) then Decided(info)
      else if taxiway.Some? && Shorter(TaxiwayDistance(earth, taxiway.value, pos), TaxiwayCapture) then
        Decided(info.(area := OnTaxiway, taxiway := Some(taxiway.value.name),
                      distanceToCenter := Some(TaxiwayDistance(earth, taxiway.value, pos))))
      else if holding.Some? then HoldingFound(info, holding.value)
      else if runway.Some? then
        Decided(info.(area := OnRunway, runway := Some(runway.value.name),
                      distanceToCenter := Some(DistanceToCenter(earth, runway.value, pos))))
      else Decided(info)
  }

  /** detect_position as written: the holding point branch reads an
      attribute `runway` that HoldingPoint does not have. */
  datatype Detection = Detected(info: PositionInfo) | MissingAttribute(attribute: string)

  function ClassifyAsWritten(earth: Earth, layout: Layout, sample: Sample): Detection
  {
    match Decide(earth, layout, sample)
    case Decided(info) => Detected(info)
    case HoldingFound(_, _) => MissingAttribute("runway")
  }

  /** detect_position with the holding point's associated runway recorded. */
  function Classify(earth: Earth, layout: Layout, sample: Sample): PositionInfo
  {
    match Decide(earth, layout, sample)
    case Decided(info) => info
    case HoldingFound(info, hp) =>
      info.(area := AtHoldingPoint, specificLocation := Some(hp.name), runway := Some(hp.associatedWith))
  }

  // ---------------------------------------------------------------------
  // What the classification promises

  predicate Moving(sample: Sample)
  {
    HasData(sample) && !IsFlying(sample.gps.value) && sample.gps.value.groundSpeed > 0.5
  }

  predicate OnSomeTaxiway(earth: Earth, layout: Layout, pos: LatLon)
  {
    var t := NearestTaxiway(earth, layout, pos, TaxiwayThreshold);
    t.Some? && Shorter(TaxiwayDistance(earth, t.value, pos), TaxiwayCapture)
  }

  lemma ClassifyWithoutData(earth: Earth, layout: Layout, sample: Sample)
    ensures !HasData(sample) ==> Classify(earth, layout, sample) == PositionInfo(NotDetected, None, None, None, None, None, None)
    ensures HasData(sample) ==>
      Classify(earth, layout, sample).heading == Some(sample.attitude.value.trueHeading)
      && Classify(earth, layout, sample).speed == Some(sample.gps.value.groundSpeed)
  {
  }

  lemma ClassifyInFlight(earth: Earth, layout: Layout, sample: Sample)
    ensures Classify(earth, layout, sample).area == InFlight <==> HasData(sample) && IsFlying(sample.gps.value)
  {
  }

  /** Parking is only recognised when nearly stopped, within 0.00005 degrees
      of the nearest stand, and names that stand. */
  lemma ClassifyAtParking(earth: Earth, layout: Layout, sample: Sample)
    ensures var info := Classify(earth, layout, sample);
      info.area == AtParking <==>
        HasData(sample) && !IsFlying(sample.gps.value) && sample.gps.value.groundSpeed < 0.5
        && var stand := GetNearestParking(layout, SamplePosition(sample.gps.value), ParkingThreshold);
           stand.Some? && Shorter(ParkingDistance(stand.value, SamplePosition(sample.gps.value)), StandCapture)
    ensures var info := Classify(earth, layout, sample);
      info.area == AtParking ==>
        info.specificLocation == Some(GetNearestParking(layout, SamplePosition(sample.gps.value), ParkingThreshold).value.name)
  {
  }

  /** Below 0.5 m/s only parking can be recognised; at exactly 0.5 nothing. */
  lemma ClassifySlow(earth: Earth, layout: Layout, sample: Sample)
    ensures HasData(sample) && !IsFlying(sample.gps.value) && sample.gps.value.groundSpeed <= 0.5 ==>
      Classify(earth, layout, sample).area in {AtParking, NotDetected}
    ensures HasData(sample) && sample.gps.value.groundSpeed == 0.5 ==>
      Classify(earth, layout, sample).area == NotDetected
  {
  }

  lemma ClassifyOnTaxiway(earth: Earth, layout: Layout, sample: Sample)
    ensures var info := Classify(earth, layout, sample);
      info.area == OnTaxiway <==> Moving(sample) && OnSomeTaxiway(earth, layout, SamplePosition(sample.gps.value))
    ensures var info := Classify(earth, layout, sample);
      info.area == OnTaxiway ==>
        var pos := SamplePosition(sample.gps.value);
        var t := NearestTaxiway(earth, layout, pos, TaxiwayThreshold).value;
        info.taxiway == Some(t.name) && info.distanceToCenter == Some(TaxiwayDistance(earth, t, pos))
  {
  }

  /** The corrected holding point branch: it is taken when moving, not on a
      taxiway and inside some holding point's box, and it records the first
      such point and the runway it is associated with. */
  lemma ClassifyAtHoldingPoint(earth: Earth, layout: Layout, sample: Sample)
    ensures var info := Classify(earth, layout, sample);
      info.area == AtHoldingPoint <==>
        Moving(sample) && !OnSomeTaxiway(earth, layout, SamplePosition(sample.gps.value))
        && IsAtHoldingPoint(layout.holdingPoints, SamplePosition(sample.gps.value), HoldingThreshold).Some?
    ensures var info := Classify(earth, layout, sample);
      info.area == AtHoldingPoint ==>
        var hp := IsAtHoldingPoint(layout.holdingPoints, SamplePosition(sample.gps.value), HoldingThreshold).value;
        info.specificLocation == Some(hp.name) && info.runway == Some(hp.associatedWith)
  {
  }

  /** As written, exactly the samples the corrected detector places at a
      holding point end in the missing-attribute error instead. */
  lemma HoldingBranchFailsAsWritten(earth: Earth, layout: Layout, sample: Sample)
    ensures ClassifyAsWritten(earth, layout, sample).MissingAttribute?
            <==> Classify(earth, layout, sample).area == AtHoldingPoint
    ensures ClassifyAsWritten(earth, layout, sample).Detected? ==>
            ClassifyAsWritten(earth, layout, sample).info == Classify(earth, layout, sample)
  {
  }

  /** A concrete sample that takes the failing branch: rolling at 10 m/s on
      the ground exactly over the only holding point of an airport without
      taxiways. */
  lemma HoldingPointExample(earth: Earth)
    ensures var hp := HoldingPoint("A1", LatLon(52.0, 4.0), "18R");
      var layout := Layout("Test", "TEST", [], [], [], [hp]);
      var sample := Sample(Some(Gps(52.0, 4.0, 0.0, 10.0)), Some(Attitude(180.0)));
      ClassifyAsWritten(earth, layout, sample) == MissingAttribute("runway")
      && Classify(earth, layout, sample).runway == Some("18R")
  {
    var hp := HoldingPoint("A1", LatLon(52.0, 4.0), "18R");
    assert InHoldingBox(hp, LatLon(52.0, 4.0), HoldingThreshold);
  }

  /** The runway branch names the first runway in list order that meets all
      three runway conditions, and reports its centre-line distance. */
  lemma ClassifyOnRunway(earth: Earth, layout: Layout, sample: Sample)
    ensures var info := Classify(earth, layout, sample);
      info.area == OnRunway <==>
        Moving(sample) && !OnSomeTaxiway(earth, layout, SamplePosition(sample.gps.value))
        && IsAtHoldingPoint(layout.holdingPoints, SamplePosition(sample.gps.value), HoldingThreshold).None?
        && exists i :: 0 <= i < |layout.runways|
             && RunwayMatches(earth, layout.runways[i], SamplePosition(sample.gps.value), sample.attitude.value.trueHeading)
    ensures var info := Classify(earth, layout, sample);
      info.area == OnRunway ==>
        var pos := SamplePosition(sample.gps.value);
        var r := FirstOnRunway(earth, layout.runways, pos, sample.attitude.value.trueHeading).value;
        info.runway == Some(r.name) && info.distanceToCenter == Some(DistanceToCenter(earth, r, pos))
        && IsOnRunway(earth, pos, Some(r), RunwayThreshold) && Shorter(DistanceToCenter(earth, r, pos), r.width / 2.0)
  {
    if sample.gps.Some? && sample.attitude.Some? {
      FirstOnRunwayIsFirst(earth, layout.runways, SamplePosition(sample.gps.value), sample.attitude.value.trueHeading);
    }
  }

  // ---------------------------------------------------------------------
  // The detector

  class PositionDetector {
    const layout: Layout
    const earth: Earth
    var lastPosition: Option<LatLon>
    var lastUpdate: Option<real>

    constructor(layout: Layout, earth: Earth)
      ensures this.layout == layout && this.earth == earth
      ensures lastPosition == None && lastUpdate == None
    {
      this.layout := layout;
      this.earth := earth;
      lastPosition := None;
      lastUpdate := None;
    }

    /** detect_position on one sample taken at time `now`. */
    method DetectPosition(sample: Sample, now: real) returns (info: PositionInfo)
      modifies this
      ensures info == Classify(earth, layout, sample)
      ensures ClassifyAsWritten(earth, layout, sample).Detected? ==> info == ClassifyAsWritten(earth, layout, sample).info
      ensures HasData(sample) ==> lastPosition == Some(SamplePosition(sample.gps.value)) && lastUpdate == Some(now)
      ensures !HasData(sample) ==> lastPosition == old(lastPosition) && lastUpdate == old(lastUpdate)
    {
      if sample.gps.None? || sample.attitude.None? {
        return Blank(NotDetected);
      }
      var gps := sample.gps.value;
      var attitude := sample.attitude.value;
      var position := LatLon(gps.latitude, gps.longitude);
      lastPosition := Some(position);
      lastUpdate := Some(now);
      info := Blank(NotDetected).(heading := Some(attitude.trueHeading), speed := Some(gps.groundSpeed));
      if gps.altitude > 500.0 && gps.groundSpeed > 50.0 {
        info := info.(area := InFlight);
        return;
      }
      if gps.groundSpeed < 0.5 {
        var parking := GetNearestParking(layout, position, ParkingThreshold);
        if parking.Some? && Shorter(ParkingDistance(parking.value, position), StandCapture) {
          info := info.(area := AtParking, specificLocation := Some(parking.value.name));
          return;
        }
      }
      if gps.groundSpeed > 0.5 {
        var taxiway := GetNearestTaxiway(earth, layout, position, TaxiwayThreshold);
        if taxiway.Some? {
          var distance := TaxiwayDistanceTo(earth, taxiway.value, position);
          if Shorter(distance, TaxiwayCapture) {
            info := info.(area := OnTaxiway, taxiway := Some(taxiway.value.name), distanceToCenter := Some(distance));
            return;
          }
        }
      }
      if gps.groundSpeed > 0.5 {
        var holdingPoint := IsAtHoldingPoint(layout.holdingPoints, position, HoldingThreshold);
        if holdingPoint.Some? {
          info := info.(area := AtHoldingPoint, specificLocation := Some(holdingPoint.value.name),
                        runway := Some(holdingPoint.value.associatedWith));
          return;
        }
      }
      if gps.groundSpeed > 0.5 {
        var runway := FindRunway(earth, layout.runways, position, attitude.trueHeading);
        if runway.Some? {
          info := info.(area := OnRunway, runway := Some(runway.value.name),
                        distanceToCenter := Some(DistanceToCenter(earth, runway.value, position)));
          return;
        }
      }
    }
  }

  lemma SkipRunway(earth: Earth, runways: seq<Runway>, pos: LatLon, trueHeading: real)
    requires runways != [] && !RunwayMatches(earth, runways[0], pos, trueHeading)
    ensures FirstOnRunway(earth, runways, pos, trueHeading) == FirstOnRunway(earth, runways[1..], pos, trueHeading)
  {
  }

  lemma TakeRunway(earth: Earth, runways: seq<Runway>, pos: LatLon, trueHeading: real)
    requires runways != [] && RunwayMatches(earth, runways[0], pos, trueHeading)
    ensures FirstOnRunway(earth, runways, pos, trueHeading) == Some(runways[0])
  {
  }

  /** The runway loop of detect_position: the three checks in turn, runway
      by runway, stopping at the first runway that passes them all. */
  method FindRunway(earth: Earth, runways: seq<Runway>, position: LatLon, trueHeading: real) returns (r: Option<Runway>)
    ensures r == FirstOnRunway(earth, runways, position, trueHeading)
  {
    var i := 0;
    while i < |runways|
      invariant 0 <= i <= |runways|
      invariant FirstOnRunway(earth, runways, position, trueHeading)
                == FirstOnRunway(earth, runways[i..], position, trueHeading)
    {
      var runway := runways[i];
      assert runways[i..][0] == runway && runways[i..][1..] == runways[i + 1..];
      if IsOnRunway(earth, position, Some(runway), RunwayThreshold) {
        var distanceToCenter := DistanceToCenter(earth, runway, position);
        if Shorter(distanceToCenter, runway.width / 2.0) {
          var headingDiff := FloorMod(trueHeading - RunwayHeading(earth, runway), 360.0);
          if headingDiff < 45.0 || headingDiff > 315.0 {
            TakeRunway(earth, runways[i..], position, trueHeading);
            return Some(runway);
          }
        }
      }
      SkipRunway(earth, runways[i..], position, trueHeading);
      i := i + 1;
    }
    return None;
  }

  // ---------------------------------------------------------------------
  // format_position_info

  function Title(area: Area): string
  {
    match area
    case NotDetected => "Not Detected"
    case AtParking => "At Parking"
    case OnTaxiway => "On Taxiway"
    case AtHoldingPoint => "At Holding Point"
    case OnRunway => "On Runway"
    case InFlight => "In Flight"
  }

  /** A text field is shown when present and non-empty (Python truthiness). */
  predicate Shown(field: Option<string>)
  {
    field.Some? && field.value != ""
  }

  /** [part] when the field is shown, nothing otherwise. */
  function When(shown: bool, part: string): seq<string>
  {
    if shown then [part] else []
  }

  /** The status fields format_position_info joins, in order. */
  function StatusParts(info: PositionInfo, meters: Dist -> string, oneDecimal: real -> string): seq<string>
  {
    ["Area: " + Title(info.area)]
    + When(Shown(info.specificLocation), "Location: " + Text(info.specificLocation))
    + When(Shown(info.taxiway), "Taxiway: " + Text(info.taxiway))
    + When(Shown(info.runway), "Runway: " + Text(info.runway))
    + When(info.distanceToCenter.Some?, "Distance to center: " + Number(info.distanceToCenter, meters) + " meters")
    + When(info.heading.Some?, "Heading: " + Number(info.heading, oneDecimal) + "°")
    + When(info.speed.Some?, "Speed: " + Number(info.speed, oneDecimal) + " m/s")
  }

  function Text(field: Option<string>): string
  {
    if field.Some? then field.value else ""
  }

  function Number<T>(field: Option<T>, format: T -> string): string
  {
    if field.Some? then format(field.value) else ""
  }

  /** Appending a part under a condition is appending When(condition, part). */
  lemma AppendWhen(status: seq<string>, shown: bool, part: string)
    ensures (if shown then status + [part] else status) == status + When(shown, part)
  {
    if !shown {
      assert status + [] == status;
    }
  }

  /** The text opens with the area and carries one labelled part per shown
      field: a text field appears exactly when it is present and non-empty,
      a number exactly when it is present. */
  lemma StatusPartsShowFields(info: PositionInfo, meters: Dist -> string, oneDecimal: real -> string)
    ensures var parts := StatusParts(info, meters, oneDecimal);
      parts[0] == "Area: " + Title(info.area)
      && |parts| == 1 + (if Shown(info.specificLocation) then 1 else 0) + (if Shown(info.taxiway) then 1 else 0)
                      + (if Shown(info.runway) then 1 else 0) + (if info.distanceToCenter.Some? then 1 else 0)
                      + (if info.heading.Some? then 1 else 0) + (if info.speed.Some? then 1 else 0)
      && (Shown(info.specificLocation) ==> "Location: " + info.specificLocation.value in parts)
      && (Shown(info.taxiway) ==> "Taxiway: " + info.taxiway.value in parts)
      && (Shown(info.runway) ==> "Runway: " + info.runway.value in parts)
      && (info.distanceToCenter.Some? ==> "Distance to center: " + meters(info.distanceToCenter.value) + " meters" in parts)
      && (info.heading.Some? ==> "Heading: " + oneDecimal(info.heading.value) + "°" in parts)
      && (info.speed.Some? ==> "Speed: " + oneDecimal(info.speed.value) + " m/s" in parts)
    ensures forall p :: p in StatusParts(info, meters, oneDecimal) && "Location: " <= p ==> Shown(info.specificLocation)
    ensures forall p :: p in StatusParts(info, meters, oneDecimal) && "Taxiway: " <= p ==> Shown(info.taxiway)
    ensures forall p :: p in StatusParts(info, meters, oneDecimal) && "Runway: " <= p ==> Shown(info.runway)
  {
    var parts := StatusParts(info, meters, oneDecimal);
    forall p | p in parts
      ensures p[0] == 'L' ==> Shown(info.specificLocation)
      ensures p[0] == 'T' ==> Shown(info.taxiway)
      ensures p[0] == 'R' ==> Shown(info.runway)
    {
      LeadingLetter(p, "Area: ", Title(info.area));
      if Shown(info.specificLocation) { LeadingLetter(p, "Location: ", info.specificLocation.value); }
      if Shown(info.taxiway) { LeadingLetter(p, "Taxiway: ", info.taxiway.value); }
      if Shown(info.runway) { LeadingLetter(p, "Runway: ", info.runway.value); }
      if info.distanceToCenter.Some? { LeadingLetter(p, "Distance to center: ", meters(info.distanceToCenter.value) + " meters"); }
      if info.heading.Some? { LeadingLetter(p, "Heading: ", oneDecimal(info.heading.value) + "°"); }
      if info.speed.Some? { LeadingLetter(p, "Speed: ", oneDecimal(info.speed.value) + " m/s"); }
    }
  }

  lemma LeadingLetter(p: string, tag: string, rest: string)
    requires |tag| > 0
    ensures p == tag + rest ==> p[0] == tag[0]
  {
  }

  /** format_position_info: the status parts joined by " | ", or the fixed
      message when the position was not detected. */
  method FormatPositionInfo(info: PositionInfo, meters: Dist -> string, oneDecimal: real -> string) returns (text: string)
    ensures info.area == NotDetected ==> text == "Aircraft position not detected"
    ensures info.area != NotDetected ==> text == Join(" | ", StatusParts(info, meters, oneDecimal))
  {
    if info.area == NotDetected {
      return "Aircraft position not detected";
    }
    var status := ["Area: " + Title(info.area)];
    ghost var before := status;
    if info.specificLocation.Some? && info.specificLocation.value != "" {
      status := status + ["Location: " + info.specificLocation.value];
    }
    AppendWhen(before, Shown(info.specificLocation), "Location: " + Text(info.specificLocation));
    before := status;
    if info.taxiway.Some? && info.taxiway.value != "" {
      status := status + ["Taxiway: " + info.taxiway.value];
    }
    AppendWhen(before, Shown(info.taxiway), "Taxiway: " + Text(info.taxiway));
    before := status;
    if info.runway.Some? && info.runway.value != "" {
      status := status + ["Runway: " + info.runway.value];
    }
    AppendWhen(before, Shown(info.runway), "Runway: " + Text(info.runway));
    before := status;
    if info.distanceToCenter.Some? {
      status := status + ["Distance to center: " + meters(info.distanceToCenter.value) + " meters"];
    }
    AppendWhen(before, info.distanceToCenter.Some?, "Distance to center: " + Number(info.distanceToCenter, meters) + " meters");
    before := status;
    if info.heading.Some? {
      status := status + ["Heading: " + oneDecimal(info.heading.value) + "°"];
    }
    AppendWhen(before, info.heading.Some?, "Heading: " + Number(info.heading, oneDecimal) + "°");
    before := status;
    if info.speed.Some? {
      status := status + ["Speed: " + oneDecimal(info.speed.value) + " m/s"];
    }
    AppendWhen(before, info.speed.Some?, "Speed: " + Number(info.speed, oneDecimal) + " m/s");
    text := Join(" | ", status);
  }
}
