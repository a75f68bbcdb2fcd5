# Airport ATC simulator core, modelled in Dafny

This project models the core of a small air-traffic-control simulator for a
flight simulator. Its parts are:

- the airport layout: runways, taxiways made of segments, parking stands and
  holding points;
- the geometry used to place the aircraft on that layout;
- the position detector, which classifies a GPS and attitude sample as in
  flight, at parking, on a taxiway, at a holding point or on a runway;
- the ATC state manager, which walks a scripted Ground and Tower dialogue
  driven by the pilot's readbacks;
- the OpenStreetMap extractor, which turns OSM nodes and ways into an airport
  layout;
- the radio panel's frequency and aircraft-information state;
- the table of aircraft types.

There is one module per source file:

| module | file | what it holds |
|---|---|---|
| `Common` | `common.dfy` | Python idioms: `Option`, first-minimum scans, `lower()`/`strip()`, `join`, and dicts with insertion order |
| `Geometry` | `geometry.dfy` | the planar part of `utils/geo_utils.py` and the point-to-segment distance |
| `Airport` | `airport.dfy` | `airport_manager.py` |
| `Position` | `position.dfy` | `position_detector.py` |
| `Atc` | `atc.dfy` | `atc_state_manager.py` |
| `Osm` | `osm.dfy` | `osm_airport_extractor.py` |
| `Radio` | `radio.dfy` | `radio_display.py` |
| `Aircraft` | `aircraft.dfy` | `aircraft_data.py` |

Each module keeps its source's form.

Pure computations are functions with lemmas: layout queries, distances,
classification and the transition table.

Code that changes state is a class with `modifies` clauses. Four classes
do this:

- `AtcStateManager` updates its state, status, callsign, table and outgoing messages;
- `PositionDetector` updates the last position and time;
- `OsmAirportExtractor` updates its node and way dicts;
- `RadioDisplay` updates its two frequencies and its aircraft-information dict.

Every loop of the source is a method with invariants, with two exceptions:
the early-return scans of `is_at_holding_point`
(airport_manager.py:484-490) and `_are_taxiways_connected`
(airport_manager.py:467-474) are modelled as the function
`Airport.IsAtHoldingPoint` and the predicate `Airport.AreTaxiwaysConnected`.
Each loop method is proved equal to a specification function, and the
source's promises are proved as lemmas about that function.

Conventions of the model:

- **Distances** are kept squared (`Dist = Sq(s) | Inf`). Every comparison
  the source makes on a square root is restated exactly on squares. The
  source's `float('inf')` is the `Inf` case.
- **Spherical trigonometry** is a parameter: the degree-to-metre
  conversion, the haversine distance and the initial bearing are the
  function-valued fields of `Earth`.
- **Dicts** are a map plus the keys in first-insertion order. This is
  because the Python code depends on `dict.values()` order: the first
  aerodrome name and the order of runways.
- **Python errors** are outcomes. `KeyError`, `IndexError` and `ValueError`
  in the extractor become `Raised(...)`, and the model states which input
  raises which error.

## Model

| member | source | states |
|---|---|---|
| Common.FirstArgMin | airport_manager.py:336 | the index `min(..., key=...)` picks: a smallest key, and strictly smaller than every key before it (the first among ties) |
| Common.Strip | atc_state_manager.py:366 | `strip()` returns a string with no white space at either end, no longer than its input |
| Common.StripRemovesOnlyEnds | atc_state_manager.py:366 | `strip()` returns a slice of its input, and everything cut off at either end is white space |
| Common.StripPadded | atc_state_manager.py:366 | `strip()` removes any white-space padding from a string whose own ends are not white space |
| Common.LowerAlike | atc_state_manager.py:366 | two strings lower-case alike whenever their characters do, place by place |
| Common.PutEachKeys | osm_airport_extractor.py:34-47 | after storing a run of entries, a key is present iff it was before or some entry has it, and keys no entry names keep their old value |
| Common.PutEachLastWins | osm_airport_extractor.py:34-47 | when the same key is stored several times, the last entry with that key is the value kept |
| Common.FilterMembers | aircraft_data.py:263-269 | a list comprehension with a condition keeps exactly the elements that satisfy it |
| Geometry.Clamp01 | utils/geo_utils.py:112-116 | the clamped projection parameter lies in [0, 1] and equals the parameter when the parameter is already in range |
| Geometry.SegmentDistanceInfIffDegenerate | utils/geo_utils.py:108-110 | the distance to a segment is infinite exactly when its two ends coincide, and is otherwise non-negative |
| Geometry.SegmentDistanceIsToPointOnSegment | utils/geo_utils.py:112-124 | for a proper segment, the distance is measured to the point at the clamped parameter, which lies on the segment |
| Geometry.SegmentDistanceIsMinimal | utils/geo_utils.py:80-124 | no point of the segment is closer to the position than the returned distance |
| Geometry.SegmentDistanceAtMostEndpoints | utils/geo_utils.py:80-124 | the distance to a segment is at most the distance to either of its ends |
| Geometry.SegmentDistanceZeroAtEndpoints | utils/geo_utils.py:80-124 | a position on an end of the segment is at distance zero |
| Geometry.LineDistanceIsMinimal | airport_manager.py:93-130 | the unclamped, perpendicular distance is at most the distance to any point of the infinite center line |
| Geometry.LineDistanceAtMostSegmentDistance | airport_manager.py:93-130 | the distance to the center line never exceeds the distance to the runway segment |
| Airport.Allowance | airport_manager.py:537-541 | the on-runway allowance is at least the caller's threshold and at least half the runway width in degrees |
| Airport.RunwayHeading | airport_manager.py:55-62 | a stored heading is returned as given; otherwise the bearing from threshold 1 to threshold 2 |
| Airport.DistanceToCenterIsPerpendicular | airport_manager.py:93-130 | a runway's distance to center is infinite iff its thresholds coincide; otherwise it is the least distance to the center line, and at most the distance to the runway segment |
| Airport.ParkingDistance | airport_manager.py:227-231 | a stand's distance is finite and non-negative, and zero exactly at the stand |
| Airport.HoldingDistance | airport_manager.py:238-241 | a holding point's distance is finite and non-negative, and zero exactly at the point |
| Airport.GetNearestParking | airport_manager.py:318-341 | no stands give None; a stand returned is within the threshold, a nearest one and the first among equally near; None means every stand is beyond the threshold |
| Airport.GetActiveRunway | airport_manager.py:343-351 | None iff there are no runways; otherwise the first runway whose wind angle is smallest, with that angle in [0, 360) |
| Airport.IsAtHoldingPoint | airport_manager.py:476-490 | None iff no holding point's box contains the position; otherwise the first holding point whose box does |
| Airport.IsOnRunwayMeansNearCenterSegment | airport_manager.py:492-551 | on a runway iff the thresholds differ, the position projects between them, and its distance to the runway segment is within the allowance |
| Airport.IsOnRunwayFalseCases | airport_manager.py:492-551 | no runway, or a runway whose thresholds coincide, is never "on runway"; being on a runway puts the center-line distance within the allowance |
| Airport.SegmentDistInfIffDegenerate | airport_manager.py:425-455 | a taxiway segment's distance is infinite exactly when its ends coincide in metres, and is otherwise non-negative |
| Airport.TaxiwayDistanceTo | airport_manager.py:171-216 | the loop over a taxiway's segments returns the taxiway's distance as specified |
| Airport.TaxiwayDistanceInfIffAllInf | airport_manager.py:171-216 | a taxiway's distance is infinite iff every one of its segments is |
| Airport.TaxiwayDistanceIsLeast | airport_manager.py:171-216 | a finite taxiway distance is the distance of one of its segments, and no segment is closer |
| Airport.FirstNearest | airport_manager.py:403-423 | the scan's choice: None iff every segment is at infinity; otherwise a finite one that no segment beats, strictly nearer than every earlier one |
| Airport.HitsCoverEverySegment | airport_manager.py:403-423 | the nested scan visits every segment of every taxiway |
| Airport.ScanSegments | airport_manager.py:403-423 | the nested loops leave the best segment and its distance over all taxiways |
| Airport.FindNearestTaxiwaySegment | airport_manager.py:403-423 | the method returns the nearest segment as specified |
| Airport.NearestSegmentIsNearest | airport_manager.py:403-423 | None iff every segment is at infinity; otherwise the result names a taxiway and one of its segments at that distance, and no segment anywhere is closer |
| Airport.NearestSegmentIsNamed | airport_manager.py:403-423 | the taxiway named by the nearest segment is a taxiway of the layout |
| Airport.NearestTaxiwayIsNearest | airport_manager.py:582-620 | a taxiway returned owns a nearest segment, and that segment is within the allowance for the taxiway's width; no nearest segment gives None; when a nearest segment exists, the taxiway returned is its owner and one is returned exactly when that segment is within the owner's allowance |
| Airport.GetNearestTaxiway | airport_manager.py:582-620 | the method returns the nearest taxiway as specified |
| Airport.FirstNamedIsFirst | airport_manager.py:457-474 | the lookup by name is None iff no taxiway has that name; otherwise it is the first taxiway with that name |
| Airport.ConnectedIsSymmetric | airport_manager.py:457-474 | taxiway connection is symmetric in its two names |
| Airport.ConnectedNamesExist | airport_manager.py:457-474 | only existing taxiways are connected, and a taxiway with segments is connected to itself |
| Airport.SearchStarts | airport_manager.py:383-384 | the breadth-first search's first queue satisfies the search invariant |
| Airport.FrontIsShortest | airport_manager.py:386-401 | under the search invariant, a queue front at the goal carries a shortest route, and an empty queue means no route exists |
| Airport.ReachedInOrder | airport_manager.py:386-401 | every node of any route from the start is either visited within its distance or not yet beaten by the queue front |
| Airport.NeighbourEntriesCoverEdges | airport_manager.py:397-399 | every taxiway connected to the current one is queued as a neighbour |
| Airport.NeighbourEntriesAreMoves | airport_manager.py:397-399 | every queued neighbour extends the current path by one connected taxiway |
| Airport.AppendNeighbours | airport_manager.py:397-399 | the loop appends exactly the neighbour entries to the queue |
| Airport.SearchRoute | airport_manager.py:382-401 | a non-empty route found is a route from start to goal, and no route is shorter; an empty result means no route exists |
| Airport.GetTaxiRoute | airport_manager.py:353-401 | no taxiways, or no nearest segment at either end, gives []; the same taxiway at both ends gives that one name; otherwise a shortest route between the two taxiways, or [] when none exists |
| Position.FirstOnRunwayIsFirst | position_detector.py:124-138 | the runway scan finds nothing iff no runway matches; otherwise the first matching runway |
| Position.ClassifyWithoutData | position_detector.py:59-61 | missing GPS or attitude gives NOT_DETECTED with nothing else set; otherwise heading and speed are copied from the sample |
| Position.ClassifyInFlight | position_detector.py:83-92 | IN_FLIGHT iff above 500 m and faster than 50 m/s |
| Position.ClassifyAtParking | position_detector.py:95-101 | AT_PARKING iff on the ground, slower than 0.5 m/s and the nearest stand is closer than 0.00005 degrees (about 5.5 m); the stand's name is reported |
| Position.ClassifySlow | position_detector.py:95-124 | on the ground at 0.5 m/s or less, only AT_PARKING or NOT_DETECTED is possible; at exactly 0.5 m/s nothing is detected |
| Position.ClassifyOnTaxiway | position_detector.py:104-112 | ON_TAXIWAY iff moving and the nearest taxiway is closer than 0.00005 m (the distance is in metres; the source comment says 5 m); its name and distance are reported |
| Position.ClassifyAtHoldingPoint | position_detector.py:115-121 | AT_HOLDING_POINT iff moving, not on a taxiway and inside a holding point's box; its name and associated runway are reported |
| Position.HoldingBranchFailsAsWritten | position_detector.py:115-121 | the code as written raises exactly where the corrected classification reports a holding point, and agrees with it everywhere else |
| Position.HoldingPointExample | position_detector.py:115-121 | a concrete sample at a holding point: the code as written fails on the missing `runway` attribute, while the corrected model reports runway "18R" |
| Position.ClassifyOnRunway | position_detector.py:124-138 | ON_RUNWAY iff moving, on no taxiway, at no holding point and some runway matches; the first matching runway and its center distance are reported |
| Position.PositionDetector.constructor | position_detector.py:31-35 | a new detector keeps its layout and has no last position or update time |
| Position.PositionDetector.DetectPosition | position_detector.py:55-141 | the result is the classification of the sample; a sample with data records its position and time, and one without leaves them unchanged |
| Position.FindRunway | position_detector.py:124-138 | the loop over runways returns the first matching runway, as specified |
| Position.StatusPartsShowFields | position_detector.py:143-164 | the status starts with the area, has one part per field that is shown and no other, and each shown field's part is present |
| Position.FormatPositionInfo | position_detector.py:143-164 | NOT_DETECTED is reported as "Aircraft position not detected"; anything else is the parts joined by " \| " |
| Atc.GetFrequency | atc_state_manager.py:86-88 | each staffed state gets its own frequency, and WAITING has none |
| Atc.Step | atc_state_manager.py:165-174 | every scripted transition expects "<phrase>, <callsign>" and sends exactly one message |
| Atc.SetupTransitions | atc_state_manager.py:153-289 | the table has twelve transitions, every one scripted and expecting a readback that ends in the callsign |
| Atc.ScriptIsChained | atc_state_manager.py:153-289 | the message sent after each of the first eleven transitions is the trigger of some transition of the table |
| Atc.GroundOpensWithPushback | atc_state_manager.py:165-174 | the first Ground transition goes from Ground at the gate to Ground, expects "Requesting pushback, <callsign>" and answers with the pushback approval |
| Atc.Applicable | atc_state_manager.py:344-348 | the applicable transitions are exactly those from the current state that allow the current status, and the first one is the first such in table order |
| Atc.GetExpectedResponse | atc_state_manager.py:291-313 | None iff no transition applies; otherwise the type and action of the first applicable transition |
| Atc.ExpectedOf | atc_state_manager.py:291-313 | each readback, acknowledgement and ready-report flag is set iff the response type is that kind |
| Atc.ExpectedFlagsExclusive | atc_state_manager.py:291-313 | at most one flag is set, and exactly one unless no response is expected |
| Atc.AtcStateManager.GetNextMessage | atc_state_manager.py:315-330 | None iff no transition applies; otherwise the trigger message of the first applicable transition |
| Atc.MatchResponse | atc_state_manager.py:362-372 | no match iff nothing applicable was heard; otherwise the first one heard, rejected iff it hands off to Tower or Departure with a non-empty, wrong frequency |
| Atc.FindMatch | atc_state_manager.py:362-372 | the loop over applicable transitions returns the specified match outcome |
| Atc.StatusAfter | atc_state_manager.py:379-386 | "pushback", then "taxi", then "hold short" in the lower-cased response set the new status, in that priority; otherwise the status is kept |
| Atc.AtcStateManager.constructor | atc_state_manager.py:134-151 | a new manager is in GROUND with the aircraft AT_GATE, callsign "aabbcc" and the table built for that callsign |
| Atc.AtcStateManager.ProcessResponse | atc_state_manager.py:332-408 | success iff the match outcome is a match; on success the state moves to the target, the status is re-derived from the response and the next message is sent on the target's frequency; on failure nothing changes |
| Atc.AtcStateManager.AdoptCallsign | atc_state_manager.py:412-417 | a callsign that is present and not blank is adopted stripped and the table is rebuilt for it; otherwise both are kept |
| Atc.AtcStateManager.HandlePilotMessage | atc_state_manager.py:410-425 | adopts the callsign, then processes the message; when there is no match, state and status are kept and "<callsign>, standby" is sent on the current frequency |
| Atc.AtcStateManager.UpdateAircraftStatus | atc_state_manager.py:427-430 | only the status changes, to the new value |
| Atc.AtcStateManager.GetCurrentFrequency | atc_state_manager.py:432-434 | the frequency of the current state, always present in a valid manager |
| Atc.VerbatimReadbackMatches | atc_state_manager.py:366 | reading back a transition's expected response word for word is a match |
| Atc.ScriptedReadbacksMatch | atc_state_manager.py:366 | for any trimmed callsign, every transition of the table is matched by its own readback |
| Atc.ReadbackIgnoresCaseAndPadding | atc_state_manager.py:366 | a readback in any letter case, padded with white space, still matches |
| Atc.FirstApplicableHeard | atc_state_manager.py:362-377 | when the first transition of the table applies and is heard with an acceptable frequency, it is the one taken |
| Atc.PushbackRequestAccepted | atc_state_manager.py:165-174 | for any callsign, hearing the pushback readback from Ground at the gate takes the pushback request, which stays with Ground and answers with the approval |
| Atc.PushbackRequestHeard | atc_state_manager.py:366 | " requesting pushback, AABBCC " is heard as the pushback readback for "aabbcc" |
| Atc.PushbackScenario | atc_state_manager.py:165-174 | from GROUND/AT_GATE, " requesting pushback, AABBCC " is a match that stays in GROUND and sends "Ground: aabbcc, pushback approved, face east" |
| Atc.PushbackScenarioStatus | atc_state_manager.py:381-382 | that response puts the aircraft into PUSHBACK |
| Aircraft.Entries | aircraft_data.py:28-253 | the table holds sixteen records |
| Aircraft.LoadAircraftData | aircraft_data.py:26-253 | the loaded dict is well formed: its keys are distinct and match its entries |
| Aircraft.GetAircraftType | aircraft_data.py:255-257 | a record is found iff the code is a key, and it is that key's record |
| Aircraft.GetAllAircraftTypes | aircraft_data.py:259-261 | one record per key, in key order |
| Aircraft.GetAircraftByTag | aircraft_data.py:263-265 | exactly the records carrying the tag |
| Aircraft.GetAircraftByType | aircraft_data.py:267-269 | exactly the records carrying the given type as a tag |
| Aircraft.KeysDistinct | aircraft_data.py:28-253 | the sixteen keys of the table are distinct |
| Aircraft.EveryRecordOnce | aircraft_data.py:259-261 | listing all types gives every record of the table once, in table order, with no repeats |
| Aircraft.A388IsNotAKey | aircraft_data.py:71-74 | the A380 record is filed under "A380" while its ICAO code is "A388", so looking up "A388" finds nothing |
| Radio.ClampFrequency | radio_display.py:100-101 | the clamped frequency lies in 118.000-136.975, equals the input when the input is in band, and is the nearer band edge otherwise |
| Radio.StepSize | radio_display.py:98 | the step is positive, and 1.0 exactly for a coarse adjustment |
| Radio.Adjusted | radio_display.py:95-104 | only the standby frequency can change, it stays in band, and the active frequency never changes |
| Radio.AdjustMovesByOneStep | radio_display.py:95-104 | the standby moves in the direction asked, and by exactly one step when that stays in band |
| Radio.Swapped | radio_display.py:106-109 | active and standby trade places |
| Radio.SwapTwiceRestores | radio_display.py:106-109 | swapping twice restores both frequencies |
| Radio.Stored | radio_display.py:141-158 | any field but the callsign stores the value as given; an empty callsign is stored as the default "aabbcc", so the callsign is never stored empty |
| Radio.ClearedFields | radio_display.py:164-167 | clearing the fields keeps the same keys, sets each cleared field to its stored empty value and leaves other keys alone |
| Radio.RadioDisplay.constructor | radio_display.py:16-26 | a new panel has active 118.700, standby 121.500, callsign "aabbcc" and the other four fields empty |
| Radio.RadioDisplay.AdjustFrequency | radio_display.py:95-104 | the frequencies become their adjusted values and the aircraft information is unchanged |
| Radio.RadioDisplay.SwapFrequencies | radio_display.py:106-109 | the frequencies are swapped and the aircraft information is unchanged |
| Radio.RadioDisplay.UpdateAircraftInfo | radio_display.py:141-158 | an unknown field changes nothing; a known field gets its stored value; the frequencies are unchanged |
| Radio.RadioDisplay.ClearAircraftInfo | radio_display.py:164-167 | every field is cleared in turn through the update rule, so each field holds its stored empty value (the callsign becomes "aabbcc"); the frequencies are kept |
| Osm.ProcessedNodes | osm_airport_extractor.py:34-41 | a node element is stored under its id, unless a later node has the same id |
| Osm.ProcessedNodeIds | osm_airport_extractor.py:34-41 | an id is stored iff it was before or some node element has it, and nodes no element names are unchanged |
| Osm.ProcessedWays | osm_airport_extractor.py:42-47 | a way element is stored under its id, unless a later way has the same id |
| Osm.ProcessedWayIds | osm_airport_extractor.py:42-47 | an id is stored iff it was before or some way element has it, and ways no element names are unchanged |
| Osm.WayLengthOutcome | osm_airport_extractor.py:49-56 | with two or more nodes the length succeeds iff every node id is known; a KeyError names the first unknown id; a length is non-negative when the haversine distance is |
| Osm.WayLengthRaisedPersists | osm_airport_extractor.py:52-55 | once a KeyError is raised, later nodes do not change the outcome |
| Osm.NearestNodeIsNearest | osm_airport_extractor.py:58-71 | None iff every node is beyond the threshold; otherwise a stored node within the threshold that no node is closer than |
| Osm.RunwayOfOutcome | osm_airport_extractor.py:93-112 | IndexError iff the way has no nodes; success iff every node is known and the width parses; a runway runs from the first to the last node, with the way's length and a default width of 45 |
| Osm.SegmentsOfOutcome | osm_airport_extractor.py:118-126 | under two nodes gives no segments; otherwise success iff every node is known and the width parses, and each segment joins consecutive nodes with the same width (default 30) |
| Osm.SegmentsRaisedPersists | osm_airport_extractor.py:119-126 | once a segment raises, later nodes do not change the outcome |
| Osm.SegmentsAreChained | osm_airport_extractor.py:118-126 | each segment ends where the next one starts |
| Osm.ParkingOfOutcome | osm_airport_extractor.py:136-143 | a stand succeeds iff every present elevation, heading and size tag parses; otherwise the ValueError carries the value of the first tag, in the order elevation, heading, size, that did not; defaults are "", "Commercial", 0, 0 and 80 |
| Osm.HoldingPointOf | osm_airport_extractor.py:149-153 | a holding point never fails, sits at the node and is associated with "" by default |
| Osm.CollectOutcome | osm_airport_extractor.py:92-153 | a collection succeeds iff every selected element builds, giving one result per selected element in dict order; otherwise the failure of the first one that does not |
| Osm.CollectRaisedPersists | osm_airport_extractor.py:92-153 | once a collection raises, later elements do not change the outcome |
| Osm.AirportNameIsFirst | osm_airport_extractor.py:164-169 | the name is that of the first aerodrome way, or "" when it has no name tag |
| Osm.NoAerodromeNoName | osm_airport_extractor.py:164-169 | without an aerodrome way the name is "" |
| Osm.ExtractedRunways | osm_airport_extractor.py:92-112 | the layout keeps the ICAO code and has one runway per runway way, in dict order, each the record built from its way, with the way's end nodes as thresholds |
| Osm.ExtractedTaxiways | osm_airport_extractor.py:114-130 | one taxiway per taxiway way, in dict order, each the record built from its way, and consecutive segments of each share an endpoint |
| Osm.ExtractedPoints | osm_airport_extractor.py:132-153 | one stand per parking-position node, and one holding point per holding-position node, in dict order, each the record built from its node |
| Osm.OsmAirportExtractor.constructor | osm_airport_extractor.py:21-24 | a new extractor has no nodes and no ways |
| Osm.OsmAirportExtractor.ProcessOsmData | osm_airport_extractor.py:32-47 | the node and way dicts become the old ones with every node and way element stored in turn |
| Osm.OsmAirportExtractor.CalculateWayLength | osm_airport_extractor.py:49-56 | the loop returns the specified way length or KeyError |
| Osm.OsmAirportExtractor.FindNearestNode | osm_airport_extractor.py:58-71 | the loop returns the specified nearest node |
| Osm.OsmAirportExtractor.CollectRunways | osm_airport_extractor.py:92-112 | the loop returns the specified runway collection |
| Osm.OsmAirportExtractor.BuildSegments | osm_airport_extractor.py:118-126 | the loop returns the specified segments or error |
| Osm.OsmAirportExtractor.CollectTaxiways | osm_airport_extractor.py:114-130 | the loop returns the specified taxiway collection |
| Osm.OsmAirportExtractor.CollectParking | osm_airport_extractor.py:132-143 | the loop returns the specified stand collection |
| Osm.OsmAirportExtractor.CollectHoldingPoints | osm_airport_extractor.py:145-153 | the loop returns every holding point, and it cannot fail |
| Osm.OsmAirportExtractor.FindAirportName | osm_airport_extractor.py:164-169 | the loop returns the name of the first aerodrome way |
| Osm.OsmAirportExtractor.ExtractAirport | osm_airport_extractor.py:73-162 | the elements are stored, then the layout is extracted from the updated dicts |

## Left out

- Spherical trigonometry is not modelled. `haversine_distance`, `calculate_heading` and `lat_lon_to_meters` are the `Earth` parameter, and only their signs and definitions are used.
- Floating point is modelled as exact reals. Rounding is not modelled, and neither is the formatting of numbers (`:.2f`, `:.1f`); the formatting functions are parameters of `FormatPositionInfo`.
- `float(...)` parsing of OSM tags is the `parse` parameter. `None` stands for the `ValueError` it raises.
- Square roots are not taken: distances are compared on their squares.
- `lower()` only folds the ASCII letters A-Z. `strip()` uses Python's white-space set.
- I/O is not modelled:
  - the UDP receiver, the ATC message sender and its socket;
  - the controller thread, the message queue and `__del__`;
  - the Tk widgets of the radio panel, `get_aircraft_info`, and the loops that poll and display;
  - the Overpass HTTP query (osm_airport_extractor.py:26-30, 76-88) and each file's `main`;
  - loading the layout JSON (airport_manager.py:244-316);
  - logging and `print`.
- The clock is a parameter of `DetectPosition`, and the GPS/attitude sample is an argument.
- The runway heading computed at osm_airport_extractor.py:104 is not modelled. It is never used.
- Osm.OsmAirportExtractor.FindNearestNode: the default `threshold` of 0.001 (osm_airport_extractor.py:58) is not modelled. The caller always passes the threshold, and nothing in the source calls `_find_nearest_node`.
- OSM elements are typed values, so a missing `lat`, `lon`, `nodes` or `id` field is not modelled.
- Radio.Stored: the source writes the empty callsign into the dict and then replaces it with "aabbcc". The model stores only the final value, because the intermediate write is never observed.
- Aircraft.GetAircraftByType is defined through GetAircraftByTag, because the source's two comprehensions are identical.
- Atc.AtcStateManager.ProcessResponse: the draining of the message queue after a match (atc_state_manager.py:396-400) is not modelled, because the queue is left out.

## Findings

| source | as written | input that shows it | evidently intended | confidence | as-written member | corrected member |
|---|---|---|---|---|---|---|
| position_detector.py:120 | the holding-point branch reads `holding_point.runway`, but holding points only have `associated_with` (airport_manager.py:233-241), so the branch raises `AttributeError` | a sample at 52.0, 4.0 moving at 10 m/s, with a single holding point "A1" at that spot associated with "18R" | report the holding point's associated runway | not executed | Position.HoldingBranchFailsAsWritten, Position.HoldingPointExample | Position.ClassifyAtHoldingPoint |
