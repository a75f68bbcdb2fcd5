/** The aircraft registry (aircraft_data.py): sixteen aircraft types
    keyed by a code, and the lookups over them.  The registry is a value
    (the module-level singleton is not modelled); the dict keeps its keys
    in the order the display lists them. */
module Aircraft {
  import opened Common

  datatype AircraftType = AircraftType(
    name: string,
    nameFull: string,
    icaoCode: string,
    aeroflyCode: string,
    cruiseSpeedKts: int,
    approachAirspeedKts: int,
    cruiseAltitudeFt: int,
    maximumRangeNm: int,
    tags: seq<string>,
    hasRadioNav: bool,
    runwayTakeoff: Option<int>,
    runwayLanding: Option<int>)

  type Registry = Dict<string, AircraftType>

  /** The dict display of _load_aircraft_data, pair by pair. */
  function Entries(): (ps: seq<(string, AircraftType)>)
    ensures |ps| == 16
  {
    [
      ("A319", AircraftType("A319", "Airbus A319-115", "A319", "a319",
        453, 142, 32000, 3747,
        ["airliner", "jet"], true, Some(8000), Some(6000))),
      ("A320", AircraftType("A320", "Airbus A320-214", "A320", "a320",
        453, 142, 32000, 3321,
        ["airliner", "jet"], true, Some(7186), Some(4725))),
      ("A321", AircraftType("A321", "Airbus A321-213", "A321", "a321",
        453, 145, 32000, 3186,
        ["airliner", "jet"], true, Some(8000), Some(6000))),
      ("A380", AircraftType("A380", "Airbus A380-800", "A388", "a380",
        517, 142, 36000, 8207,
        ["airliner", "jet", "widebody"], true, Some(8000), Some(6000))),
      ("B735", AircraftType("B737-500", "Boeing 737-500", "B735", "b737",
        490, 125, 33000, 2808,
        ["airliner", "jet"], true, Some(8000), Some(6000))),
      ("B739", AircraftType("B737-900ER", "Boeing 737-900ER", "B739", "b737_900",
        453, 144, 37000, 2948,
        ["airliner", "jet"], true, Some(8000), Some(6000))),
      ("B39M", AircraftType("B737 MAX 9", "Boeing 737 MAX 9", "B39M", "b737_max9",
        453, 144, 37000, 3548,
        ["airliner", "jet"], true, Some(8000), Some(6000))),
      ("B744", AircraftType("B747-400", "Boeing 747-400", "B744", "b747",
        492, 145, 34000, 7262,
        ["airliner", "jet", "widebody"], true, Some(8000), Some(6000))),
      ("B77F", AircraftType("B777F", "Boeing 777F", "B77F", "b777f",
        482, 147, 41000, 9750,
        ["airliner", "jet", "widebody"], true, Some(8000), Some(6000))),
      ("B77W", AircraftType("B777-300ER", "Boeing 777-300ER", "B77W", "b777_300er",
        482, 145, 41000, 7370,
        ["airliner", "jet", "widebody"], true, Some(8000), Some(6000))),
      ("B78X", AircraftType("B787-10", "Boeing 787-10 Dreamliner", "B78X", "b787",
        482, 150, 40000, 6425,
        ["airliner", "jet", "widebody"], true, Some(8000), Some(6000))),
      ("C172", AircraftType("C172", "Cessna 172 SP Skyhawk", "C172", "c172",
        130, 62, 8000, 1031,
        ["general_aviation", "trainer", "piston"], true, Some(960), Some(575))),
      ("BE9L", AircraftType("King Air", "Beechcraft King Air C90 GTx", "BE9L", "c90gtx",
        272, 100, 18000, 1192,
        ["general_aviation", "executive", "turboprop"], true, Some(2557), Some(3417))),
      ("CRJ9", AircraftType("CRJ-900LR", "Bombardier CRJ-900LR", "CRJ9", "crj900",
        470, 125, 38000, 1550,
        ["airliner", "regional", "jet"], true, Some(8000), Some(6000))),
      ("DH8D", AircraftType("Q400", "Bombardier Dash-8 Q400", "DH8D", "q400",
        286, 135, 24000, 2808,
        ["airliner", "regional", "turboprop"], true, Some(8000), Some(6000))),
      ("LJ45", AircraftType("Learjet 45", "Bombardier Learjet 45", "LJ45", "lj45",
        486, 120, 41000, 1710,
        ["general_aviation", "executive", "jet"], true, Some(4348), Some(2658)))
    ]
  }

  /** _load_aircraft_data. */
  function LoadAircraftData(): (d: Registry)
    ensures Ordered(d)
  {
    FromPairs(Entries())
  }

  /** get_aircraft_type: the record stored under the key, or None. */
  function GetAircraftType(d: Registry, icaoCode: string): (r: Option<AircraftType>)
    ensures r.Some? <==> icaoCode in d.entries
    ensures r.Some? ==> r.value == d.entries[icaoCode]
  {
    Get(d, icaoCode)
  }

  /** get_all_aircraft_types: the records in key order. */
  function GetAllAircraftTypes(d: Registry): (r: seq<AircraftType>)
    requires Ordered(d)
    ensures |r| == |d.keys|
    ensures forall i :: 0 <= i < |r| ==> r[i] == d.entries[d.keys[i]]
  {
    Values(d)
  }

  /** get_aircraft_by_tag: the records carrying the tag, in key order. */
  function GetAircraftByTag(d: Registry, tag: string): (r: seq<AircraftType>)
    requires Ordered(d)
    ensures forall a :: a in r <==> a in GetAllAircraftTypes(d) && tag in a.tags
  {
    var keep := (a: AircraftType) => tag in a.tags;
    FilterMembers(GetAllAircraftTypes(d), keep);
    Filter(GetAllAircraftTypes(d), keep)
  }

  /** get_aircraft_by_type: the same comprehension as get_aircraft_by_tag. */
  function GetAircraftByType(d: Registry, aircraftType: string): (r: seq<AircraftType>)
    requires Ordered(d)
    ensures forall a :: a in r <==> a in GetAllAircraftTypes(d) && aircraftType in a.tags
  {
    GetAircraftByTag(d, aircraftType)
  }

  /** The sixteen keys of the display are distinct. */
  lemma KeysDistinct()
    ensures forall i, j :: 0 <= i < j < |Entries()| ==> Entries()[i].0 != Entries()[j].0
  {
    var ps := Entries();
    forall i, j | 0 <= i < j < |ps|
      ensures ps[i].0 != ps[j].0
    {
      assert ps[i].0[..] != ps[j].0[..];
    }
  }

  /** get_all_aircraft_types lists each of the sixteen records once, in
      the order of the display. */
  lemma EveryRecordOnce()
    ensures GetAllAircraftTypes(LoadAircraftData()) == Seconds(Entries())
    ensures |Seconds(Entries())| == 16
    ensures forall i, j :: 0 <= i < j < 16 ==> Seconds(Entries())[i] != Seconds(Entries())[j]
  {
    KeysDistinct();
    ValuesOfDistinctPairs(Entries());
    RecordsDistinct();
  }

  lemma RecordsDistinct()
    ensures forall i, j :: 0 <= i < j < 16 ==> Seconds(Entries())[i] != Seconds(Entries())[j]
  {
    var ps := Entries();
    forall i, j | 0 <= i < j < 16
      ensures ps[i].1 != ps[j].1
    {
      assert ps[i].1.aeroflyCode != ps[j].1.aeroflyCode;
    }
  }

  /** Keys are not always ICAO codes: the A380 is stored under "A380"
      although its icao_code is "A388", so looking up "A388" finds nothing. */
  lemma A388IsNotAKey()
    ensures GetAircraftType(LoadAircraftData(), "A380") == Some(Entries()[3].1)
    ensures Entries()[3].1.icaoCode == "A388"
    ensures GetAircraftType(LoadAircraftData(), "A388") == None
  {
    A380Stored();
    A388Absent();
  }

  lemma A380Stored()
    ensures GetAircraftType(LoadAircraftData(), "A380") == Some(Entries()[3].1)
  {
    var ps := Entries();
    assert ps[3].0 == "A380";
    KeysDistinct();
    LookupOfDistinctPairs(ps, 3);
  }

  lemma A388Absent()
    ensures GetAircraftType(LoadAircraftData(), "A388") == None
  {
    NoKeyA388();
    AbsentFromPairs(Entries(), "A388");
  }

  lemma NoKeyA388()
    ensures forall i :: 0 <= i < |Entries()| ==> Entries()[i].0 != "A388"
  {
  }
}
