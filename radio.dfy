/** The state behind the radio panel (radio_display.py): the active and
    standby frequencies in MHz and the aircraft information fields.  The
    widgets, the UDP traffic and the update thread are not modelled; each
    method is the field update its handler performs. */
module Radio {
  import opened Common

  /** The band the standby frequency is kept in. */
  const LowestFrequency: real := 118.0
  const HighestFrequency: real := 136.975

  /** The callsign the panel falls back to, as the ATC manager does. */
  const DefaultCallsign: string := "aabbcc"

  /** The aircraft information fields, in the order they are created. */
  const Fields: seq<string> := ["callsign", "type", "position", "altitude", "heading"]
  const FieldSet: set<string> := {"callsign", "type", "position", "altitude", "heading"}

  predicate InBand(f: real)
  {
    LowestFrequency <= f <= HighestFrequency
  }

  /** `max(118.000, min(136.975, f))`. */
  function ClampFrequency(f: real): (r: real)
    ensures InBand(r)
    ensures InBand(f) ==> r == f
    ensures f < LowestFrequency ==> r == LowestFrequency
    ensures f > HighestFrequency ==> r == HighestFrequency
  {
    var upper := if HighestFrequency <= f then HighestFrequency else f;
    if LowestFrequency >= upper then LowestFrequency else upper
  }

  /** One click: 1 MHz for a coarse adjustment, 5 kHz for anything else. */
  function StepSize(adjustmentType: string): (r: real)
    ensures r > 0.0
    ensures adjustmentType == "coarse" <==> r == 1.0
  {
    if adjustmentType == "coarse" then 1.0 else 0.005
  }

  /** The two frequencies the panel shows. */
  datatype Tuning = Tuning(active: real, standby: real)

  /** adjust_frequency on the frequencies: only the standby one moves, by
      direction times the step, and is clamped into the band. */
  function Adjusted(t: Tuning, freqType: string, adjustmentType: string, direction: real): (r: Tuning)
    ensures r.active == t.active
    ensures freqType != "standby" ==> r == t
    ensures freqType == "standby" ==> InBand(r.standby)
  {
    if freqType != "standby" then t
    else t.(standby := ClampFrequency(t.standby + direction * StepSize(adjustmentType)))
  }

  /** swap_frequencies on the frequencies. */
  function Swapped(t: Tuning): (r: Tuning)
    ensures r.active == t.standby && r.standby == t.active
  {
    Tuning(t.standby, t.active)
  }

  /** Two swaps restore the pair. */
  lemma SwapTwiceRestores(t: Tuning)
    ensures Swapped(Swapped(t)) == t
  {
  }

  /** Within the band, a click moves the standby frequency by exactly one
      step, up for a positive direction and down for a negative one, and
      at the band edge it stays put instead of leaving the band. */
  lemma AdjustMovesByOneStep(t: Tuning, adjustmentType: string, direction: real)
    requires InBand(t.standby)
    ensures var s := Adjusted(t, "standby", adjustmentType, direction).standby;
      (direction >= 0.0 ==> t.standby <= s)
      && (direction <= 0.0 ==> s <= t.standby)
      && (InBand(t.standby + direction * StepSize(adjustmentType)) ==> s == t.standby + direction * StepSize(adjustmentType))
  {
    var step := StepSize(adjustmentType);
    if direction >= 0.0 {
      assert direction * step >= 0.0;
    } else {
      assert direction * step < 0.0;
    }
  }

  /** update_aircraft_info: the value stored for a field (an empty callsign
      is replaced by the default). */
  function Stored(field: string, value: string): (r: string)
    ensures field != "callsign" ==> r == value
    ensures field == "callsign" ==> r != ""
    ensures field == "callsign" && value == "" ==> r == DefaultCallsign
    ensures value != "" ==> r == value
  {
    if field == "callsign" && value == "" then DefaultCallsign else value
  }

  /** The information after update_aircraft_info(f, '') for each f of fs in turn. */
  function Cleared(info: map<string, string>, fs: seq<string>): map<string, string>
  {
    if fs == [] then info
    else
      var f := fs[|fs| - 1];
      Cleared(info, fs[..|fs| - 1])[f := Stored(f, "")]
  }

  /** Clearing empties every field it visits, except that the callsign
      gets the default, and adds no other field. */
  lemma {:induction false} ClearedFields(info: map<string, string>, fs: seq<string>)
    ensures Cleared(info, fs).Keys == info.Keys + set f | f in fs
    ensures forall f :: f in fs ==> Cleared(info, fs)[f] == Stored(f, "")
    ensures forall f :: f in info && f !in fs ==> Cleared(info, fs)[f] == info[f]
  {
    if fs != [] {
      var init := fs[..|fs| - 1];
      ClearedFields(info, init);
      assert fs == init + [fs[|fs| - 1]];
    }
  }

  class RadioDisplay {
    var activeFreq: real
    var standbyFreq: real
    var aircraftInfo: Dict<string, string>

    /** Both frequencies stay in the band, the information fields are
        exactly the five created, and the callsign is never empty. */
    predicate Valid()
      reads this
    {
      InBand(activeFreq) && InBand(standbyFreq)
      && aircraftInfo.keys == Fields && aircraftInfo.entries.Keys == FieldSet
      && aircraftInfo.entries["callsign"] != ""
    }

    function Frequencies(): Tuning
      reads this
    {
      Tuning(activeFreq, standbyFreq)
    }

    /** The initial state: 118.700 active, 121.500 standby, the default
        callsign and every other field empty. */
    constructor()
      ensures Valid()
      ensures activeFreq == 118.7 && standbyFreq == 121.5
      ensures aircraftInfo.entries == map["callsign" := DefaultCallsign, "type" := "", "position" := "",
                                          "altitude" := "", "heading" := ""]
    {
      activeFreq := 118.7;
      standbyFreq := 121.5;
      aircraftInfo := Dict(map["callsign" := DefaultCallsign, "type" := "", "position" := "",
                               "altitude" := "", "heading" := ""], Fields);
    }

    /** adjust_frequency. */
    method AdjustFrequency(freqType: string, adjustmentType: string, direction: real)
      requires Valid()
      modifies this
      ensures Valid()
      ensures Frequencies() == Adjusted(old(Frequencies()), freqType, adjustmentType, direction)
      ensures aircraftInfo == old(aircraftInfo)
    {
      if freqType != "standby" {
        return;
      }
      var freq := standbyFreq;
      var step := if adjustmentType == "coarse" then 1.0 else 0.005;
      var newFreq := freq + direction * step;
      newFreq := Max(118.0, if 136.975 <= newFreq then 136.975 else newFreq);
      standbyFreq := newFreq;
    }

    /** swap_frequencies. */
    method SwapFrequencies()
      requires Valid()
      modifies this
      ensures Valid()
      ensures Frequencies() == Swapped(old(Frequencies()))
      ensures aircraftInfo == old(aircraftInfo)
    {
      activeFreq, standbyFreq := standbyFreq, activeFreq;
    }

    /** update_aircraft_info: a field the panel does not show is ignored;
        otherwise the value is stored, and an empty callsign is then reset
        to the default. */
    method UpdateAircraftInfo(field: string, value: string)
      requires Valid()
      modifies this
      ensures Valid()
      ensures aircraftInfo.keys == Fields
      ensures field !in Fields ==> aircraftInfo == old(aircraftInfo)
      ensures field in Fields ==> aircraftInfo.entries == old(aircraftInfo.entries)[field := Stored(field, value)]
      ensures Frequencies() == old(Frequencies())
    {
      if field in Fields {
        aircraftInfo := Put(aircraftInfo, field, value);
        if field == "callsign" && value == "" {
          aircraftInfo := Put(aircraftInfo, field, DefaultCallsign);
        }
      }
    }

    /** clear_aircraft_info: every field updated with the empty string, in
        order, which leaves the default callsign and empties the rest. */
    method ClearAircraftInfo()
      requires Valid()
      modifies this
      ensures Valid()
      ensures aircraftInfo.entries == Cleared(old(aircraftInfo.entries), Fields)
      ensures Frequencies() == old(Frequencies())
    {
      var i := 0;
      while i < |aircraftInfo.keys|
        invariant 0 <= i <= |Fields| && aircraftInfo.keys == Fields
        invariant Valid()
        invariant aircraftInfo.entries == Cleared(old(aircraftInfo.entries), Fields[..i])
        invariant Frequencies() == old(Frequencies())
      {
        UpdateAircraftInfo(aircraftInfo.keys[i], "");
        assert Fields[..i + 1][..i] == Fields[..i];
        i := i + 1;
      }
      assert Fields[..i] == Fields;
    }
  }
}
