/** The scripted ATC phraseology state machine (atc_state_manager.py).

    A fixed, ordered table of transitions is built for the current callsign.
    The transitions that apply are those leaving the current ATC state whose
    required statuses include the current aircraft status; a pilot response
    is matched against their expected readbacks ignoring case and
    surrounding whitespace, and a match advances the state, re-derives the
    aircraft status from keywords in the text and sends the next scripted
    message.  Sent messages are kept in an append-only log. */
module Atc {
  import opened Common

  datatype ResponseType = Readback | Acknowledge | ReadyReport | NoResponse

  datatype ExpectedResponse = ExpectedResponse(
    kind: ResponseType,
    requiresReadback: bool,
    requiresAcknowledgment: bool,
    requiresReadyReport: bool,
    action: string)

  datatype AtcState = Ground | Tower | Departure | Approach | Center | Waiting

  datatype AircraftStatus =
    AtGate | Pushback | Taxiing | HoldingShort | LinedUp | Takeoff
  | Climbing | Cruising | Descending | Approaching | Landing | Landed

  datatype RadioFrequency = RadioFrequency(name: string, frequency: string, description: string)

  /** The radio_frequencies block of the airport description, one per role. */
  datatype RadioFrequencies = RadioFrequencies(
    ground: RadioFrequency,
    tower: RadioFrequency,
    departure: RadioFrequency,
    approach: RadioFrequency,
    center: RadioFrequency)

  /** RadioFrequencies.get_frequency: the role's frequency; WAITING has none. */
  function GetFrequency(freqs: RadioFrequencies, state: AtcState): (r: Option<RadioFrequency>)
    ensures r.None? <==> state == Waiting
    ensures state == Tower ==> r == Some(freqs.tower)
    ensures state == Departure ==> r == Some(freqs.departure)
    ensures state == Ground ==> r == Some(freqs.ground)
  {
    match state
    case Ground => Some(freqs.ground)
    case Tower => Some(freqs.tower)
    case Departure => Some(freqs.departure)
    case Approach => Some(freqs.approach)
    case Center => Some(freqs.center)
    case Waiting => None
  }

  datatype Transition = Transition(
    key: string,
    fromState: AtcState,
    toState: AtcState,
    requiredStatus: set<AircraftStatus>,
    triggerMessage: string,
    expectedResponse: string,
    nextActions: seq<string>,
    responseType: ResponseType,
    action: string)

  /** A message handed to the radio display: text, state and frequency. */
  datatype Sent = Sent(text: string, state: AtcState, frequency: string)

  /** The states a transition may lead to; each has a frequency. */
  predicate Staffed(state: AtcState)
  {
    state == Ground || state == Tower || state == Departure
  }

  /** "<station>: <callsign>, <phrase>" */
  function Call(station: string, callsign: string, phrase: string): string
  {
    station + ": " + callsign + ", " + phrase
  }

  /** "<phrase>, <callsign>" */
  function Reply(phrase: string, callsign: string): string
  {
    phrase + ", " + callsign
  }

  /** One scripted transition: the pilot is expected to read back `phrase`
      followed by the callsign, and exactly one message follows a match. */
  function Step(key: string, fromState: AtcState, toState: AtcState, requiredStatus: set<AircraftStatus>,
                trigger: string, phrase: string, callsign: string, next: string,
                responseType: ResponseType, action: string): (t: Transition)
    requires Staffed(fromState) && Staffed(toState) && phrase != [] && 'A' <= phrase[0] <= 'Z'
    ensures Scripted(t) && ReadbackShape(t, callsign)
    ensures t.fromState == fromState && t.toState == toState && t.requiredStatus == requiredStatus
    ensures t.triggerMessage == trigger && t.nextActions == [next]
  {
    var expected := Reply(phrase, callsign);
    assert expected[|expected| - |", " + callsign|..] == ", " + callsign;
    Transition(key, fromState, toState, requiredStatus, trigger, expected, [next], responseType, action)
  }

  /** What the manager relies on in every transition of the table: it
      leaves and enters a staffed state and sends exactly one message when
      matched. */
  predicate Scripted(t: Transition)
  {
    Staffed(t.fromState) && Staffed(t.toState) && |t.nextActions| == 1
  }

  /** The shape of every expected readback: a capitalised phrase, then ", "
      and the callsign. */
  predicate ReadbackShape(t: Transition, callsign: string)
  {
    t.expectedResponse != [] && 'A' <= t.expectedResponse[0] <= 'Z'
    && EndsWith(t.expectedResponse, ", " + callsign)
  }

  predicate EndsWith(s: string, suffix: string)
  {
    |suffix| <= |s| && s[|s| - |suffix|..] == suffix
  }

  /** Every transition of `ts` is scripted. */
  predicate TableFor(ts: seq<Transition>)
  {
    forall t :: t in ts ==> Scripted(t)
  }

  /** A callsign as the manager keeps it: not blank, no surrounding white space. */
  predicate Trimmed(callsign: string)
  {
    callsign != [] && !IsSpace(callsign[0]) && !IsSpace(callsign[|callsign| - 1])
  }

  /** _setup_transitions: the twelve transitions in definition order. */
  function SetupTransitions(callsign: string, freqs: RadioFrequencies): (ts: seq<Transition>)
    ensures |ts| == 12
    ensures TableFor(ts)
    ensures forall t :: t in ts ==> ReadbackShape(t, callsign)
  {
    var ground := GroundScript(callsign, freqs.tower);
    var tower := TowerScript(callsign, freqs.tower, freqs.departure);
    assert forall t :: t in ground + tower ==> t in ground || t in tower;
    ground + tower
  }

  /** The seven transitions spoken with Ground, from the pushback request
      to the hand-off to the tower. */
  function GroundScript(callsign: string, towerFrequency: RadioFrequency): (ts: seq<Transition>)
    ensures |ts| == 7
    ensures TableFor(ts)
    ensures forall t :: t in ts ==> ReadbackShape(t, callsign)
  {
    var towerName := towerFrequency.name;
    var towerFreq := towerFrequency.frequency;
    [
      Step("REQUEST_PUSHBACK", Ground, Ground, {AtGate},
        Call("Ground", callsign, "request pushback"),
        "Requesting pushback", callsign,
        Call("Ground", callsign, "pushback approved, face east"), Readback, "pushback"),
      Step("PUSHBACK_APPROVED", Ground, Ground, {Pushback},
        Call("Ground", callsign, "pushback approved, face east"),
        "Pushback approved, face east", callsign,
        Call("Ground", callsign, "report when ready to taxi"), Readback, "pushback"),
      Step("READY_TO_TAXI", Ground, Ground, {Pushback},
        Call("Ground", callsign, "report when ready to taxi"),
        "Ready to taxi", callsign,
        Call("Ground", callsign, "taxi to Runway 16C via Alpha, Bravo"), ReadyReport, "taxi"),
      Step("TAXI_CLEARANCE", Ground, Ground, {Pushback, Taxiing},
        Call("Ground", callsign, "taxi to Runway 16C via Alpha, Bravo"),
        "Taxi to Runway 16C via Alpha, Bravo", callsign,
        Call("Ground", callsign, "hold short Runway 16C"), Readback, "taxi"),
      Step("HOLD_SHORT", Ground, Ground, {Taxiing},
        Call("Ground", callsign, "hold short Runway 16C"),
        "Hold short Runway 16C", callsign,
        Call("Ground", callsign, "contact " + towerName + " " + towerFreq), Readback, "hold short"),
      Step("CROSS_RUNWAY", Ground, Ground, {Taxiing},
        Call("Ground", callsign, "cross Runway 16C"),
        "Cross Runway 16C", callsign,
        Call("Ground", callsign, "continue taxi via Bravo"), Readback, "cross runway"),
      Step("CONTINUE_TAXI", Ground, Ground, {Taxiing},
        Call("Ground", callsign, "continue taxi via Bravo"),
        "Continue taxi via Bravo", callsign,
        Call("Ground", callsign, "hold short Runway 16C"), Readback, "taxi")
    ]
  }

  /** The five transitions from the call to the tower to the hand-off to
      departure. */
  function TowerScript(callsign: string, towerFrequency: RadioFrequency, departureFrequency: RadioFrequency): (ts: seq<Transition>)
    ensures |ts| == 5
    ensures TableFor(ts)
    ensures forall t :: t in ts ==> ReadbackShape(t, callsign)
  {
    var towerName := towerFrequency.name;
    var towerFreq := towerFrequency.frequency;
    var departureFreq := departureFrequency.frequency;
    [
      Step("GROUND_TO_TOWER", Ground, Tower, {HoldingShort},
        Call("Ground", callsign, "contact " + towerName + " " + towerFreq),
        "Contacting " + towerName + " " + towerFreq, callsign,
        Call(towerName, callsign, "hold short Runway 16C"), Readback, "contact tower"),
      Step("TOWER_HOLD_SHORT", Tower, Tower, {HoldingShort},
        Call(towerName, callsign, "hold short Runway 16C"),
        "Hold short Runway 16C", callsign,
        Call(towerName, callsign, "line up and wait Runway 16C"), Readback, "hold short"),
      Step("TOWER_LINE_UP", Tower, Tower, {HoldingShort},
        Call(towerName, callsign, "line up and wait Runway 16C"),
        "Line up and wait Runway 16C", callsign,
        Call(towerName, callsign, "cleared for takeoff Runway 16C"), Readback, "line up"),
      Step("TOWER_TAKEOFF", Tower, Tower, {LinedUp},
        Call(towerName, callsign, "cleared for takeoff Runway 16C"),
        "Cleared for takeoff Runway 16C", callsign,
        Call(towerName, callsign, "contact Departure " + departureFreq), Readback, "takeoff"),
      Step("TOWER_TO_DEPARTURE", Tower, Departure, {Takeoff, Climbing},
        Call(towerName, callsign, "contact Departure " + departureFreq),
        "Contacting Departure " + departureFreq, callsign,
        Call("Departure", callsign, "climb and maintain 5,000"), Readback, "climb")
    ]
  }

  /** The script is a chain: the message sent after every transition but
      the last is the trigger message of another transition of the table. */
  lemma ScriptIsChained(callsign: string, freqs: RadioFrequencies)
    ensures var ts := SetupTransitions(callsign, freqs);
      forall i :: 0 <= i < 11 ==> exists j :: 0 <= j < 12 && ts[j].triggerMessage == ts[i].nextActions[0]
  {
    var ts := SetupTransitions(callsign, freqs);
    assert ts[1].triggerMessage == ts[0].nextActions[0];
    assert ts[2].triggerMessage == ts[1].nextActions[0];
    assert ts[3].triggerMessage == ts[2].nextActions[0];
    assert ts[4].triggerMessage == ts[3].nextActions[0];
    assert ts[7].triggerMessage == ts[4].nextActions[0];
    assert ts[6].triggerMessage == ts[5].nextActions[0];
    assert ts[4].triggerMessage == ts[6].nextActions[0];
    assert ts[8].triggerMessage == ts[7].nextActions[0];
    assert ts[9].triggerMessage == ts[8].nextActions[0];
    assert ts[10].triggerMessage == ts[9].nextActions[0];
    assert ts[11].triggerMessage == ts[10].nextActions[0];
  }

  predicate IsApplicable(t: Transition, state: AtcState, status: AircraftStatus)
  {
    t.fromState == state && status in t.requiredStatus
  }

  /** The applicable transitions, in table order. */
  function Applicable(ts: seq<Transition>, state: AtcState, status: AircraftStatus): (r: seq<Transition>)
    ensures forall t :: t in r <==> t in ts && IsApplicable(t, state, status)
    ensures r != [] ==> exists i :: (0 <= i < |ts| && ts[i] == r[0]
      && forall j :: 0 <= j < i ==> !IsApplicable(ts[j], state, status))
  {
    if ts == [] then []
    else
      var rest := Applicable(ts[1..], state, status);
      assert forall i :: 1 <= i < |ts| ==> ts[i] == ts[1..][i - 1];
      assert forall t :: t in ts <==> t == ts[0] || t in ts[1..];
      if IsApplicable(ts[0], state, status) then [ts[0]] + rest else rest
  }

  /** The pilot's words as compared: surrounding whitespace stripped, lower-cased. */
  function Heard(response: string): string
  {
    Lower(Strip(response))
  }

  /** Whether what was heard is the transition's expected readback, ignoring case. */
  predicate Matches(heard: string, t: Transition)
  {
    heard == Lower(t.expectedResponse)
  }

  /** A non-empty frequency that differs from the one the handoff expects. */
  predicate WrongFrequency(currentFrequency: Option<string>, freqs: RadioFrequencies, t: Transition)
  {
    (t.toState == Tower || t.toState == Departure)
    && currentFrequency.Some? && currentFrequency.value != ""
    && currentFrequency.value != GetFrequency(freqs, t.toState).value.frequency
  }

  datatype Outcome = NoMatch | Mismatch(t: Transition) | Matched(t: Transition)

  /** The loop of process_response over the applicable transitions: the
      first text match decides, and a wrong handoff frequency rejects it at once. */
  function MatchResponse(cands: seq<Transition>, heard: string, currentFrequency: Option<string>,
                         freqs: RadioFrequencies): (r: Outcome)
    ensures r.NoMatch? <==> forall i :: 0 <= i < |cands| ==> !Matches(heard, cands[i])
    ensures !r.NoMatch? ==> r.t in cands && exists i :: (0 <= i < |cands| && cands[i] == r.t && Matches(heard, cands[i])
      && forall j :: 0 <= j < i ==> !Matches(heard, cands[j]))
    ensures r.Mismatch? <==> !r.NoMatch? && WrongFrequency(currentFrequency, freqs, r.t)
  {
    if cands == [] then NoMatch
    else if Matches(heard, cands[0]) then
      if WrongFrequency(currentFrequency, freqs, cands[0]) then Mismatch(cands[0]) else Matched(cands[0])
    else
      var r := MatchResponse(cands[1..], heard, currentFrequency, freqs);
      assert forall i :: 1 <= i < |cands| ==> cands[i] == cands[1..][i - 1];
      assert !r.NoMatch? ==> exists i :: (0 <= i < |cands| && cands[i] == r.t && Matches(heard, cands[i])
        && forall j :: 0 <= j < i ==> !Matches(heard, cands[j])) by {
        if !r.NoMatch? {
          var k :| 0 <= k < |cands[1..]| && cands[1..][k] == r.t && Matches(heard, cands[1..][k])
            && forall j :: 0 <= j < k ==> !Matches(heard, cands[1..][j]);
          assert cands[k + 1] == r.t;
          assert forall j :: 0 <= j < k + 1 ==> !Matches(heard, cands[j]) by {
            forall j | 0 <= j < k + 1 ensures !Matches(heard, cands[j]) {
              if j > 0 { assert cands[j] == cands[1..][j - 1]; }
            }
          }
        }
      }
      r
  }

  /** Unrolling MatchResponse once at position i. */
  lemma MatchResponseStep(cands: seq<Transition>, i: nat, heard: string, currentFrequency: Option<string>,
                          freqs: RadioFrequencies)
    requires i < |cands|
    ensures MatchResponse(cands[i..], heard, currentFrequency, freqs)
            == if !Matches(heard, cands[i]) then MatchResponse(cands[i + 1..], heard, currentFrequency, freqs)
               else if WrongFrequency(currentFrequency, freqs, cands[i]) then Mismatch(cands[i])
               else Matched(cands[i])
  {
    assert cands[i..][0] == cands[i] && cands[i..][1..] == cands[i + 1..];
  }

  /** The loop of process_response over the applicable transitions: stop at
      the first whose expected readback was heard, rejecting it at once when
      the handoff frequency is wrong. */
  method FindMatch(cands: seq<Transition>, heard: string, currentFrequency: Option<string>,
                   freqs: RadioFrequencies) returns (outcome: Outcome)
    ensures outcome == MatchResponse(cands, heard, currentFrequency, freqs)
  {
    var i := 0;
    while i < |cands|
      invariant 0 <= i <= |cands|
      invariant MatchResponse(cands, heard, currentFrequency, freqs)
                == MatchResponse(cands[i..], heard, currentFrequency, freqs)
    {
      var transition := cands[i];
      MatchResponseStep(cands, i, heard, currentFrequency, freqs);
      if heard == Lower(transition.expectedResponse) {
        if transition.toState == Tower || transition.toState == Departure {
          var expectedFreq := GetFrequency(freqs, transition.toState).value.frequency;
          if currentFrequency.Some? && currentFrequency.value != "" && currentFrequency.value != expectedFreq {
            return Mismatch(transition);
          }
        }
        return Matched(transition);
      }
      i := i + 1;
    }
    return NoMatch;
  }

  /** The status after a successful response, sniffed from its lower-cased text. */
  function StatusAfter(response: string, status: AircraftStatus): (r: AircraftStatus)
    ensures Contains(Lower(response), "pushback") ==> r == Pushback
    ensures !Contains(Lower(response), "pushback") && Contains(Lower(response), "taxi") ==> r == Taxiing
    ensures (!Contains(Lower(response), "pushback") && !Contains(Lower(response), "taxi")
             && Contains(Lower(response), "hold short")) ==> r == HoldingShort
    ensures r != status ==> r in {Pushback, Taxiing, HoldingShort}
  {
    var text := Lower(response);
    if Contains(text, "pushback") then Pushback
    else if Contains(text, "taxi") then Taxiing
    else if Contains(text, "hold short") then HoldingShort
    else status
  }

  /** get_expected_response for a given applicable list: None when empty,
      else the first transition's response type as one flag and its action. */
  function ExpectedOf(cands: seq<Transition>): (r: Option<ExpectedResponse>)
    ensures r.None? <==> cands == []
    ensures r.Some? ==> r.value.kind == cands[0].responseType && r.value.action == cands[0].action
    ensures r.Some? ==> ((r.value.requiresReadback <==> r.value.kind == Readback)
      && (r.value.requiresAcknowledgment <==> r.value.kind == Acknowledge)
      && (r.value.requiresReadyReport <==> r.value.kind == ReadyReport))
  {
    if cands == [] then None
    else
      var t := cands[0];
      Some(ExpectedResponse(t.responseType, t.responseType == Readback, t.responseType == Acknowledge,
                            t.responseType == ReadyReport, t.action))
  }

  /** At most one flag is set, and none for NO_RESPONSE. */
  lemma ExpectedFlagsExclusive(cands: seq<Transition>)
    ensures var r := ExpectedOf(cands);
      r.Some? ==> ((if r.value.kind == NoResponse then 0 else 1)
        == (if r.value.requiresReadback then 1 else 0) + (if r.value.requiresAcknowledgment then 1 else 0)
           + (if r.value.requiresReadyReport then 1 else 0))
  {
  }

  const DefaultCallsign: string := "aabbcc"

  /** A callsign argument that replaces the current one: present and not blank. */
  predicate Usable(callsign: Option<string>)
  {
    callsign.Some? && Strip(callsign.value) != ""
  }

  class AtcStateManager {
    var currentState: AtcState
    var aircraftStatus: AircraftStatus
    var callsign: string
    var transitions: seq<Transition>
    const frequencies: RadioFrequencies
    /** Messages handed to the sender, oldest first. */
    var outbox: seq<Sent>

    /** The callsign is never blank or padded, every transition of the table
        is scripted for it, and the state always has a frequency to send on.
        That the table is exactly the one built for the callsign is stated by
        the constructor and by AdoptCallsign, the only places that set either. */
    predicate Valid()
      reads this
    {
      Trimmed(callsign) && TableFor(transitions) && Staffed(currentState)
    }

    constructor(frequencies: RadioFrequencies)
      ensures Valid()
      ensures currentState == Ground && aircraftStatus == AtGate && callsign == DefaultCallsign
      ensures this.frequencies == frequencies && outbox == []
      ensures transitions == SetupTransitions(callsign, frequencies)
    {
      currentState := Ground;
      aircraftStatus := AtGate;
      callsign := DefaultCallsign;
      this.frequencies := frequencies;
      transitions := SetupTransitions(DefaultCallsign, frequencies);
      outbox := [];
    }

    /** get_next_message: the trigger of the first applicable transition. */
    function GetNextMessage(): (r: Option<string>)
      reads this
      ensures r.None? <==> forall i :: 0 <= i < |transitions| ==> !IsApplicable(transitions[i], currentState, aircraftStatus)
      ensures r.Some? ==> exists i :: (0 <= i < |transitions| && IsApplicable(transitions[i], currentState, aircraftStatus)
        && transitions[i].triggerMessage == r.value
        && forall j :: 0 <= j < i ==> !IsApplicable(transitions[j], currentState, aircraftStatus))
    {
      var cands := Applicable(transitions, currentState, aircraftStatus);
      if cands == [] then None
      else
        assert cands[0] in cands;
        Some(cands[0].triggerMessage)
    }

    /** get_expected_response. */
    function GetExpectedResponse(): (r: Option<ExpectedResponse>)
      reads this
      ensures r.None? <==> forall i :: 0 <= i < |transitions| ==> !IsApplicable(transitions[i], currentState, aircraftStatus)
      ensures r.Some? ==> exists i :: (0 <= i < |transitions| && IsApplicable(transitions[i], currentState, aircraftStatus)
        && r.value.kind == transitions[i].responseType && r.value.action == transitions[i].action
        && forall j :: 0 <= j < i ==> !IsApplicable(transitions[j], currentState, aircraftStatus))
    {
      var cands := Applicable(transitions, currentState, aircraftStatus);
      assert cands != [] ==> cands[0] in cands;
      ExpectedOf(cands)
    }

    /** get_current_frequency. */
    function GetCurrentFrequency(): (r: Option<RadioFrequency>)
      reads this
      ensures Valid() ==> r.Some?
      ensures r == GetFrequency(frequencies, currentState)
    {
      GetFrequency(frequencies, currentState)
    }

    /** process_response: try the applicable transitions in order; on a
        match with an acceptable frequency, move to its target state,
        re-derive the status from the response and send its next message. */
    method ProcessResponse(response: string, currentFrequency: Option<string>) returns (ok: bool)
      requires Valid()
      modifies this
      ensures Valid()
      ensures callsign == old(callsign) && transitions == old(transitions)
      ensures var outcome := MatchResponse(Applicable(transitions, old(currentState), old(aircraftStatus)),
                                           Heard(response), currentFrequency, frequencies);
        (ok <==> outcome.Matched?)
        && (!ok ==> currentState == old(currentState) && aircraftStatus == old(aircraftStatus) && outbox == old(outbox))
        && (ok ==> currentState == outcome.t.toState
                   && aircraftStatus == StatusAfter(response, old(aircraftStatus))
                   && outbox == old(outbox) + [Sent(outcome.t.nextActions[0], outcome.t.toState,
                                                    GetFrequency(frequencies, outcome.t.toState).value.frequency)])
    {
      var applicable := Applicable(transitions, currentState, aircraftStatus);
      if applicable == [] {
        return false;
      }
      var outcome := FindMatch(applicable, Heard(response), currentFrequency, frequencies);
      if !outcome.Matched? {
        return false;
      }
      var transition := outcome.t;
      assert transition in transitions;
      currentState := transition.toState;
      var text := Lower(response);
      if Contains(text, "pushback") {
        aircraftStatus := Pushback;
      } else if Contains(text, "taxi") {
        aircraftStatus := Taxiing;
      } else if Contains(text, "hold short") {
        aircraftStatus := HoldingShort;
      }
      if transition.nextActions != [] {
        var nextAction := transition.nextActions[0];
        outbox := outbox + [Sent(nextAction, currentState, GetFrequency(frequencies, currentState).value.frequency)];
      }
      return true;
    }

    /** The first step of handle_pilot_message: a callsign that is present
        and not blank replaces the current one, stripped, and the table is
        rebuilt for it; anything else leaves both as they are. */
    method AdoptCallsign(newCallsign: Option<string>)
      requires Valid()
      modifies this
      ensures Valid()
      ensures callsign == if Usable(newCallsign) then Strip(newCallsign.value) else old(callsign)
      ensures transitions == if Usable(newCallsign) then SetupTransitions(callsign, frequencies) else old(transitions)
      ensures currentState == old(currentState) && aircraftStatus == old(aircraftStatus) && outbox == old(outbox)
    {
      if newCallsign.Some? && newCallsign.value != "" && Strip(newCallsign.value) != "" {
        callsign := Strip(newCallsign.value);
        transitions := SetupTransitions(callsign, frequencies);
      }
    }

    /** handle_pilot_message: adopt a non-blank callsign (stripped) and
        rebuild the table, then process the message; on failure tell the
        pilot to stand by. */
    method HandlePilotMessage(message: string, currentFrequency: Option<string>, newCallsign: Option<string>)
      requires Valid()
      modifies this
      ensures Valid()
      ensures callsign == if Usable(newCallsign) then Strip(newCallsign.value) else old(callsign)
      ensures transitions == if Usable(newCallsign) then SetupTransitions(callsign, frequencies) else old(transitions)
      ensures var outcome := MatchResponse(Applicable(transitions, old(currentState), old(aircraftStatus)),
                                           Heard(message), currentFrequency, frequencies);
        (!outcome.Matched? ==>
           currentState == old(currentState) && aircraftStatus == old(aircraftStatus)
           && outbox == old(outbox) + [Sent(callsign + ", standby", currentState,
                                            GetFrequency(frequencies, currentState).value.frequency)])
        && (outcome.Matched? ==>
           currentState == outcome.t.toState && aircraftStatus == StatusAfter(message, old(aircraftStatus))
           && outbox == old(outbox) + [Sent(outcome.t.nextActions[0], outcome.t.toState,
                                            GetFrequency(frequencies, outcome.t.toState).value.frequency)])
    {
      AdoptCallsign(newCallsign);
      var ok := ProcessResponse(message, currentFrequency);
      if !ok {
        outbox := outbox + [Sent(callsign + ", standby", currentState, GetFrequency(frequencies, currentState).value.frequency)];
      }
    }

    /** update_aircraft_status. */
    method UpdateAircraftStatus(newStatus: AircraftStatus)
      requires Valid()
      modifies this
      ensures Valid()
      ensures aircraftStatus == newStatus
      ensures currentState == old(currentState) && callsign == old(callsign)
      ensures transitions == old(transitions) && outbox == old(outbox)
    {
      aircraftStatus := newStatus;
    }
  }

  /** A pilot who reads back a transition's expected response word for word
      is understood: stripping and lower-casing it gives what the manager
      compares against. */
  lemma VerbatimReadbackMatches(t: Transition, callsign: string)
    requires ReadbackShape(t, callsign) && Trimmed(callsign)
    ensures Matches(Heard(t.expectedResponse), t)
  {
    var e := t.expectedResponse;
    assert e[|e| - 1] == (", " + callsign)[|", " + callsign| - 1] == callsign[|callsign| - 1];
    StripUntouched(e);
  }

  /** Whatever callsign the manager has adopted, reading back any
      transition of its table word for word is a match. */
  lemma ScriptedReadbacksMatch(callsign: string, freqs: RadioFrequencies)
    requires Trimmed(callsign)
    ensures forall t :: t in SetupTransitions(callsign, freqs) ==> Matches(Heard(t.expectedResponse), t)
  {
    var ts := SetupTransitions(callsign, freqs);
    forall t | t in ts
      ensures Matches(Heard(t.expectedResponse), t)
    {
      VerbatimReadbackMatches(t, callsign);
    }
  }

  /** The comparison ignores case and surrounding white space: a pilot who
      says the expected readback in any mix of upper and lower case, padded
      with blanks, is understood. */
  lemma ReadbackIgnoresCaseAndPadding(t: Transition, callsign: string, said: string, p: string, q: string)
    requires ReadbackShape(t, callsign) && Trimmed(callsign)
    requires Lower(said) == Lower(t.expectedResponse)
    requires forall k :: 0 <= k < |p| ==> IsSpace(p[k])
    requires forall k :: 0 <= k < |q| ==> IsSpace(q[k])
    ensures Matches(Heard(p + said + q), t)
  {
    var e := t.expectedResponse;
    assert e[|e| - 1] == (", " + callsign)[|", " + callsign| - 1] == callsign[|callsign| - 1];
    LowerEachChar(said);
    LowerEachChar(e);
    assert LowerChar(said[0]) == LowerChar(e[0]);
    assert LowerChar(said[|said| - 1]) == LowerChar(e[|e| - 1]);
    StripPadded(p, said, q);
  }

  /** The table opens with the Ground script. */
  lemma TableOpensWithGround(callsign: string, freqs: RadioFrequencies)
    ensures SetupTransitions(callsign, freqs)[0] == GroundScript(callsign, freqs.tower)[0]
  {
  }

  /** The Ground script opens with the pushback request: from Ground at the
      gate, back to Ground, read back as "Requesting pushback, <callsign>"
      and answered with the pushback approval. */
  lemma GroundOpensWithPushback(callsign: string, towerFrequency: RadioFrequency)
    ensures var t := GroundScript(callsign, towerFrequency)[0];
      t.fromState == Ground && t.toState == Ground && t.requiredStatus == {AtGate}
      && t.expectedResponse == Reply("Requesting pushback", callsign)
      && t.nextActions == [Call("Ground", callsign, "pushback approved, face east")]
  {
  }

  /** When the first transition of the table applies and was heard, it is
      the one taken, unless its handoff frequency is wrong. */
  lemma FirstApplicableHeard(ts: seq<Transition>, state: AtcState, status: AircraftStatus, heard: string,
                             currentFrequency: Option<string>, freqs: RadioFrequencies)
    requires ts != [] && IsApplicable(ts[0], state, status) && Matches(heard, ts[0])
    requires !WrongFrequency(currentFrequency, freqs, ts[0])
    ensures MatchResponse(Applicable(ts, state, status), heard, currentFrequency, freqs) == Matched(ts[0])
  {
    assert Applicable(ts, state, status)[0] == ts[0];
  }

  /** " requesting pushback, AABBCC " is heard as the pushback request's
      readback for the default callsign. */
  lemma PushbackRequestHeard(callsign: string, response: string)
    requires callsign == DefaultCallsign && response == " requesting pushback, AABBCC "
    ensures Heard(response) == Lower(Reply("Requesting pushback", callsign))
  {
    var said := "requesting pushback, AABBCC";
    PaddedRequest(response, said);
    StripPadded(" ", said, " ");
    RequestInCapitals(said, Reply("Requesting pushback", callsign));
  }

  lemma PaddedRequest(response: string, said: string)
    requires response == " requesting pushback, AABBCC " && said == "requesting pushback, AABBCC"
    ensures response == " " + said + " "
  {
  }

  lemma RequestInCapitals(said: string, expected: string)
    requires said == "requesting pushback, AABBCC" && expected == "Requesting pushback" + ", " + "aabbcc"
    ensures Lower(said) == Lower(expected)
  {
    LowerAlike(said, expected);
  }

  /** Whatever the callsign, hearing the pushback request's readback from
      Ground at the gate takes the pushback request, which stays with
      Ground and answers with the pushback approval. */
  lemma PushbackRequestAccepted(callsign: string, freqs: RadioFrequencies, heard: string,
                                currentFrequency: Option<string>)
    requires heard == Lower(Reply("Requesting pushback", callsign))
    ensures var ts := SetupTransitions(callsign, freqs);
      MatchResponse(Applicable(ts, Ground, AtGate), heard, currentFrequency, freqs) == Matched(ts[0])
      && ts[0].toState == Ground
      && ts[0].nextActions == [Call("Ground", callsign, "pushback approved, face east")]
  {
    var ts := SetupTransitions(callsign, freqs);
    TableOpensWithGround(callsign, freqs);
    GroundOpensWithPushback(callsign, freqs.tower);
    FirstApplicableHeard(ts, Ground, AtGate, heard, currentFrequency, freqs);
  }

  /** The opening exchange: from Ground with the aircraft at the gate, the
      pilot's " requesting pushback, AABBCC " matches the pushback request,
      which stays with Ground and answers "Ground: aabbcc, pushback
      approved, face east". */
  lemma PushbackScenario(freqs: RadioFrequencies, callsign: string, response: string)
    requires callsign == DefaultCallsign && response == " requesting pushback, AABBCC "
    ensures var ts := SetupTransitions(callsign, freqs);
      MatchResponse(Applicable(ts, Ground, AtGate), Heard(response), None, freqs) == Matched(ts[0])
      && ts[0].toState == Ground
      && ts[0].nextActions == ["Ground: aabbcc, pushback approved, face east"]
  {
    PushbackRequestHeard(callsign, response);
    PushbackRequestAccepted(callsign, freqs, Heard(response), None);
    ApprovalText(callsign);
  }

  lemma ApprovalText(callsign: string)
    requires callsign == DefaultCallsign
    ensures Call("Ground", callsign, "pushback approved, face east") == "Ground: aabbcc, pushback approved, face east"
  {
  }

  /** ... and the response puts the aircraft into pushback. */
  lemma PushbackScenarioStatus(response: string)
    requires response == " requesting pushback, AABBCC "
    ensures StatusAfter(response, AtGate) == Pushback
  {
    LowerEachChar(response);
    assert OccursAt(Lower(response), "pushback", 12);
  }
}
