/**
  The session as a value: the component's state fields, the recompute
  effect, one transition per handler, and runs of events. The class
  `App.Session` holds the same fields and is proved to follow these
  transitions; the properties over many steps are proved here.
*/
module SessionModel {
  import opened Wrappers
  import JsNumbers
  import Form
  import Prediction
  import Loyalty

  datatype State = State(
    form: Form.FormData,
    result: Option<Prediction.StoredResult>,
    loading: bool,
    error: Option<string>,
    showCoinDrop: bool,
    claimed: bool,
    currentMiles: real)

  function Initial(): State {
    State(Form.Initial(), None, false, None, false, false, 0.0)
  }

  /** The totals the effect derives from a state. */
  function MilesOf(s: State): real { Loyalty.CurrentMiles(s.form.currentSafMiles, s.result) }

  function FlightsOf(s: State): real { Loyalty.FlightsTaken(s.form.safFlightsTaken) }

  /**
    The recompute effect. Without a result it only zeroes the total and leaves
    the prompt flag as it is; with one it sets both.
  */
  function Recompute(s: State): (r: State)
    ensures r == s.(currentMiles := r.currentMiles, showCoinDrop := r.showCoinDrop)
  {
    if s.result.None? then s.(currentMiles := 0.0)
    else s.(currentMiles := MilesOf(s), showCoinDrop := Loyalty.CoinDropDue(MilesOf(s), FlightsOf(s), s.claimed))
  }

  /** The invariant every handler keeps. */
  predicate Consistent(s: State) {
    Form.WellFormed(s.form) && (s.result.None? ==> !s.showCoinDrop) && (s.claimed ==> !s.showCoinDrop)
  }

  /** The effect has run: the derived fields agree with their inputs. */
  predicate Settled(s: State) {
    s.currentMiles == MilesOf(s) &&
    (s.result.Some? ==> s.showCoinDrop == Loyalty.CoinDropDue(MilesOf(s), FlightsOf(s), s.claimed))
  }

  predicate Valid(s: State) { Consistent(s) && Settled(s) }

  /** The coin overlay is on screen: it sits inside the result panel and is also gated on the claim flag. */
  predicate OverlayVisible(s: State) { s.result.Some? && s.showCoinDrop && !s.claimed }

  // ---------------------------------------------------------------------------
  // One transition per handler, each followed by the effect

  function Edited(s: State, name: Form.FieldName, value: string): (r: State)
    ensures r.form == Form.Change(s.form, name, value)
    ensures r.result == s.result && r.loading == s.loading && r.error == s.error && r.claimed == s.claimed
  {
    Recompute(s.(form := Form.Change(s.form, name, value)))
  }

  /** The start of a submission: the spinner on, the error cleared. */
  function Submitted(s: State): (r: State)
    ensures r.loading && r.error == None
    ensures r.form == s.form && r.result == s.result && r.claimed == s.claimed
  {
    Recompute(s.(loading := true, error := None))
  }

  /** The loyalty texts the submit handler captures with the request. */
  function PendingOf(s: State): Prediction.Pending {
    Prediction.Pending(s.form.currentSafMiles, s.form.safFlightsTaken)
  }

  /** The end of a submission: store the result or show the error; the spinner off either way. */
  function Received(s: State, pending: Prediction.Pending, outcome: Prediction.Outcome): (r: State)
    ensures !r.loading && r.form == s.form && r.claimed == s.claimed
    ensures Prediction.Handle(pending, outcome).Store? ==>
      r.result == Some(Prediction.Handle(pending, outcome).result) && r.error == s.error
    ensures Prediction.Handle(pending, outcome).ShowError? ==>
      r.result == s.result && r.error == Some(Prediction.Handle(pending, outcome).message)
  {
    match Prediction.Handle(pending, outcome)
    case Store(r) => Recompute(s.(result := Some(r), loading := false))
    case ShowError(m) => Recompute(s.(error := Some(m), loading := false))
  }

  function Claimed(s: State): (r: State)
    ensures r.claimed && !r.showCoinDrop
    ensures r.form == s.form && r.result == s.result && r.loading == s.loading && r.error == s.error
  {
    Recompute(s.(claimed := true, showCoinDrop := false))
  }

  datatype Event =
    | Edit(name: Form.FieldName, value: string)
    | Submit
    | Arrive(pending: Prediction.Pending, outcome: Prediction.Outcome)
    | Claim

  function Step(s: State, e: Event): State {
    match e
    case Edit(name, value) => Edited(s, name, value)
    case Submit => Submitted(s)
    case Arrive(pending, outcome) => Received(s, pending, outcome)
    case Claim => Claimed(s)
  }

  function Run(s: State, events: seq<Event>): State
    decreases |events|
  {
    if events == [] then s else Run(Step(s, events[0]), events[1..])
  }

  /** The claim button exists only on the overlay, so a user can claim only while it is visible. */
  predicate UserDriven(s: State, events: seq<Event>)
    decreases |events|
  {
    events == [] ||
    ((events[0].Claim? ==> OverlayVisible(s)) && UserDriven(Step(s, events[0]), events[1..]))
  }

  /** How many claim notifications a run shows: one per claim event. */
  function Notices(events: seq<Event>): nat
    decreases |events|
  {
    if events == [] then 0 else (if events[0].Claim? then 1 else 0) + Notices(events[1..])
  }

  // ---------------------------------------------------------------------------
  // The effect

  lemma InitialValid()
    ensures Valid(Initial())
  {
  }

  /** After the effect the coin prompt is raised exactly at 20000 miles, 10 flights and no claim. */
  lemma RecomputeCoinDrop(s: State)
    requires s.result.Some?
    ensures Recompute(s).showCoinDrop <==>
      MilesOf(s) >= 20000.0 && FlightsOf(s) >= 10.0 && !s.claimed
    ensures Recompute(s).currentMiles ==
      JsNumbers.NumberOrZero(s.form.currentSafMiles) + Loyalty.SafMilesOrZero(s.result.value.data.safMiles)
  {
  }

  /** Without a result the total is 0 and the prompt flag is left alone. */
  lemma RecomputeWithoutResult(s: State)
    requires s.result.None?
    ensures Recompute(s).currentMiles == 0.0 && Recompute(s).showCoinDrop == s.showCoinDrop
  {
  }

  lemma RecomputeSettles(s: State)
    requires Consistent(s)
    ensures Valid(Recompute(s))
    ensures Recompute(s).form == s.form && Recompute(s).result == s.result && Recompute(s).claimed == s.claimed
  {
  }

  /** On a settled state the effect changes nothing, so running it again is harmless. */
  lemma RecomputeFixpoint(s: State)
    requires Settled(s)
    ensures Recompute(s) == s
  {
  }

  lemma RecomputeIdempotent(s: State)
    ensures Recompute(Recompute(s)) == Recompute(s)
  {
  }

  // ---------------------------------------------------------------------------
  // The handlers

  lemma StepKeepsValid(s: State, e: Event)
    requires Valid(s)
    ensures Valid(Step(s, e))
  {
    match e
    case Edit(name, value) => Form.ChangeKeepsWellFormed(s.form, name, value);
    case Submit =>
    case Arrive(pending, outcome) =>
    case Claim =>
  }

  /** A claim leaves the session claimed with the prompt down, and claiming again changes nothing. */
  lemma ClaimIdempotent(s: State)
    ensures Claimed(s).claimed && !Claimed(s).showCoinDrop
    ensures Claimed(Claimed(s)) == Claimed(s)
  {
  }

  /** A successful response replaces the result wholesale, with the captured loyalty texts. */
  lemma SuccessReplacesResult(s: State, pending: Prediction.Pending, data: Prediction.ResponseData, status: nat)
    requires Prediction.IsOk(status)
    ensures var t := Received(s, pending, Prediction.Answered(status, Prediction.Json(data)));
      t.result == Some(Prediction.StoredResult(data, pending.currentSafMiles, pending.safFlightsTaken)) &&
      !t.loading && t.error == s.error && t.form == s.form && t.claimed == s.claimed
  {
  }

  /** A failed request shows its error and keeps the previous result. */
  lemma FailureKeepsResult(s: State, pending: Prediction.Pending, outcome: Prediction.Outcome)
    requires Prediction.Handle(pending, outcome).ShowError?
    ensures var t := Received(s, pending, outcome);
      t.result == s.result && t.error == Some(Prediction.Handle(pending, outcome).message) &&
      !t.loading && t.form == s.form && t.claimed == s.claimed
  {
  }

  /** A successful submission followed by a failed one still shows the first result, with the error. */
  lemma FailedResubmitKeepsFirstResult(s: State, data: Prediction.ResponseData, outcome: Prediction.Outcome)
    requires Valid(s) && Prediction.Handle(PendingOf(s), outcome).ShowError?
    ensures var first := Received(Submitted(s), PendingOf(s), Prediction.Answered(200, Prediction.Json(data)));
      var second := Received(Submitted(first), PendingOf(first), outcome);
      second.result == first.result &&
      first.result == Some(Prediction.StoredResult(data, s.form.currentSafMiles, s.form.safFlightsTaken)) &&
      second.error.Some? && !second.loading
  {
    var first := Received(Submitted(s), PendingOf(s), Prediction.Answered(200, Prediction.Json(data)));
    assert PendingOf(first) == PendingOf(s);
  }

  // ---------------------------------------------------------------------------
  // Runs of events

  lemma {:induction false} RunKeepsValid(s: State, events: seq<Event>)
    requires Valid(s)
    ensures Valid(Run(s, events))
    decreases |events|
  {
    if events != [] {
      StepKeepsValid(s, events[0]);
      RunKeepsValid(Step(s, events[0]), events[1..]);
    }
  }

  /** No handler sets the claim flag back: once claimed, claimed for the rest of the session. */
  lemma {:induction false} ClaimIsForever(s: State, events: seq<Event>)
    requires s.claimed
    ensures Run(s, events).claimed
    decreases |events|
  {
    if events != [] {
      ClaimIsForever(Step(s, events[0]), events[1..]);
    }
  }

  /** Once claimed, no later recompute raises the prompt and the overlay never shows again. */
  lemma {:induction false} NoPromptAfterClaim(s: State, events: seq<Event>)
    requires Valid(s) && s.claimed
    ensures !Run(s, events).showCoinDrop && !OverlayVisible(Run(s, events))
  {
    RunKeepsValid(s, events);
    ClaimIsForever(s, events);
  }

  /** A session driven through the page shows the claim notification at most once. */
  lemma {:induction false} AtMostOneNotice(s: State, events: seq<Event>)
    requires Valid(s) && UserDriven(s, events)
    ensures Notices(events) <= if s.claimed then 0 else 1
    decreases |events|
  {
    if events != [] {
      var t := Step(s, events[0]);
      StepKeepsValid(s, events[0]);
      AtMostOneNotice(t, events[1..]);
      if events[0].Claim? {
        assert t.claimed;
      } else if !s.claimed {
        assert Notices(events) == Notices(events[1..]);
      } else {
        ClaimIsForever(s, [events[0]]);
        assert Run(s, [events[0]]) == t;
      }
    }
  }

  /**
    The first worked example end to end: 10 flights typed in, a response of
    20000 miles raises the overlay; the claim takes it down for good.
  */
  lemma ClaimScenario(data: Prediction.ResponseData)
    requires data.safMiles == Some(20000)
    ensures var s1 := Edited(Initial(), Form.SafFlightsTaken, JsNumbers.ShowNat(10));
      var s2 := Received(Submitted(s1), PendingOf(s1), Prediction.Answered(200, Prediction.Json(data)));
      s2.currentMiles == 20000.0 && OverlayVisible(s2) &&
      Claimed(s2).claimed && !OverlayVisible(Claimed(s2)) && Claimed(Claimed(s2)) == Claimed(s2)
  {
    var ten := JsNumbers.ShowNat(10);
    JsNumbers.NumberOfShowNat(10);
    var s1 := Edited(Initial(), Form.SafFlightsTaken, ten);
    assert s1.form.currentSafMiles == "" && s1.form.safFlightsTaken == ten;
    var s2 := Received(Submitted(s1), PendingOf(s1), Prediction.Answered(200, Prediction.Json(data)));
    assert s2.result == Some(Prediction.StoredResult(data, "", ten));
    assert s2.form == s1.form;
    assert MilesOf(s2) == 20000.0 && FlightsOf(s2) == 10.0;
  }
}
