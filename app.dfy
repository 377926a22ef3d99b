/**
  The page component's session: its state fields, updated in place by the
  input, submit and claim handlers and by the recompute effect. Each
  method follows the matching transition of `SessionModel`.
*/
module App {
  import opened Wrappers
  import JsNumbers
  import Form
  import Prediction
  import Loyalty
  import SessionModel

  /** The acknowledgement shown when the coin is claimed. */
  const ClaimNotice: string := "SAF Coin claimed! Ready for next milestone."

  class Session {
    var form: Form.FormData
    var result: Option<Prediction.StoredResult>
    var loading: bool
    var error: Option<string>
    var showCoinDrop: bool
    var claimed: bool
    var currentMiles: real

    /** The session's fields as a value. */
    ghost function State(): SessionModel.State
      reads this
    {
      SessionModel.State(form, result, loading, error, showCoinDrop, claimed, currentMiles)
    }

    ghost predicate Valid()
      reads this
    {
      SessionModel.Valid(State())
    }

    constructor ()
      ensures Valid() && State() == SessionModel.Initial()
    {
      form := Form.Initial();
      result := None;
      loading := false;
      error := None;
      showCoinDrop := false;
      claimed := false;
      currentMiles := 0.0;
    }

    /** The recompute effect. */
    method Recompute()
      requires SessionModel.Consistent(State())
      modifies this
      ensures Valid()
      ensures State() == SessionModel.Recompute(old(State()))
    {
      ghost var before := State();
      if result.None? {
        currentMiles := 0.0;
        return;
      }
      var miles := Loyalty.CurrentMiles(form.currentSafMiles, result);
      assert miles == SessionModel.MilesOf(before);
      currentMiles := miles;
      var flights := Loyalty.FlightsTaken(form.safFlightsTaken);
      assert flights == SessionModel.FlightsOf(before);
      if Loyalty.CoinDropDue(miles, flights, claimed) {
        showCoinDrop := true;
      } else {
        showCoinDrop := false;
      }
      assert State() == before.(currentMiles := miles, showCoinDrop := Loyalty.CoinDropDue(miles, flights, claimed));
    }

    /** The input change handler: a one-field update of the form. */
    method HandleChange(name: Form.FieldName, value: string)
      requires Valid()
      modifies this
      ensures Valid()
      ensures State() == SessionModel.Edited(old(State()), name, value)
    {
      Form.ChangeKeepsWellFormed(form, name, value);
      form := Form.Change(form, name, value);
      Recompute();
    }

    /**
      The submit handler up to the request: the spinner on, the error cleared,
      and the request body with the two loyalty texts the handler captures.
    */
    method BeginSubmit() returns (request: Form.FlightRequest, pending: Prediction.Pending)
      requires Valid()
      modifies this
      ensures Valid()
      ensures request == Form.Request(old(form)) && pending == SessionModel.PendingOf(old(State()))
      ensures State() == SessionModel.Submitted(old(State()))
    {
      loading := true;
      error := None;
      request := Form.Request(form);
      pending := Prediction.Pending(form.currentSafMiles, form.safFlightsTaken);
      Recompute();
    }

    /** The submit handler from the awaited outcome on. */
    method FinishSubmit(pending: Prediction.Pending, outcome: Prediction.Outcome)
      requires Valid()
      modifies this
      ensures Valid()
      ensures State() == SessionModel.Received(old(State()), pending, outcome)
    {
      match Prediction.Handle(pending, outcome) {
        case Store(r) => result := Some(r);
        case ShowError(m) => error := Some(m);
      }
      loading := false;
      Recompute();
    }

    /** The claim handler: claimed, the prompt dismissed, and the acknowledgement emitted. */
    method HandleClaim() returns (notice: string)
      requires Valid()
      modifies this
      ensures Valid()
      ensures notice == ClaimNotice
      ensures State() == SessionModel.Claimed(old(State()))
    {
      claimed := true;
      showCoinDrop := false;
      notice := ClaimNotice;
      Recompute();
    }

    /** Whether the coin overlay, and with it the claim button, is on screen. */
    predicate OverlayVisible()
      reads this
      ensures OverlayVisible() == SessionModel.OverlayVisible(State())
      ensures OverlayVisible() ==> result.Some? && !claimed
    {
      result.Some? && showCoinDrop && !claimed
    }
  }

  /**
    A scripted session: earn the coin, claim it, and see the prompt stay down.
    It is the class-level counterpart of `SessionModel.ClaimScenario` and shows
    that the methods' contracts are strong enough to follow a session step by step.
  */
  method ClaimOnce(data: Prediction.ResponseData)
    requires data.safMiles == Some(20000)
  {
    var ten := JsNumbers.ShowNat(10);
    var s := new Session();
    s.HandleChange(Form.SafFlightsTaken, ten);
    assert s.form.currentSafMiles == "" && s.form.safFlightsTaken == ten;
    var request, pending := s.BeginSubmit();
    assert s.loading && pending == Prediction.Pending("", ten);
    s.FinishSubmit(pending, Prediction.Answered(200, Prediction.Json(data)));
    assert !s.loading && s.result == Some(Prediction.StoredResult(data, "", ten));
    Loyalty.EliteOfNumeral(10);
    assert Loyalty.CurrentMiles("", s.result) == 20000.0;
    assert s.currentMiles == 20000.0;
    assert s.OverlayVisible();
    var notice := s.HandleClaim();
    assert s.claimed && !s.OverlayVisible();
    notice := s.HandleClaim();
    assert s.claimed && !s.showCoinDrop;
  }
}
