/**
  The prediction service at its boundary: what a response carries, the
  ways a request can end, and what the submit handler makes of each.
  The transport itself is not modelled; its outcome is a parameter.
*/
module Prediction {
  import opened Wrappers
  import JsNumbers

  /**
    The response fields the page reads. A key missing from the JSON (the
    service's own error branch answers with a body that has no `saf_miles`)
    is `None`. The service computes `saf_miles` as an integer, not negative
    for inputs that pass the form's bounds.
  */
  datatype ResponseData = ResponseData(
    probability: Option<real>,
    safMiles: Option<nat>,
    co2Reduction: Option<real>,
    netPrice: Option<real>,
    profit: Option<real>)

  /** The stored result: the response with the form's two loyalty texts written over it. */
  datatype StoredResult = StoredResult(data: ResponseData, currentSafMiles: string, safFlightsTaken: string)

  /** The two loyalty texts as the form held them when the request was sent. */
  datatype Pending = Pending(currentSafMiles: string, safFlightsTaken: string)

  /** The body of an answered request: JSON, or text that `response.json()` rejects. */
  datatype Body = Json(data: ResponseData) | Malformed(reason: string)

  /** How a request ends: an HTTP status with a body, or a transport error from `fetch`. */
  datatype Outcome = Answered(status: nat, body: Body) | NetworkError(reason: string)

  /** `response.ok`. */
  predicate IsOk(status: nat) { 200 <= status <= 299 }

  const FailurePrefix: string := "Failed to fetch prediction: "
  const HttpErrorPrefix: string := "HTTP error: "

  /** What the submit handler does with an outcome: store a result, or show an error text. */
  datatype Handling = Store(result: StoredResult) | ShowError(message: string)

  function Handle(pending: Pending, outcome: Outcome): (h: Handling)
    ensures h.Store? <==> outcome.Answered? && IsOk(outcome.status) && outcome.body.Json?
    ensures h.Store? ==> h.result.data == outcome.body.data
    ensures h.Store? ==>
      h.result.currentSafMiles == pending.currentSafMiles && h.result.safFlightsTaken == pending.safFlightsTaken
    ensures h.ShowError? ==> FailurePrefix <= h.message
    ensures outcome.NetworkError? ==> h == ShowError(FailurePrefix + outcome.reason)
    ensures outcome.Answered? && IsOk(outcome.status) && outcome.body.Malformed? ==>
      h == ShowError(FailurePrefix + outcome.body.reason)
  {
    match outcome
    case NetworkError(reason) => ShowError(FailurePrefix + reason)
    case Answered(status, body) =>
      if !IsOk(status) then ShowError(FailurePrefix + HttpErrorPrefix + JsNumbers.ShowNat(status))
      else match body
        case Json(data) => Store(StoredResult(data, pending.currentSafMiles, pending.safFlightsTaken))
        case Malformed(reason) => ShowError(FailurePrefix + reason)
  }

  /** A status that is not ok is reported with the status number, which reads back as itself. */
  lemma HttpErrorNamesStatus(pending: Pending, status: nat, body: Body)
    requires !IsOk(status)
    ensures Handle(pending, Answered(status, body)).ShowError?
    ensures var m := Handle(pending, Answered(status, body)).message;
      |FailurePrefix + HttpErrorPrefix| < |m| &&
      m[..|FailurePrefix + HttpErrorPrefix|] == FailurePrefix + HttpErrorPrefix &&
      JsNumbers.ToNumber(m[|FailurePrefix + HttpErrorPrefix|..]) == Some(status as real)
  {
    var p := FailurePrefix + HttpErrorPrefix;
    var m := p + JsNumbers.ShowNat(status);
    assert m[..|p|] == p;
    assert m[|p|..] == JsNumbers.ShowNat(status);
    JsNumbers.NumberOfShowNat(status);
  }
}
