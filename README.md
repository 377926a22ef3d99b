# SAF Miles loyalty engine — a Dafny model

The SAF Miles Predictor page collects a flight's attributes and sends them to a
scoring service. It then turns the answer into a loyalty narrative: total
sustainable-fuel (SAF) miles, an elite flag (10 or more SAF flights), a progress
bar toward a 50000-mile goal, perks unlocked at 2000 miles, and a one-shot
"SAF Coin" prompt. The prompt appears at 20000 miles for an elite user who has
not claimed yet. This project models the page's loyalty and claim engine:

- `JsNumbers` (`js_numbers.dfy`): the JavaScript coercions the page uses on
  text: `Number(s)`, `parseFloat(s)`, `|| 0`, and `String(n)` for the HTTP
  status. Numbers are exact reals and NaN is `None`.
- `Form` (`form.dfy`): the form fields, the one-field update of the input
  change handler, and the request body built at submission.
- `Prediction` (`prediction.dfy`): the service at its boundary. It covers the
  response fields the page reads, the possible outcomes of a request, and what
  the submit handler stores or shows for each one.
- `Loyalty` (`loyalty.dfy`): the derived view. This is the total, the elite
  flag, the prompt gate, the bar's width, label and coin state, the flights
  still needed, the perks gate and the earned-miles gate.
- `SessionModel` (`session_model.dfy`): the component's state as a value. It
  holds the recompute effect, one transition per handler, and runs of events
  with the properties that span many steps.
- `App` (`app.dfy`): the class `Session`, whose fields are the component's state
  fields. Its methods update them in place, and each method's postcondition ties
  the new state to the matching `SessionModel` transition.

The loyalty gates in `Loyalty` (the bar, its label, the flights-needed count, the
perks and the earned-miles line) describe the result panel, which the page
renders only once a result is stored (frontend/src/App.js:201). Without a result
none of them is on screen, even where the gate itself would hold (for instance,
`Loyalty.FlightsNeeded` of empty flights text is 10). `SessionModel.OverlayVisible`
includes that panel gate.

The two milestones stay distinct. `Loyalty.CoinPromptMiles` (20000) gates the
prompt and the earned-miles line. `Loyalty.ProgressGoalMiles` (50000) is the
bar's goal and the coin state's threshold.

The transport is a parameter. `App.Session.BeginSubmit` returns the request body
and a `Pending` value, which holds the two loyalty texts that the submit handler
captures. `App.Session.FinishSubmit` takes that value and a
`Prediction.Outcome`: an HTTP status with a JSON or malformed body, or a network
error. The claim acknowledgement (`alert` in the page) is the string that
`App.Session.HandleClaim` returns.

Every handler method ends by running the recompute effect. React reruns the
effect only when one of its dependencies changed. `SessionModel.RecomputeFixpoint`
shows that on a settled state the effect changes nothing, so running it after
every handler gives the same states.

In five places the code does something other than what a reader of the page
might expect. The model follows the code:

- The bar's width is capped only from above (`Math.min(100, …)`). A negative
  baseline therefore gives a negative width (`Loyalty.NegativeMilesGiveNegativeWidth`).
  A clamp to [0, 100] would be the natural reading of a progress bar.
- `handleClaim` shows the acknowledgement on every call, so a second call would
  show it again. In the page, the claim button is rendered only on
  the overlay, and the overlay never shows again after a claim. So a session
  driven through the page shows the acknowledgement at most once
  (`SessionModel.AtMostOneNotice`).
- Without a result, the effect zeroes the total but leaves the prompt flag
  alone. One might expect every derived flag to become false. The prompt flag is
  false then anyway, because no handler clears `result` (`SessionModel.Consistent`).
- Miles and flights are whatever `Number(text) || 0` gives. That can be a
  fraction or a negative number. The "need N more flights" count is therefore
  at least 1 only for a whole number of flights (`Loyalty.FlightsNeededPositive`).
- Because `toFixed(1)` rounds, the bar already reads 100.0% at 49975 miles
  (`Loyalty.FullBarThreshold`). A non-elite user above 50025 miles sees a label
  over 100% (`Loyalty.LabelOverHundred`).

## Model

| member | source | states |
|---|---|---|
| JsNumbers.ToNumber | frontend/src/App.js:28-30 | `Number(s)`: the empty string reads as 0, and whenever non-empty text reads as a number, `parseFloat` reads the same number; numerals read as their value (`JsNumbers.NumberOfShowNat`) |
| JsNumbers.ParseFloat | frontend/src/App.js:45 | `parseFloat(s)`: NaN for the empty string and for text that starts with no sign, digit or point; it reads a numeral off the front of longer text (`JsNumbers.ParseFloatReadsPrefix`) |
| JsNumbers.NumberOrZero | frontend/src/App.js:28 | `Number(s) \|\| 0` is the number the text reads as, or 0 when it reads as NaN |
| JsNumbers.NumberOfShowNat | frontend/src/App.js:28-30 | a decimal numeral reads as its value under both `Number` and `parseFloat` |
| JsNumbers.NumberOfNegativeNumeral | frontend/src/App.js:28 | a minus sign before a numeral gives the negated value, so a negative baseline is kept |
| JsNumbers.NonNumericIsZero | frontend/src/App.js:30 | non-empty text with no decimal literal at its head reads as NaN and counts as 0 (text with a numeral followed by other characters is the case of `JsNumbers.ParseFloatReadsPrefix`) |
| JsNumbers.ParseFloatReadsPrefix | frontend/src/App.js:45 | `parseFloat` reads a numeral off the front of longer text, where `Number` gives NaN |
| JsNumbers.DigitsValueOfShowNat | frontend/src/App.js:70 | the status number's decimal text has that number as its value |
| JsNumbers.ShowNat | frontend/src/App.js:70 | `String(n)` is a non-empty run of digits without a leading zero |
| Form.InitialWellFormed | frontend/src/App.js:6-15 | the initial form holds no numeric field equal to 0 |
| Form.StoredNumber | frontend/src/App.js:44-45 | a numeric field stores blank exactly when `parseFloat` gives NaN or 0, and stores the parsed number otherwise |
| Form.StoredNumberOfNumeral | frontend/src/App.js:45 | a typed numeral is stored as its number, and "0" is stored as blank |
| Form.Change | frontend/src/App.js:40-50 | the changed field holds the stored number for the three numeric fields and the raw text for all others |
| Form.ChangeKeepsOtherFields | frontend/src/App.js:42-49 | an input change leaves every other field as it was |
| Form.ChangeKeepsWellFormed | frontend/src/App.js:44-45 | no input change stores the number 0 in a numeric field |
| Form.TextFieldsKeepRawText | frontend/src/App.js:46-48 | the loyalty and select fields keep their raw text, also when it does not parse |
| Form.Sent | frontend/src/App.js:60-62 | `parseFloat(f) \|\| 0` on a stored field; `Form.RequestZeroIffBlank` shows it is 0 exactly for a blank field |
| Form.Request | frontend/src/App.js:56-63 | the request body: the three selects as text and the three numbers as `Form.Sent` gives them; `Form.SentAfterChange` ties it to the typed text |
| Form.RequestZeroIffBlank | frontend/src/App.js:60-62 | a request number is 0 exactly when its stored field is blank |
| Form.SentAfterChange | frontend/src/App.js:40-63 | after typing into a numeric field, the request carries `parseFloat(text) \|\| 0` for it and the other numbers unchanged |
| Prediction.Handle | frontend/src/App.js:70-79 | a result is stored exactly for an ok status with a JSON body, carrying that body and the captured loyalty texts; every other outcome gives an error text with the failure prefix |
| Prediction.IsOk | frontend/src/App.js:70 | `response.ok`, a status from 200 to 299; `Prediction.Handle` stores a result only under it |
| Prediction.HttpErrorNamesStatus | frontend/src/App.js:70 | a status that is not ok gives "Failed to fetch prediction: HTTP error: " followed by text that reads back as the status |
| Loyalty.CurrentMiles | frontend/src/App.js:24-29 | 0 without a result; with one, the number the baseline text reads as (0 for NaN) plus the earned miles (0 when absent) |
| Loyalty.FlightsTaken | frontend/src/App.js:30 | the number the flights text reads as, or 0 for NaN |
| Loyalty.IsElite | frontend/src/App.js:31 | 10 or more flights; `Loyalty.EliteOfNumeral` gives it for typed counts |
| Loyalty.CoinDropDue | frontend/src/App.js:32-33 | the prompt gate: 20000 miles, elite, not claimed; `SessionModel.RecomputeCoinDrop` and `Loyalty.ClaimedNeverDue` hold its contract |
| Loyalty.PercentTenths | frontend/src/App.js:242 | the percentage in tenths is within half a tenth of the exact `miles / 50` and has the sign of the miles |
| Loyalty.CappedTenths | frontend/src/App.js:243 | the bar's width is the smaller of the percentage and 100.0%, with no lower bound |
| Loyalty.CanEarnCoin | frontend/src/App.js:244-246 | the coin state: 50000 miles and elite; `Loyalty.CoinStateStricterThanPrompt` compares it with the prompt gate |
| Loyalty.Label | frontend/src/App.js:279 | "MAX" or the uncapped percentage; `Loyalty.LabelOverHundred` holds its contract |
| Loyalty.FlightsNeeded | frontend/src/App.js:297-305 | the count `10 - flights` for a user who is not elite; `Loyalty.FlightsNeededPositive` holds its contract |
| Loyalty.PerksShown | frontend/src/App.js:313 | perks from 2000 miles on; `Loyalty.EarnedTextGate` holds its contract |
| Loyalty.EarnedTextShown | frontend/src/App.js:313-347 | the earned-miles line: inside the perks card, hidden for an elite user at 20000 miles; `Loyalty.EarnedTextGate` holds its contract |
| Loyalty.CurrentMilesDefaults | frontend/src/App.js:28 | a non-numeric or empty baseline counts as 0, and so does a response without `saf_miles` |
| Loyalty.CurrentMilesOfNumeral | frontend/src/App.js:28 | with a result, the total is exactly the typed baseline plus the earned miles |
| Loyalty.EliteOfNumeral | frontend/src/App.js:30-31 | a typed flight count makes the user elite exactly from 10 flights on |
| Loyalty.ProgressInRange | frontend/src/App.js:242-243 | for non-negative miles the bar's width lies in [0, 100]% |
| Loyalty.FullBarThreshold | frontend/src/App.js:241-245 | the bar is full exactly from 49975 miles on, so in particular at the 50000-mile goal |
| Loyalty.NegativeMilesGiveNegativeWidth | frontend/src/App.js:243 | the cap is one-sided: a total of -25 miles or less gives a negative width |
| Loyalty.LabelOverHundred | frontend/src/App.js:239-279 | the label reads "MAX" exactly in the coin state; above 50025 miles a non-elite user sees more than 100% |
| Loyalty.CoinStateStricterThanPrompt | frontend/src/App.js:241-246 | the bar's coin state implies the prompt gate, but 20000 miles with 10 flights passes the prompt gate and not the coin state |
| Loyalty.ClaimedNeverDue | frontend/src/App.js:33 | once claimed, the prompt gate fails whatever the miles and flights |
| Loyalty.FlightsNeededPositive | frontend/src/App.js:297-305 | the flights-needed count is shown exactly to non-elite users, is positive, and is at least 1 for a whole number of flights |
| Loyalty.EarnedTextGate | frontend/src/App.js:313-347 | the earned-miles line shows with the perks (from 2000 miles) exactly when the 20000-mile elite test fails |
| Loyalty.Examples | frontend/src/App.js:30-246 | the worked examples: 20000 miles and 10 flights raise the prompt at 40.0%; 5 flights do not; 50000 miles and 12 flights read MAX; a claim silences the prompt; 2100 miles unlock perks |
| SessionModel.Recompute | frontend/src/App.js:23-38 | the effect changes only the total and the prompt flag; `SessionModel.RecomputeCoinDrop` and `SessionModel.RecomputeWithoutResult` give their new values |
| SessionModel.Edited | frontend/src/App.js:40-50 | an input change replaces the form by its one-field update and leaves result, spinner, error and claim flag alone |
| SessionModel.Submitted | frontend/src/App.js:52-55 | the spinner on and the error cleared, with form, result and claim flag kept |
| SessionModel.Received | frontend/src/App.js:64-81 | spinner off; a stored outcome replaces the result and keeps the error, an error outcome keeps the result and sets the error text |
| SessionModel.Claimed | frontend/src/App.js:83-86 | claimed and the prompt down, with form, result, spinner and error kept |
| SessionModel.OverlayVisible | frontend/src/App.js:361 | the overlay shows with a result, the prompt up and no claim; `SessionModel.NoPromptAfterClaim` keeps it hidden after a claim |
| SessionModel.InitialValid | frontend/src/App.js:6-21 | the initial state is consistent and settled |
| SessionModel.RecomputeCoinDrop | frontend/src/App.js:28-37 | with a result, the effect raises the prompt exactly at 20000 miles, 10 flights and no claim, and sets the total to baseline plus earned miles |
| SessionModel.RecomputeWithoutResult | frontend/src/App.js:24-27 | without a result, the effect sets the total to 0 and leaves the prompt flag alone |
| SessionModel.RecomputeSettles | frontend/src/App.js:23-38 | the effect leaves a consistent, settled state and touches none of its inputs |
| SessionModel.RecomputeFixpoint | frontend/src/App.js:38 | on a settled state the effect changes nothing |
| SessionModel.RecomputeIdempotent | frontend/src/App.js:23-38 | running the effect twice gives the same state as running it once |
| SessionModel.StepKeepsValid | frontend/src/App.js:23-87 | every handler keeps the session consistent and settled |
| SessionModel.ClaimIdempotent | frontend/src/App.js:83-86 | a claim sets the claim flag and drops the prompt, and a second claim changes nothing |
| SessionModel.SuccessReplacesResult | frontend/src/App.js:72-80 | a successful response replaces the result wholesale with the captured loyalty texts and turns the spinner off |
| SessionModel.FailureKeepsResult | frontend/src/App.js:77-80 | a failed request shows its error, keeps the previous result and turns the spinner off |
| SessionModel.FailedResubmitKeepsFirstResult | frontend/src/App.js:52-81 | after a success, a failed resubmission still shows the first result, together with an error |
| SessionModel.RunKeepsValid | frontend/src/App.js:23-87 | any run of events keeps the session consistent and settled |
| SessionModel.ClaimIsForever | frontend/src/App.js:83-85 | no handler sets the claim flag back to false |
| SessionModel.NoPromptAfterClaim | frontend/src/App.js:33-37 | after a claim, no later recompute raises the prompt and the overlay never shows again |
| SessionModel.AtMostOneNotice | frontend/src/App.js:361-373 | a session driven through the page shows the claim acknowledgement at most once |
| SessionModel.ClaimScenario | frontend/src/App.js:23-87 | 10 flights and a response of 20000 miles raise the overlay; the claim takes it down, and claiming again changes nothing |
| App.Session.constructor | frontend/src/App.js:6-21 | the session starts with the initial form, no result, unclaimed, a total of 0 and no prompt |
| App.Session.Recompute | frontend/src/App.js:23-38 | the fields become the recompute transition of the old fields |
| App.Session.HandleChange | frontend/src/App.js:40-50 | the form gets the one-field update, then the effect runs |
| App.Session.BeginSubmit | frontend/src/App.js:52-63 | spinner on, error cleared, and the request and captured texts returned from the form at submission |
| App.Session.FinishSubmit | frontend/src/App.js:64-81 | the result is stored or the error shown as the outcome decides, then the spinner is turned off |
| App.Session.HandleClaim | frontend/src/App.js:83-87 | claimed, the prompt dropped, and the acknowledgement returned |
| App.Session.OverlayVisible | frontend/src/App.js:361 | the overlay shows only with a result and before a claim |

## Left out

- Rendering, styling, animation particles and `toLocaleString` formatting. Of the
  page's markup, only the gates the engine decides are modelled.
- The `fetch` call and HTTP transport. Its outcome is a parameter of `App.Session.FinishSubmit`.
- Overlapping submissions. Runs of events may interleave them freely, but no
  property about their order is stated.
- Double-precision arithmetic. Numbers are exact reals. The bar's `toFixed(1)`
  is exact half-away-from-zero rounding of `miles / 50` tenths, and float error
  at the .x5 boundaries is not modelled.
- JsNumbers.ToNumber: does not trim whitespace or read hexadecimal, binary,
  octal or `Infinity` literals. These read as NaN. A number input never delivers them.
- JsNumbers.ParseFloat: does not skip leading whitespace or read `Infinity`.
- Form.Sent: a stored number is assumed to read back as itself through
  `parseFloat`, which holds for every finite double.
- The select fields' values are kept as raw text, as the page stores them. The
  closed value sets are a property of the inputs, not of the engine.
- Response fields other than the five the page reads (the service's own
  `current_saf_miles` and `selectedInputs`) are not modelled. The page either
  overwrites them or never reads them.
- The service's scoring: model loading, label encoding, probability, the miles,
  price and CO2 formulas, and CSV logging. The model keeps only the boundary
  facts. The service computes `saf_miles` as an integer (backend/app.py:38).
  That integer is non-negative for inputs within the form's declared bounds,
  so the model types it `nat`. The service's error branch answers without
  `saf_miles` (backend/app.py:103-114).
- The training and data-generation scripts (backend/main.py,
  backend/generate_model.py) are not part of this model.
