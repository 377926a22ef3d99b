/**
  The derived loyalty view: total miles, the elite flag, the coin-prompt
  gate, the progress bar, the flights still needed, the perks gate and the
  "You've earned ... miles" gate. All of it is recomputed from the two
  loyalty texts of the form, the stored result and the claim flag.

  Two milestones are kept apart on purpose: 20000 miles gates the coin
  prompt and the earned-miles line, 50000 miles is the progress bar's goal.
*/
module Loyalty {
  import opened Wrappers
  import JsNumbers
  import Prediction

  const EliteFlights: real := 10.0
  const CoinPromptMiles: real := 20000.0
  const ProgressGoalMiles: real := 50000.0
  const PerksMiles: real := 2000.0

  /** A full progress bar, in tenths of a percent. */
  const FullBarTenths: int := 1000

  /** `result.saf_miles || 0`. */
  function SafMilesOrZero(miles: Option<nat>): real {
    match miles
    case Some(m) => m as real
    case None => 0.0
  }

  /** Total miles: 0 before any result, else the baseline text's number plus the result's miles. */
  function CurrentMiles(baselineText: string, result: Option<Prediction.StoredResult>): (m: real)
    ensures result.None? ==> m == 0.0
    ensures result.Some? && JsNumbers.ToNumber(baselineText) == None ==> m == SafMilesOrZero(result.value.data.safMiles)
    ensures result.Some? && JsNumbers.ToNumber(baselineText).Some? ==>
      m == JsNumbers.ToNumber(baselineText).value + SafMilesOrZero(result.value.data.safMiles)
  {
    match result
    case None => 0.0
    case Some(r) => JsNumbers.NumberOrZero(baselineText) + SafMilesOrZero(r.data.safMiles)
  }

  /** `Number(saf_flights_taken) || 0`. */
  function FlightsTaken(flightsText: string): (f: real)
    ensures JsNumbers.ToNumber(flightsText) == Some(f) || (JsNumbers.ToNumber(flightsText) == None && f == 0.0)
  {
    JsNumbers.NumberOrZero(flightsText)
  }

  predicate IsElite(flights: real) { flights >= EliteFlights }

  /** Whether the recompute effect raises the coin prompt. */
  predicate CoinDropDue(miles: real, flights: real, claimed: bool) {
    miles >= CoinPromptMiles && IsElite(flights) && !claimed
  }

  /**
    `((miles / 50000) * 100).toFixed(1)`, in tenths of a percent: the exact
    quotient `miles / 50` rounded half away from zero, as `toFixed` rounds.
  */
  function PercentTenths(miles: real): (t: int)
    ensures miles / 50.0 - 0.5 <= t as real <= miles / 50.0 + 0.5
    ensures miles >= 0.0 ==> t >= 0
    ensures miles <= 0.0 ==> t <= 0
  {
    var tenths := miles * 1000.0 / ProgressGoalMiles;
    if tenths >= 0.0 then (tenths + 0.5).Floor else -((-tenths + 0.5).Floor)
  }

  /** `Math.min(100, parseFloat(percentage))`: the bar's width, capped above only. */
  function CappedTenths(miles: real): (w: int)
    ensures w <= FullBarTenths && w <= PercentTenths(miles)
    ensures w == FullBarTenths || w == PercentTenths(miles)
  {
    var t := PercentTenths(miles);
    if t < FullBarTenths then t else FullBarTenths
  }

  /** The bar's highlighted state. */
  predicate CanEarnCoin(miles: real, flights: real) {
    miles >= ProgressGoalMiles && IsElite(flights)
  }

  /** The text inside the bar: "MAX", or the uncapped percentage. */
  datatype BarLabel = Max | Percent(tenths: int)

  function Label(miles: real, flights: real): BarLabel {
    if CanEarnCoin(miles, flights) then Max else Percent(PercentTenths(miles))
  }

  /** The "Need N more SAF flights" count, shown to a user who is not elite. */
  function FlightsNeeded(flights: real): Option<real> {
    if IsElite(flights) then None else Some(EliteFlights - flights)
  }

  predicate PerksShown(miles: real) { miles >= PerksMiles }

  /** The earned-miles line sits in the perks card and is hidden at the prompt milestone for an elite user. */
  predicate EarnedTextShown(miles: real, flights: real) {
    PerksShown(miles) && !(miles >= CoinPromptMiles && IsElite(flights))
  }

  // ---------------------------------------------------------------------------
  // Properties of the view

  /** With a result, the total is the baseline's number plus the earned miles, with both defaults. */
  lemma CurrentMilesDefaults(baselineText: string, r: Prediction.StoredResult)
    ensures JsNumbers.ToNumber(baselineText) == None ==>
      CurrentMiles(baselineText, Some(r)) == SafMilesOrZero(r.data.safMiles)
    ensures r.data.safMiles == None ==>
      CurrentMiles(baselineText, Some(r)) == JsNumbers.NumberOrZero(baselineText)
    ensures baselineText == "" ==> CurrentMiles(baselineText, Some(r)) == SafMilesOrZero(r.data.safMiles)
  {
  }

  /** A baseline typed as a numeral adds exactly to the earned miles. */
  lemma CurrentMilesOfNumeral(baseline: nat, r: Prediction.StoredResult, earned: nat)
    requires r.data.safMiles == Some(earned)
    ensures CurrentMiles(JsNumbers.ShowNat(baseline), Some(r)) == (baseline + earned) as real
  {
    JsNumbers.NumberOfShowNat(baseline);
  }

  /** A flight count typed as a numeral makes the user elite exactly from 10 flights on. */
  lemma EliteOfNumeral(flights: nat)
    ensures IsElite(FlightsTaken(JsNumbers.ShowNat(flights))) <==> flights >= 10
  {
    JsNumbers.NumberOfShowNat(flights);
  }

  /** For non-negative miles the bar's width lies in [0, 100] percent. */
  lemma ProgressInRange(miles: real)
    requires miles >= 0.0
    ensures 0 <= CappedTenths(miles) <= FullBarTenths
  {
  }

  /**
    The bar is full from the goal on. Because `toFixed(1)` rounds, it already
    reads 100.0 from 49975 miles, 25 miles before the goal.
  */
  lemma FullBarThreshold(miles: real)
    requires miles >= 0.0
    ensures CappedTenths(miles) == FullBarTenths <==> miles >= ProgressGoalMiles - 25.0
    ensures miles >= ProgressGoalMiles ==> CappedTenths(miles) == FullBarTenths
  {
    var tenths := miles * 1000.0 / ProgressGoalMiles;
    assert tenths == miles / 50.0;
  }

  /** The cap is one-sided: a negative total gives a negative width. */
  lemma NegativeMilesGiveNegativeWidth(miles: real)
    requires miles <= -25.0
    ensures CappedTenths(miles) < 0
  {
    var tenths := miles * 1000.0 / ProgressGoalMiles;
    assert tenths == miles / 50.0;
    assert -tenths + 0.5 >= 1.0;
  }

  /** The label shows "MAX" exactly with the coin state; otherwise a non-elite user at 50025 miles sees more than 100%. */
  lemma LabelOverHundred(miles: real, flights: real)
    ensures Label(miles, flights) == Max <==> CanEarnCoin(miles, flights)
    ensures miles >= ProgressGoalMiles + 25.0 && !IsElite(flights) ==>
      Label(miles, flights).Percent? && Label(miles, flights).tenths > FullBarTenths
  {
    var tenths := miles * 1000.0 / ProgressGoalMiles;
    assert tenths == miles / 50.0;
  }

  /** The bar's coin state is a stricter gate than the prompt: it implies it, the converse fails. */
  lemma CoinStateStricterThanPrompt(miles: real, flights: real)
    ensures CanEarnCoin(miles, flights) ==> CoinDropDue(miles, flights, false)
    ensures CoinDropDue(CoinPromptMiles, EliteFlights, false) && !CanEarnCoin(CoinPromptMiles, EliteFlights)
  {
  }

  /** Claiming turns the prompt off whatever the miles and flights. */
  lemma ClaimedNeverDue(miles: real, flights: real)
    ensures !CoinDropDue(miles, flights, true)
  {
  }

  /** The count of flights still needed is shown exactly to non-elite users and is positive; at least 1 for a whole number of flights. */
  lemma FlightsNeededPositive(flights: real)
    ensures FlightsNeeded(flights).Some? <==> !IsElite(flights)
    ensures FlightsNeeded(flights).Some? ==> FlightsNeeded(flights).value > 0.0
    ensures FlightsNeeded(flights).Some? && flights == flights.Floor as real ==> FlightsNeeded(flights).value >= 1.0
  {
  }

  /** The earned-miles line is shown with the perks exactly when the prompt's miles-and-elite test fails. */
  lemma EarnedTextGate(miles: real, flights: real)
    ensures EarnedTextShown(miles, flights) <==> PerksShown(miles) && !CoinDropDue(miles, flights, false)
    ensures PerksShown(miles) <==> miles >= 2000.0
  {
  }

  /** The worked examples of the loyalty rules, at the level of totals. */
  lemma Examples()
    ensures CoinDropDue(20000.0, 10.0, false) && PercentTenths(20000.0) == 400 && !CanEarnCoin(20000.0, 10.0)
    ensures !CoinDropDue(25000.0, 5.0, false) && FlightsNeeded(5.0) == Some(5.0)
    ensures CanEarnCoin(50000.0, 12.0) && CappedTenths(50000.0) == FullBarTenths && Label(50000.0, 12.0) == Max
    ensures !CoinDropDue(20000.0, 10.0, true)
    ensures PerksShown(1500.0 + 600.0) && !PerksShown(1999.0)
  {
  }
}
