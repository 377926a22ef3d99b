/**
  The prediction form: its fields, the single-field update done on every
  input change, and the request body built from it on submission.
*/
module Form {
  import opened Wrappers
  import JsNumbers

  /** The names of the form's inputs. */
  datatype FieldName =
    | Tier | Cabin | Route
    | DistanceKm | Premium | SafBlend
    | CurrentSafMiles | SafFlightsTaken
  {
    /** The three flight fields whose text is parsed as a float when it is stored. */
    predicate IsNumeric() { DistanceKm? || Premium? || SafBlend? }
  }

  /** A stored numeric flight field: a number, or '' when the input did not parse. */
  datatype NumField = Blank | Num(x: real)

  /** What a field holds: raw text, or a stored numeric field. */
  datatype FieldValue = Text(text: string) | Number(number: NumField)

  datatype FormData = FormData(
    tier: string,
    cabin: string,
    route: string,
    distanceKm: NumField,
    premium: NumField,
    safBlend: NumField,
    currentSafMiles: string,
    safFlightsTaken: string)

  /** The form as the page first shows it. */
  function Initial(): FormData {
    FormData("Gold", "Business", "HKG-JFK", Num(12970.0), Num(25.0), Num(0.24), "", "")
  }

  function Get(form: FormData, name: FieldName): FieldValue {
    match name
    case Tier => Text(form.tier)
    case Cabin => Text(form.cabin)
    case Route => Text(form.route)
    case DistanceKm => Number(form.distanceKm)
    case Premium => Number(form.premium)
    case SafBlend => Number(form.safBlend)
    case CurrentSafMiles => Text(form.currentSafMiles)
    case SafFlightsTaken => Text(form.safFlightsTaken)
  }

  /** `parseFloat(value) || ''`: the parsed number, or blank when it is NaN or 0. */
  function StoredNumber(value: string): (f: NumField)
    ensures f.Blank? <==> JsNumbers.ParseFloat(value) == None || JsNumbers.ParseFloat(value) == Some(0.0)
    ensures f.Num? ==> JsNumbers.ParseFloat(value) == Some(f.x) && f.x != 0.0
  {
    match JsNumbers.ParseFloat(value)
    case Some(x) => if x == 0.0 then Blank else Num(x)
    case None => Blank
  }

  /** The form after the input `name` reports the text `value`. */
  function Change(form: FormData, name: FieldName, value: string): (r: FormData)
    ensures Get(r, name) == if name.IsNumeric() then Number(StoredNumber(value)) else Text(value)
  {
    match name
    case Tier => form.(tier := value)
    case Cabin => form.(cabin := value)
    case Route => form.(route := value)
    case DistanceKm => form.(distanceKm := StoredNumber(value))
    case Premium => form.(premium := StoredNumber(value))
    case SafBlend => form.(safBlend := StoredNumber(value))
    case CurrentSafMiles => form.(currentSafMiles := value)
    case SafFlightsTaken => form.(safFlightsTaken := value)
  }

  /** A numeral typed into a numeric field is stored as its number, except that 0 is stored as blank. */
  lemma StoredNumberOfNumeral(n: nat)
    ensures StoredNumber(JsNumbers.ShowNat(n)) == if n == 0 then Blank else Num(n as real)
  {
    JsNumbers.NumberOfShowNat(n);
  }

  /** An input change updates its own field and no other. */
  lemma ChangeKeepsOtherFields(form: FormData, name: FieldName, value: string, other: FieldName)
    requires other != name
    ensures Get(Change(form, name, value), other) == Get(form, other)
  {
    match name
    case Tier =>
    case Cabin =>
    case Route =>
    case DistanceKm =>
    case Premium =>
    case SafBlend =>
    case CurrentSafMiles =>
    case SafFlightsTaken =>
  }

  /** A stored numeric field is never the number 0: that is stored as blank. */
  predicate Stored(f: NumField) { f.Blank? || f.x != 0.0 }

  predicate WellFormed(form: FormData) {
    Stored(form.distanceKm) && Stored(form.premium) && Stored(form.safBlend)
  }

  lemma InitialWellFormed()
    ensures WellFormed(Initial())
  {
  }

  lemma ChangeKeepsWellFormed(form: FormData, name: FieldName, value: string)
    requires WellFormed(form)
    ensures WellFormed(Change(form, name, value))
  {
  }

  /** The JSON body of the prediction request. */
  datatype FlightRequest = FlightRequest(
    tier: string,
    cabin: string,
    route: string,
    distanceKm: real,
    premium: real,
    safBlend: real)

  /**
    `parseFloat(f) || 0` on a stored field. A number converts to its own decimal
    text and reads back as itself; '' reads as NaN, and so is sent as 0.
  */
  function Sent(f: NumField): real {
    match f
    case Blank => 0.0
    case Num(x) => x
  }

  function Request(form: FormData): FlightRequest {
    FlightRequest(form.tier, form.cabin, form.route,
                  Sent(form.distanceKm), Sent(form.premium), Sent(form.safBlend))
  }

  /** The request's copy of a numeric field. */
  function RequestNumber(req: FlightRequest, name: FieldName): real
    requires name.IsNumeric()
  {
    match name
    case DistanceKm => req.distanceKm
    case Premium => req.premium
    case SafBlend => req.safBlend
  }

  /** In a well-formed form, a numeric field is sent as 0 exactly when it is blank. */
  lemma RequestZeroIffBlank(form: FormData, name: FieldName)
    requires WellFormed(form) && name.IsNumeric()
    ensures RequestNumber(Request(form), name) == 0.0 <==> Get(form, name) == Number(Blank)
    ensures Get(form, name).Number?
  {
  }

  /**
    Typing text into a numeric field and then submitting sends `parseFloat(text) || 0`
    for that field, and leaves the other request fields as they were.
  */
  lemma SentAfterChange(form: FormData, name: FieldName, value: string)
    requires name.IsNumeric()
    ensures var req := Request(Change(form, name, value));
      RequestNumber(req, name) == match JsNumbers.ParseFloat(value) case Some(x) => x case None => 0.0
    ensures forall other: FieldName :: other.IsNumeric() && other != name ==>
      RequestNumber(Request(Change(form, name, value)), other) == RequestNumber(Request(form), other)
  {
  }

  /** Selects and the two loyalty fields keep the raw text, also when it does not parse. */
  lemma TextFieldsKeepRawText(form: FormData, name: FieldName, value: string)
    requires !name.IsNumeric()
    ensures Get(Change(form, name, value), name) == Text(value)
  {
  }
}
