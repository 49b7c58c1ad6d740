/** Shapes of the values the search pipeline passes around (src/types/types.ts),
    plus the Option type used for the source's nullable values. */
module Types {

  /** A nullable value: `null` is None. */
  datatype Option<+T> = None | Some(value: T)

  /** A JavaScript `Date`: a time value in milliseconds, or the Invalid Date
      (time value NaN) that `new Date(text)` yields for text it cannot parse.
      Time values are local wall-clock milliseconds: the time zone is left out. */
  datatype JsDate = Time(ms: int) | InvalidDate

  /** A price. The amount is a JavaScript number, kept here as a real. */
  datatype Amount = Amount(value: real, currency: string)

  /** One journey offered by the journey search. Departure and arrival are
      valid `Date`s, so they are kept as time values. */
  datatype Journey = Journey(
    origin: string,
    destination: string,
    departure: int,
    arrival: int,
    price: Amount)

  /** The request handed from the search form to the journey search. */
  datatype JourneyParameters = JourneyParameters(
    origin: string,
    destination: string,
    date: JsDate,
    nrOfPassengers: int)

  /** One optional message per form field; None is `null`. */
  datatype FormErrors = FormErrors(
    origin: Option<string>,
    destination: Option<string>,
    date: Option<string>,
    passengers: Option<string>)

  const NoErrors := FormErrors(None, None, None, None)

  /** JavaScript truthiness of a nullable string: neither `null` nor "". */
  predicate Truthy(s: Option<string>)
  {
    s.Some? && s.value != ""
  }
}
