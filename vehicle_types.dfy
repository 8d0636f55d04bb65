/**
 * A vehicle as the server sends it. Fields the server may leave out, or send empty, are
 * optional here, so that the JavaScript `x || default` rules can be stated exactly.
 */
module VehicleTypes {
  import opened JsRuntime

  datatype Consumption = Consumption(city: Option<real>, highway: Option<real>, mixed: Option<real>)

  /** `id` is `_id`; a vehicle that has none carries the empty string. */
  datatype Vehicle = Vehicle(
    id: string,
    userId: string,
    model: Option<string>,
    brand: Option<string>,
    year: Option<int>,
    plate: Option<string>,
    engineSize: Option<real>,
    fuelType: Option<string>,
    transmission: Option<string>,
    isDefault: Option<bool>,
    consumption: Option<Consumption>,
    createdAt: int)

  /** `text || fallback`: a missing or empty text gives the fallback. */
  function OrText(text: Option<string>, fallback: string): (r: string)
    ensures text.Some? && text.value != "" ==> r == text.value
    ensures text.None? || text.value == "" ==> r == fallback
  {
    if text.Some? && text.value != "" then text.value else fallback
  }

  /** `x || fallback` for a number: a missing value or 0 gives the fallback. */
  function OrReal(x: Option<real>, fallback: real): (r: real)
    ensures x.Some? && x.value != 0.0 ==> r == x.value
    ensures x.None? || x.value == 0.0 ==> r == fallback
  {
    if x.Some? && x.value != 0.0 then x.value else fallback
  }

  /** `flag || false`: true exactly when the flag is present and true. */
  function OrFalse(flag: Option<bool>): (r: bool)
    ensures r <==> flag == Some(true)
  {
    flag.Some? && flag.value
  }
}
