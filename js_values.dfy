/** The few JavaScript value rules the handlers depend on. */
module JsValues {

  /** A value that is either present or JavaScript's `undefined`. */
  datatype Option<+T> = None | Some(value: T)

  /**
   * JavaScript truthiness of a value that is a string or `undefined`:
   * only a non-empty string is truthy.
   */
  predicate Truthy(v: Option<string>)
  {
    v.Some? && v.value != ""
  }

  /** How a template literal renders a string-or-`undefined` value. */
  function Render(v: Option<string>): string
  {
    match v
    case Some(s) => s
    case None => "undefined"
  }

  /** The decimal digits of a natural number, as `${n}` renders it. */
  function Decimal(n: nat): string
    decreases n
  {
    var digit := ["0123456789"[n % 10]];
    if n < 10 then digit else Decimal(n / 10) + digit
  }
}
