/**
 * The two JavaScript defaulting operators the map manager mixes, on optional
 * numbers. JavaScript numbers are modelled as reals (NaN and the infinities are
 * not modelled), `undefined` as `None`.
 */
module Js {
  import opened Wrappers

  /** A number is truthy when it is present and not 0. */
  predicate Truthy(x: Option<real>) {
    x.Some? && x.value != 0.0
  }

  /** `x || fallback`: a missing value and the value 0 both fall through. */
  function Or(x: Option<real>, fallback: real): real {
    if Truthy(x) then x.value else fallback
  }

  /** `x ?? fallback`: only a missing value falls through; 0 is kept. */
  function Coalesce(x: Option<real>, fallback: real): real {
    if x.Some? then x.value else fallback
  }

  /** What string concatenation makes of an optional string operand. */
  function ToText(s: Option<string>): string {
    if s.Some? then s.value else "undefined"
  }
}
