/** A value that may be missing, as a `?.` lookup that misses leaves it. */
module Options {
  datatype Option<+T> = None | Some(value: T)
}

/** The decimal arithmetic the pool view performs with BigNumber. */
module Decimal {
  import opened Options

  /** A BigNumber as the APY computation sees it: `Some(x)` is the finite decimal `x`;
      `None` is a value that was never there (a lookup that missed) or a result that
      is not a finite number (NaN, Infinity). */
  type Value = Option<real>

  /** JavaScript truthiness of a plain number: present and not zero. */
  predicate Truthy(v: Value) {
    v.Some? && v.value != 0.0
  }

  /** `a.times(b)`: finite exactly when both factors are. */
  function Mul(a: Value, b: Value): (r: Value)
    ensures r.Some? <==> a.Some? && b.Some?
    ensures r.Some? ==> r.value == a.value * b.value
  {
    if a.Some? && b.Some? then Some(a.value * b.value) else None
  }

  /** `a.div(b)`: finite exactly when both operands are and the divisor is not zero;
      the quotient is the number that multiplied by the divisor gives back the dividend. */
  function Div(a: Value, b: Value): (r: Value)
    ensures r.Some? <==> a.Some? && b.Some? && b.value != 0.0
    ensures r.Some? ==> r.value * b.value == a.value
  {
    if a.Some? && b.Some? && b.value != 0.0 then Some(a.value / b.value) else None
  }
}
