/** The parts of JavaScript's run-time semantics that the tile-sizing code of
    the tiles chart relies on: absent values, the TypeErrors its property
    accesses and reductions throw, and the IEEE-754 special values that
    division and `Math.sqrt` produce and that comparisons treat specially.
    Numbers are modelled as mathematical reals: rounding and signed zero are
    not part of this model. */
module JsRuntime {

  /** A property that may be absent (`undefined`, `null` or another falsy value). */
  datatype Option<+T> = None | Some(value: T)

  /** The TypeErrors the tile-sizing code can throw. */
  datatype TypeError =
    | GroupsUndefined      // `data.groups.map(...)` when `data.groups` is undefined
    | ReduceOfEmptyArray   // `[].reduce(f)` without an initial value

  /** The outcome of an expression that may throw. */
  datatype Result<+T> = Ok(value: T) | Err(error: TypeError)

  /** A JavaScript number: a finite value, or one of IEEE-754's special values. */
  datatype Number = Finite(value: real) | PositiveInfinity | NegativeInfinity | NaN

  /** `a / b` on finite operands: a finite quotient when the divisor is not
      zero, otherwise an infinity of the dividend's sign, or NaN for `0 / 0`. */
  function Divide(a: real, b: real): (r: Number)
    ensures r.Finite? <==> b != 0.0
    ensures r.Finite? ==> r.value * b == a
    ensures r == PositiveInfinity <==> b == 0.0 && 0.0 < a
    ensures r == NegativeInfinity <==> b == 0.0 && a < 0.0
    ensures r == NaN <==> b == 0.0 && a == 0.0
  {
    if b != 0.0 then Finite(a / b)
    else if 0.0 < a then PositiveInfinity
    else if a < 0.0 then NegativeInfinity
    else NaN
  }

  /** The defining property of the square root that `Math.sqrt` computes on
      finite non-negative arguments. */
  ghost predicate IsSquareRoot(sqrt: real -> real) {
    forall x :: 0.0 <= x ==> 0.0 <= sqrt(x) && sqrt(x) * sqrt(x) == x
  }

  /** `Math.sqrt(n)`: the non-negative root of a finite non-negative number,
      Infinity for Infinity, and NaN for negative numbers and NaN. */
  function SquareRoot(n: Number, sqrt: real -> real): (r: Number)
    requires IsSquareRoot(sqrt)
    ensures r.Finite? <==> n.Finite? && 0.0 <= n.value
    ensures r.Finite? ==> 0.0 <= r.value && r.value * r.value == n.value
    ensures r == PositiveInfinity <==> n == PositiveInfinity
    ensures r == NaN <==> n == NaN || n == NegativeInfinity || (n.Finite? && n.value < 0.0)
  {
    match n
    case Finite(x) => if 0.0 <= x then Finite(sqrt(x)) else NaN
    case PositiveInfinity => PositiveInfinity
    case NegativeInfinity => NaN
    case NaN => NaN
  }

  /** `n <= m` for a finite `m`; false whenever `n` is NaN, and otherwise the
      negation of `n > m`. */
  predicate AtMost(n: Number, m: real)
    ensures n == NaN ==> !AtMost(n, m)
    ensures n != NaN ==> (AtMost(n, m) <==> !GreaterThan(n, m))
  {
    match n
    case Finite(x) => x <= m
    case NegativeInfinity => true
    case _ => false
  }

  /** `n >= m` for a finite `m`; false whenever `n` is NaN, and otherwise
      `n > m` or `n` equal to `m`. */
  predicate AtLeast(n: Number, m: real)
    ensures n == NaN ==> !AtLeast(n, m)
    ensures n != NaN ==> (AtLeast(n, m) <==> GreaterThan(n, m) || n == Finite(m))
  {
    match n
    case Finite(x) => m <= x
    case PositiveInfinity => true
    case _ => false
  }

  /** `n > m` for a finite `m`: the real order on finite numbers, always for
      Infinity, never for -Infinity or NaN. */
  predicate GreaterThan(n: Number, m: real)
    ensures n.Finite? ==> (GreaterThan(n, m) <==> m < n.value)
    ensures n == PositiveInfinity ==> GreaterThan(n, m)
    ensures n == NegativeInfinity || n == NaN ==> !GreaterThan(n, m)
  {
    match n
    case Finite(x) => m < x
    case PositiveInfinity => true
    case _ => false
  }
}
