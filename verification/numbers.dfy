/** JavaScript numbers, idealised: a finite value is an exact real, and the
    three non-finite IEEE-754 values are kept as separate constructors so
    that the calculator's `isFinite`/`isNaN` guards can be modelled. */
module Numbers {

  datatype Num = Finite(value: real) | NaN | PosInf | NegInf

  /** The global `isFinite` on a value that is already a number. */
  predicate IsFinite(x: Num) {
    x.Finite?
  }

  /** The guard every entry point of the numeric layer applies:
      finite and strictly positive. */
  predicate PositiveFinite(x: Num) {
    x.Finite? && x.value > 0.0
  }

  /** JavaScript `x < c` for a number `x` and a finite constant `c`:
      false whenever `x` is NaN. */
  predicate LessThan(x: Num, c: real) {
    match x
    case Finite(v) => v < c
    case NaN => false
    case PosInf => false
    case NegInf => true
  }

  /** Every element passes the `PositiveFinite` guard. */
  ghost predicate AllPositiveFinite(xs: seq<Num>) {
    forall i :: 0 <= i < |xs| ==> PositiveFinite(xs[i])
  }
}
