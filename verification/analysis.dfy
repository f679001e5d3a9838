/** The transcendental operations the calculator borrows from `Math`.
    They cannot be computed over exact reals, so they are a parameter of
    the model: any record of functions satisfying `Lawful` may stand for
    `Math.sqrt`, `Math.log10` and `Math.pow(10, x)`. */
module Analysis {

  datatype Functions = Functions(sqrt: real -> real, log10: real -> real, pow10: real -> real)

  /** The laws the model relies on: `sqrt` is the non-negative square root,
      `pow10` undoes `log10` on positive arguments and is strictly increasing. */
  ghost predicate Lawful(m: Functions) {
    && (forall x :: x >= 0.0 ==> m.sqrt(x) >= 0.0 && m.sqrt(x) * m.sqrt(x) == x)
    && (forall x :: x > 0.0 ==> m.pow10(m.log10(x)) == x)
    && (forall a, b :: a < b ==> m.pow10(a) < m.pow10(b))
  }

  /** `Math.PI`, the double nearest to pi written out to 16 digits. */
  const PI: real := 3.141592653589793

  /** `Math.hypot(a, b)`: the length of the vector (a, b). */
  function Hypot(m: Functions, a: real, b: real): (h: real)
    requires Lawful(m)
    ensures h >= 0.0 && h * h == a * a + b * b
  {
    m.sqrt(a * a + b * b)
  }

  /** Squaring is strictly increasing on the non-negative reals. */
  lemma SquareStrict(x: real, y: real)
    requires 0.0 <= x < y
    ensures x * x < y * y
  {
    var p, q, r := x * x, x * y, y * y;
    assert p <= q;
    assert q < r;
  }

  /** The square of a product is the product of the squares. */
  lemma SquareOfProduct(a: real, b: real)
    ensures (a * b) * (a * b) == (a * a) * (b * b)
  {
  }

  /** The hypotenuse is at least as long as either leg. */
  lemma HypotAtLeastLeg(m: Functions, a: real, b: real)
    requires Lawful(m)
    requires a >= 0.0
    ensures Hypot(m, a, b) >= a
  {
    var h := Hypot(m, a, b);
    if h < a {
      SquareStrict(h, a);
    }
  }

  /** `log10` undoes `pow10` wherever the power is positive: `pow10` is
      strictly increasing, hence one-to-one, and undoes `log10`. */
  lemma Log10OfPow10(m: Functions, e: real)
    requires Lawful(m)
    requires m.pow10(e) > 0.0
    ensures m.log10(m.pow10(e)) == e
  {
    var l := m.log10(m.pow10(e));
    assert m.pow10(l) == m.pow10(e);
  }

  /** Reading the square root's law back: a positive argument has a positive root. */
  lemma SqrtPositive(m: Functions, x: real)
    requires Lawful(m)
    requires x > 0.0
    ensures m.sqrt(x) > 0.0
  {
    assert m.sqrt(x) * m.sqrt(x) == x;
  }
}
