/** The circuit engine of the series-RLC calculator: reactances, impedance,
    resonance figures, the log-spaced frequency sweep and the half-power
    band edges. Every entry point first passes its arguments through the
    positive-number guard; a thrown error is a `Failure`. */
module MathCore {
  import opened Wrappers
  import opened Numbers
  import opened Analysis

  /** The four distinct `Error`s the engine throws, plus the `RangeError`
      the runtime raises for a negative array length. */
  datatype CoreError =
    | NotPositive        // the positive-number guard rejected an argument
    | DegenerateCircuit  // the defensive check at the end of the resonance calculation
    | BadSweepRange      // the sweep's upper bound does not exceed its lower bound
    | BadArrayLength     // the sample count is negative
    | DegenerateBand     // the defensive check at the end of the band calculation

  /** The message text of each error. */
  function CoreMessage(e: CoreError): string {
    match e
    case NotPositive => "입력이 유효한 양의 실수가 아닙니다."
    case DegenerateCircuit => "계산 실패: 비정상 파라미터."
    case BadSweepRange => "스윕 범위가 잘못되었습니다."
    case BadArrayLength => "Invalid array length"
    case DegenerateBand => "대역 계산 실패."
  }

  /** Everything the resonance calculation reports (ohms, hertz, or no unit). */
  datatype Resonance = Resonance(xl: real, xc: real, z: real, f0: real, q: real, bw: real, zeta: real)

  /** A sweep of the impedance magnitude: `mag[i]` belongs to `f[i]`. */
  datatype MagSweep = MagSweep(f: seq<real>, mag: seq<real>)

  /** A sweep of the current magnitude: `cur[i]` belongs to `f[i]`. */
  datatype CurrentSweep = CurrentSweep(f: seq<real>, cur: seq<real>)

  /** The half-power frequencies of the resonance. */
  datatype Band = Band(f1: real, f2: real)

  /** The guard: walks the arguments in order and passes only when every
      one is finite and strictly positive. */
  function AssertPositiveNumbers(vals: seq<Num>): (ok: bool)
    ensures ok <==> AllPositiveFinite(vals)
  {
    if |vals| == 0 then true
    else PositiveFinite(vals[0]) && AssertPositiveNumbers(vals[1..])
  }

  /** Angular frequency of a frequency in hertz. */
  function Omega(f: real): real {
    2.0 * PI * f
  }

  /** The impedance magnitude of the series circuit at frequency `f`:
      the hypotenuse of the resistance and the net reactance. */
  function Impedance(m: Functions, r: real, l: real, c: real, f: real): (z: real)
    requires Lawful(m)
    requires r > 0.0 && l > 0.0 && c > 0.0 && f > 0.0
    ensures z >= r
    ensures z * z == r * r + (Omega(f) * l - 1.0 / (Omega(f) * c)) * (Omega(f) * l - 1.0 / (Omega(f) * c))
  {
    HypotAtLeastLeg(m, r, Omega(f) * l - 1.0 / (Omega(f) * c));
    Hypot(m, r, Omega(f) * l - 1.0 / (Omega(f) * c))
  }

  /** The reactances and the impedance at the driving frequency F:
      XL = wL and XC = 1/(wC) with w = 2 pi F, |Z|^2 = R^2 + (XL - XC)^2
      and |Z| >= R. */
  ghost predicate ReactanceFigures(R: real, L: real, C: real, F: real, x: Resonance) {
    var w := Omega(F);
    && x.xl == w * L
    && x.xc * (w * C) == 1.0
    && x.z * x.z == R * R + (x.xl - x.xc) * (x.xl - x.xc)
    && x.z >= R
  }

  /** The resonant frequency: f0 > 0 and (2 pi f0)^2 LC = 1. */
  ghost predicate ResonanceFigures(L: real, C: real, x: Resonance) {
    && x.f0 > 0.0
    && Omega(x.f0) * Omega(x.f0) * (L * C) == 1.0
  }

  /** The quality factor: Q > 0 and Q R = 2 pi f0 L, the inductive
      reactance at resonance over the resistance. */
  ghost predicate QualityFigures(R: real, L: real, x: Resonance) {
    && x.q > 0.0
    && x.q * R == Omega(x.f0) * L
  }

  /** The figures derived from Q: BW = f0 / Q and zeta = 1 / (2Q). */
  ghost predicate DerivedFigures(x: Resonance) {
    && x.bw * x.q == x.f0
    && 2.0 * x.q * x.zeta == 1.0
  }

  /** The textbook identities of a series RLC circuit driven at frequency F,
      as the resonance calculation reports them. */
  ghost predicate SeriesRlcFigures(R: real, L: real, C: real, F: real, x: Resonance) {
    && ReactanceFigures(R, L, C, F, x)
    && ResonanceFigures(L, C, x)
    && QualityFigures(R, L, x)
    && DerivedFigures(x)
  }

  /** The resonance calculation. It succeeds exactly when all four
      arguments are finite and positive; the defensive check on Z, f0 and
      Q that follows the formulas never fires over the reals. On success the
      figures obey the textbook identities of a series RLC circuit. */
  function CalcCore(m: Functions, r: Num, l: Num, c: Num, f: Num): (res: Result<Resonance, CoreError>)
    requires Lawful(m)
    ensures res.Success? <==> PositiveFinite(r) && PositiveFinite(l) && PositiveFinite(c) && PositiveFinite(f)
    ensures res.Failure? ==> res.error == NotPositive
    ensures res.Success? ==> SeriesRlcFigures(r.value, l.value, c.value, f.value, res.value)
  {
    var args := [r, l, c, f];
    assert args[0] == r && args[1] == l && args[2] == c && args[3] == f;
    if !AssertPositiveNumbers(args) then Failure(NotPositive)
    else
      var R, L, C, F := r.value, l.value, c.value, f.value;
      var w := Omega(F);
      var xl := w * L;
      var xc := 1.0 / (w * C);
      var z := Impedance(m, R, L, C, F);
      var s := m.sqrt(L * C);
      SqrtPositive(m, L * C);
      var f0 := 1.0 / (2.0 * PI * s);
      var k := m.sqrt(L / C);
      SqrtPositive(m, L / C);
      var q := (1.0 / R) * k;
      var bw := f0 / q;
      var zeta := 1.0 / (2.0 * q);
      ResonanceIdentities(R, L, C, F, s, k, Resonance(xl, xc, z, f0, q, bw, zeta));
      if q <= 0.0 then Failure(DegenerateCircuit)
      else Success(Resonance(xl, xc, z, f0, q, bw, zeta))
  }

  /** Dividing and multiplying back by the same non-zero number. */
  lemma QuotientTimesDivisor(a: real, b: real)
    requires b != 0.0
    ensures (a / b) * b == a && b * (a / b) == a
  {
  }

  /** The algebra behind the resonance identities, with the two square
      roots given by their defining equations. */
  lemma ResonanceIdentities(R: real, L: real, C: real, F: real, s: real, k: real, x: Resonance)
    requires L > 0.0 && C > 0.0 && R > 0.0 && F > 0.0
    requires s > 0.0 && s * s == L * C
    requires k > 0.0 && k * k == L / C
    requires x.xl == Omega(F) * L && x.xc == 1.0 / (Omega(F) * C)
    requires x.z >= R && x.z * x.z == R * R + (x.xl - x.xc) * (x.xl - x.xc)
    requires x.f0 == 1.0 / (2.0 * PI * s)
    requires x.q == (1.0 / R) * k
    requires x.bw == x.f0 / x.q && x.zeta == 1.0 / (2.0 * x.q)
    ensures SeriesRlcFigures(R, L, C, F, x)
  {
    ReactanceIdentities(R, L, C, F, x);
    ResonantOmega(L, C, s, x);
    QualityIdentities(R, L, C, s, k, x);
    DerivedIdentities(x);
  }

  /** Q = (1/R) sqrt(L/C), given the root s of LC with 2 pi f0 s = 1. */
  lemma QualityIdentities(R: real, L: real, C: real, s: real, k: real, x: Resonance)
    requires L > 0.0 && C > 0.0 && R > 0.0
    requires s > 0.0 && s * s == L * C
    requires k > 0.0 && k * k == L / C
    requires Omega(x.f0) * s == 1.0
    requires x.q == (1.0 / R) * k
    ensures QualityFigures(R, L, x)
  {
    SqrtProduct(L, C, s, k);
    QualityFactor(R, L, s, k, Omega(x.f0), x.q);
  }

  /** XC = 1/(wC) is the number whose product with wC is one. */
  lemma ReactanceIdentities(R: real, L: real, C: real, F: real, x: Resonance)
    requires C > 0.0 && F > 0.0
    requires x.xl == Omega(F) * L && x.xc == 1.0 / (Omega(F) * C)
    requires x.z >= R && x.z * x.z == R * R + (x.xl - x.xc) * (x.xl - x.xc)
    ensures ReactanceFigures(R, L, C, F, x)
  {
    QuotientTimesDivisor(1.0, Omega(F) * C);
  }

  /** BW = f0/Q and zeta = 1/(2Q) undone by multiplying back. */
  lemma DerivedIdentities(x: Resonance)
    requires x.q > 0.0
    requires x.bw == x.f0 / x.q && x.zeta == 1.0 / (2.0 * x.q)
    ensures DerivedFigures(x)
  {
    QuotientTimesDivisor(x.f0, x.q);
    QuotientTimesDivisor(1.0, 2.0 * x.q);
  }

  /** Q = (1/R) sqrt(L/C) is the inductive reactance at resonance over R. */
  lemma QualityFactor(R: real, L: real, s: real, k: real, w0: real, q: real)
    requires R > 0.0 && k > 0.0
    requires w0 * s == 1.0 && k * s == L
    requires q == (1.0 / R) * k
    ensures q > 0.0
    ensures q * R == w0 * L
  {
    assert w0 * L == k * (w0 * s);
  }

  /** f0 = 1 / (2 pi sqrt(LC)) is the frequency whose angular frequency
      w0 satisfies w0^2 LC = 1. */
  lemma ResonantOmega(L: real, C: real, s: real, x: Resonance)
    requires s > 0.0 && s * s == L * C
    requires x.f0 == 1.0 / (2.0 * PI * s)
    ensures Omega(x.f0) * s == 1.0
    ensures ResonanceFigures(L, C, x)
  {
    var w0 := Omega(x.f0);
    assert w0 * s == 1.0;
    SquareOfProduct(w0, s);
  }

  /** The roots of L*C and L/C multiply to L. */
  lemma SqrtProduct(L: real, C: real, s: real, k: real)
    requires L > 0.0 && C > 0.0
    requires s > 0.0 && s * s == L * C
    requires k > 0.0 && k * k == L / C
    ensures k * s == L
  {
    var p := k * s;
    SquareOfProduct(k, s);
    assert (L / C) * (L * C) == L * L;
    if p < L {
      SquareStrict(p, L);
    } else if p > L {
      SquareStrict(L, p);
    }
  }

  /** Reactance cancels at the resonant frequency: a circuit evaluated at
      its own f0 has XL equal to XC and an impedance equal to R. */
  lemma AtResonance(m: Functions, r: Num, l: Num, c: Num, f: Num)
    requires Lawful(m)
    requires CalcCore(m, r, l, c, f).Success?
    ensures var again := CalcCore(m, r, l, c, Finite(CalcCore(m, r, l, c, f).value.f0));
      && again.Success?
      && again.value.xl == again.value.xc
      && again.value.z == r.value
  {
    var first := CalcCore(m, r, l, c, f).value;
    var again := CalcCore(m, r, l, c, Finite(first.f0));
    FiguresAtOwnResonance(r.value, l.value, c.value, first, again.value);
  }

  /** The algebra of the round trip: figures computed at the resonant
      frequency of an earlier computation on the same circuit. */
  lemma FiguresAtOwnResonance(R: real, L: real, C: real, first: Resonance, x: Resonance)
    requires R > 0.0 && L > 0.0 && C > 0.0
    requires ResonanceFigures(L, C, first)
    requires ReactanceFigures(R, L, C, first.f0, x)
    ensures x.xl == x.xc && x.z == R
  {
    var w0 := Omega(first.f0);
    ReactancesCancel(w0, L, C, x.xl, x.xc);
    MagnitudeOfResistance(R, x.z);
  }

  /** At the angular frequency w0 with w0^2 * L * C = 1 the inductive and
      capacitive reactances are equal. */
  lemma ReactancesCancel(w0: real, L: real, C: real, xl: real, xc: real)
    requires w0 > 0.0 && L > 0.0 && C > 0.0
    requires w0 * w0 * (L * C) == 1.0
    requires xl == w0 * L && xc * (w0 * C) == 1.0
    ensures xl == xc
  {
    var k := w0 * C;
    assert xl * k == 1.0;
    assert (xl - xc) * k == 0.0;
  }

  /** A non-negative magnitude whose square is R^2 is R. */
  lemma MagnitudeOfResistance(r: real, z: real)
    requires r > 0.0 && z >= r
    requires z * z == r * r
    ensures z == r
  {
    if z > r {
      SquareStrict(r, z);
    }
  }

  /** The i-th of n frequencies spaced evenly in log10 between `fMin` and
      `fMax`: the exponent moves from log10(fMin) to log10(fMax) in n - 1
      equal steps. */
  function SweepFrequency(m: Functions, fMin: real, fMax: real, n: int, i: int): (fi: real)
    requires Lawful(m)
    requires 0.0 < fMin < fMax
    requires n >= 2 && 0 <= i < n
    ensures fMin <= fi <= fMax
    ensures i == 0 ==> fi == fMin
    ensures i == n - 1 ==> fi == fMax
    ensures m.log10(fi) == m.log10(fMin) + (i as real / (n - 1) as real) * (m.log10(fMax) - m.log10(fMin))
  {
    var lo, hi := m.log10(fMin), m.log10(fMax);
    var t := i as real / (n - 1) as real;
    SweepExponentBounds(m, fMin, fMax, t);
    Log10OfPow10(m, lo + t * (hi - lo));
    m.pow10(lo + t * (hi - lo))
  }

  /** `log10` is strictly increasing on the positive reals, a consequence
      of `pow10` being strictly increasing and undoing it. */
  lemma Log10Increasing(m: Functions, x: real, y: real)
    requires Lawful(m)
    requires 0.0 < x < y
    ensures m.log10(x) < m.log10(y)
  {
  }

  /** For a fraction `t` of the way in log scale, the sampled frequency
      lies between the bounds, and meets them at `t = 0` and `t = 1`. */
  lemma SweepExponentBounds(m: Functions, fMin: real, fMax: real, t: real)
    requires Lawful(m)
    requires 0.0 < fMin < fMax
    requires 0.0 <= t <= 1.0
    ensures var lo, hi := m.log10(fMin), m.log10(fMax);
      && fMin <= m.pow10(lo + t * (hi - lo)) <= fMax
      && (t == 0.0 ==> m.pow10(lo + t * (hi - lo)) == fMin)
      && (t == 1.0 ==> m.pow10(lo + t * (hi - lo)) == fMax)
  {
    var lo, hi := m.log10(fMin), m.log10(fMax);
    Log10Increasing(m, fMin, fMax);
    var d := hi - lo;
    var e := lo + t * d;
    assert t * d <= d by {
      assert (1.0 - t) * d >= 0.0;
    }
    if e > lo {
      assert m.pow10(lo) < m.pow10(e);
    }
    if e < hi {
      assert m.pow10(e) < m.pow10(hi);
    }
  }

  /** The sweep's guard on its five numeric arguments. */
  predicate SweepArgsPositive(r: Num, l: Num, c: Num, fMin: Num, fMax: Num) {
    PositiveFinite(r) && PositiveFinite(l) && PositiveFinite(c) && PositiveFinite(fMin) && PositiveFinite(fMax)
  }

  /** The sweep: n samples of |Z| on a log-spaced axis from `fMin` to
      `fMax` inclusive. The guard runs first, then the range check, then the
      array allocation, which rejects a negative length. A single sample
      divides zero by zero in the source; the model excludes that count. */
  function SweepMag(m: Functions, r: Num, l: Num, c: Num, fMin: Num, fMax: Num, n: int): (res: Result<MagSweep, CoreError>)
    requires Lawful(m)
    requires n != 1
    ensures !SweepArgsPositive(r, l, c, fMin, fMax) ==> res == Failure(NotPositive)
    ensures SweepArgsPositive(r, l, c, fMin, fMax) && fMax.value <= fMin.value ==> res == Failure(BadSweepRange)
    ensures SweepArgsPositive(r, l, c, fMin, fMax) && fMin.value < fMax.value && n < 0 ==> res == Failure(BadArrayLength)
    ensures res.Success? <==> SweepArgsPositive(r, l, c, fMin, fMax) && fMin.value < fMax.value && n >= 0
    ensures res.Success? ==>
      && |res.value.f| == n && |res.value.mag| == n
      && forall i :: 0 <= i < n ==>
           && fMin.value <= res.value.f[i] <= fMax.value
           && res.value.f[i] == SweepFrequency(m, fMin.value, fMax.value, n, i)
           && res.value.mag[i] == Impedance(m, r.value, l.value, c.value, res.value.f[i])
           && res.value.mag[i] >= r.value
  {
    var args := [r, l, c, fMin, fMax];
    assert args[0] == r && args[1] == l && args[2] == c && args[3] == fMin && args[4] == fMax;
    if !AssertPositiveNumbers(args) then Failure(NotPositive)
    else if fMax.value <= fMin.value then Failure(BadSweepRange)
    else if n < 0 then Failure(BadArrayLength)
    else
      var R, L, C, lo, hi := r.value, l.value, c.value, fMin.value, fMax.value;
      var f := seq(n, i requires 0 <= i < n => SweepFrequency(m, lo, hi, n, i));
      var mag := seq(n, i requires 0 <= i < n => Impedance(m, R, L, C, f[i]));
      Success(MagSweep(f, mag))
  }

  /** The swept frequencies start at `fMin`, end at `fMax` and strictly
      increase in between. */
  lemma SweepMagIncreasing(m: Functions, r: Num, l: Num, c: Num, fMin: Num, fMax: Num, n: int)
    requires Lawful(m)
    requires n >= 2
    requires SweepMag(m, r, l, c, fMin, fMax, n).Success?
    ensures var f := SweepMag(m, r, l, c, fMin, fMax, n).value.f;
      && f[0] == fMin.value
      && f[n - 1] == fMax.value
      && forall i, j :: 0 <= i < j < n ==> f[i] < f[j]
  {
    var f := SweepMag(m, r, l, c, fMin, fMax, n).value.f;
    forall i, j | 0 <= i < j < n
      ensures f[i] < f[j]
    {
      SweepFrequencyIncreasing(m, fMin.value, fMax.value, n, i, j);
    }
  }

  /** Later samples have higher frequencies. */
  lemma SweepFrequencyIncreasing(m: Functions, fMin: real, fMax: real, n: int, i: int, j: int)
    requires Lawful(m)
    requires 0.0 < fMin < fMax
    requires n >= 2 && 0 <= i < j < n
    ensures SweepFrequency(m, fMin, fMax, n, i) < SweepFrequency(m, fMin, fMax, n, j)
  {
    var lo, hi := m.log10(fMin), m.log10(fMax);
    Log10Increasing(m, fMin, fMax);
    var k := (n - 1) as real;
    var ti, tj := i as real / k, j as real / k;
    assert ti < tj by {
      assert ti * k == i as real;
      assert tj * k == j as real;
    }
    var d := hi - lo;
    assert ti * d < tj * d by {
      assert (tj - ti) * d > 0.0;
    }
  }

  /** The current sweep: the impedance sweep with each |Z| turned into the
      current magnitude Vin / |Z|. */
  function SweepI(m: Functions, r: Num, l: Num, c: Num, fMin: Num, fMax: Num, n: int, vin: real): (res: Result<CurrentSweep, CoreError>)
    requires Lawful(m)
    requires n != 1
    ensures var z := SweepMag(m, r, l, c, fMin, fMax, n);
      && (res.Success? <==> z.Success?)
      && (res.Failure? ==> res.error == z.error)
      && (res.Success? ==>
            && res.value.f == z.value.f
            && |res.value.cur| == |res.value.f|
            && forall i :: 0 <= i < |res.value.cur| ==>
                 && res.value.cur[i] * z.value.mag[i] == vin
                 && (vin >= 0.0 ==> 0.0 <= res.value.cur[i] <= vin / r.value))
  {
    match SweepMag(m, r, l, c, fMin, fMax, n)
    case Failure(e) => Failure(e)
    case Success(s) =>
      var cur := seq(|s.mag|, i requires 0 <= i < |s.mag| => vin / s.mag[i]);
      assert forall i :: 0 <= i < |cur| ==> vin >= 0.0 ==> cur[i] <= vin / r.value by {
        forall i | 0 <= i < |cur| && vin >= 0.0 {
          CurrentBound(vin, r.value, s.mag[i]);
        }
      }
      Success(CurrentSweep(s.f, cur))
  }

  /** A larger impedance draws a smaller current. */
  lemma CurrentBound(vin: real, r: real, z: real)
    requires vin >= 0.0 && 0.0 < r <= z
    ensures 0.0 <= vin / z <= vin / r
  {
    var a, b := vin / z, vin / r;
    assert a * z == vin && b * r == vin;
  }

  /** The half-power band edges. The closed form
      w1,2 = w0 * (sqrt(1 + 1/(4Q^2)) -/+ 1/(2Q)) always yields
      0 < f1 < f0 < f2, so the defensive check never fires: the band is
      computed exactly when Q and f0 are finite and positive. Its width is
      f0 / Q and f0 is the geometric mean of the edges. */
  function ComputeBand(m: Functions, q: Num, f0: Num): (res: Result<Band, CoreError>)
    requires Lawful(m)
    ensures res.Success? <==> PositiveFinite(q) && PositiveFinite(f0)
    ensures res.Failure? ==> res.error == NotPositive
    ensures res.Success? ==>
      && 0.0 < res.value.f1 < f0.value < res.value.f2
      && res.value.f2 - res.value.f1 == f0.value / q.value
      && res.value.f1 * res.value.f2 == f0.value * f0.value
  {
    var args := [q, f0];
    assert args[0] == q && args[1] == f0;
    if !AssertPositiveNumbers(args) then Failure(NotPositive)
    else
      var Q, F0 := q.value, f0.value;
      var w0 := Omega(F0);
      var a := 1.0 / (2.0 * Q);
      var term := m.sqrt(1.0 + 1.0 / (4.0 * Q * Q));
      var w1 := w0 * (term - a);
      var w2 := w0 * (term + a);
      var f1 := w1 / (2.0 * PI);
      var f2 := w2 / (2.0 * PI);
      BandIdentities(Q, F0, a, term, f1, f2);
      if f1 <= 0.0 || f2 <= f1 then Failure(DegenerateBand)
      else Success(Band(f1, f2))
  }

  /** The algebra behind the band edges, with the square root given by its
      defining equation. */
  lemma BandIdentities(Q: real, F0: real, a: real, term: real, f1: real, f2: real)
    requires Q > 0.0 && F0 > 0.0
    requires a == 1.0 / (2.0 * Q)
    requires term >= 0.0 && term * term == 1.0 + 1.0 / (4.0 * Q * Q)
    requires f1 == Omega(F0) * (term - a) / (2.0 * PI)
    requires f2 == Omega(F0) * (term + a) / (2.0 * PI)
    ensures 0.0 < f1 < F0 < f2
    ensures f2 - f1 == F0 / Q
    ensures f1 * f2 == F0 * F0
  {
    assert f1 == F0 * (term - a);
    assert f2 == F0 * (term + a);
    assert a > 0.0;
    assert term * term == 1.0 + a * a;
    if term <= a {
      SquareLe(term, a);
    }
    assert term > a;
    if term <= 1.0 {
      SquareLe(term, 1.0);
    }
    assert term > 1.0;
    assert term < 1.0 + a by {
      if term >= 1.0 + a {
        SquareLe(1.0 + a, term);
      }
    }
    var lo, hi := term - a, term + a;
    assert lo > 0.0 && lo < 1.0 && hi > 1.0;
    assert F0 * lo < F0 && F0 < F0 * hi;
    assert lo * hi == 1.0;
    assert f1 * f2 == (F0 * F0) * (lo * hi);
    assert hi - lo == 2.0 * a;
    assert f2 - f1 == F0 * (2.0 * a);
  }

  /** Squaring is monotone on the non-negative reals. */
  lemma SquareLe(x: real, y: real)
    requires 0.0 <= x <= y
    ensures x * x <= y * y
  {
    if x < y {
      SquareStrict(x, y);
    }
  }
}
