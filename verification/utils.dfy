/** The helpers of the calculator: trailing-zero trimming and superscript
    digits for number display, the choice of display form, form validation
    and sweep-range repair. Strings are sequences of characters; the
    numbers they come from are already coerced. */
module Utils {
  import opened Wrappers
  import opened Numbers

  // ---------------------------------------------------------------------
  // trimZeros

  /** Every character of `t` is the digit zero. */
  predicate AllZeros(t: string) {
    forall i :: 0 <= i < |t| ==> t[i] == '0'
  }

  /** `t` is a whole match of the pattern `\.?0+` anchored at the end:
      one or more zeros, optionally preceded by a single dot. */
  predicate TrailingZerosMatch(t: string) {
    || (|t| >= 1 && AllZeros(t))
    || (|t| >= 2 && t[0] == '.' && AllZeros(t[1..]))
  }

  /** The length of the longest run of zeros that ends the string. */
  function ZeroRun(s: string): (k: nat)
    ensures k <= |s|
    ensures AllZeros(s[|s| - k..])
    ensures k < |s| ==> s[|s| - k - 1] != '0'
  {
    if |s| > 0 && s[|s| - 1] == '0' then
      var j := ZeroRun(s[..|s| - 1]);
      AllZerosExtend(s, j);
      j + 1
    else 0
  }

  /** A run of zeros ending just before a final zero extends through it. */
  lemma AllZerosExtend(s: string, j: nat)
    requires |s| > 0 && s[|s| - 1] == '0'
    requires j < |s| && AllZeros(s[..|s| - 1][|s| - 1 - j..])
    ensures AllZeros(s[|s| - 1 - j..])
  {
    var t, u := s[|s| - 1 - j..], s[..|s| - 1][|s| - 1 - j..];
    forall i | 0 <= i < |t|
      ensures t[i] == '0'
    {
      if i < j {
        assert t[i] == u[i];
      }
    }
  }

  /** Display trimming: a string without a dot is returned as it is;
      otherwise the leftmost match of `\.?0+` that reaches the end of the
      string is removed, which is the maximal run of trailing zeros together
      with the dot right before it, if there is one. */
  function TrimZeros(s: string): (r: string)
    ensures r <= s
    ensures '.' !in s ==> r == s
    ensures '.' in s && r != s ==>
      && TrailingZerosMatch(s[|r|..])
      && forall p :: 0 <= p < |r| ==> !TrailingZerosMatch(s[p..])
    ensures r == s ==> '.' !in s || forall p :: 0 <= p < |s| ==> !TrailingZerosMatch(s[p..])
  {
    if '.' !in s then s
    else
      var k := ZeroRun(s);
      if k == 0 then
        NoMatchWithoutTrailingZero(s);
        s
      else if k < |s| && s[|s| - k - 1] == '.' then
        var q := |s| - k - 1;
        assert s[q + 1..] == s[|s| - k..];
        NoEarlierMatchPastDot(s, q);
        s[..q]
      else
        var q := |s| - k;
        NoEarlierMatchPastNonZero(s, q);
        s[..q]
  }

  /** A match ends with a zero, so a string that does not end with a zero
      contains no match at its end. */
  lemma NoMatchWithoutTrailingZero(s: string)
    requires |s| == 0 || s[|s| - 1] != '0'
    ensures forall p :: 0 <= p < |s| ==> !TrailingZerosMatch(s[p..])
  {
    forall p | 0 <= p < |s|
      ensures !TrailingZerosMatch(s[p..])
    {
      var t := s[p..];
      assert t[|t| - 1] == s[|s| - 1];
      if |t| >= 2 {
        assert t[1..][|t| - 2] == s[|s| - 1];
      }
    }
  }

  /** No match starts before a dot that is itself followed only by zeros. */
  lemma NoEarlierMatchPastDot(s: string, q: nat)
    requires q < |s| && s[q] == '.'
    ensures forall p :: 0 <= p < q ==> !TrailingZerosMatch(s[p..])
  {
    forall p | 0 <= p < q
      ensures !TrailingZerosMatch(s[p..])
    {
      var t := s[p..];
      assert t[q - p] == '.';
      if |t| >= 2 {
        assert t[1..][q - p - 1] == '.';
      }
    }
  }

  /** No match starts at or before a character that is neither a zero nor a dot. */
  lemma NoEarlierMatchPastNonZero(s: string, q: nat)
    requires 0 < q <= |s| && s[q - 1] != '0' && s[q - 1] != '.'
    ensures forall p :: 0 <= p < q ==> !TrailingZerosMatch(s[p..])
  {
    forall p | 0 <= p < q
      ensures !TrailingZerosMatch(s[p..])
    {
      var t := s[p..];
      assert t[q - 1 - p] == s[q - 1];
      if |t| >= 2 && q - 1 - p >= 1 {
        assert t[1..][q - 2 - p] == s[q - 1];
      }
    }
  }

  /** On a string with exactly one dot, as every fixed-point rendering has,
      trimming twice is trimming once. */
  lemma {:induction false} TrimZerosIdempotent(s: string)
    requires multiset(s)['.'] == 1
    ensures TrimZeros(TrimZeros(s)) == TrimZeros(s)
  {
    assert s[|s| - 1 - (|s| - 1)] == s[0];
    var k := ZeroRun(s);
    assert '.' in s by {
      assert '.' in multiset(s);
    }
    if k == 0 {
    } else if k < |s| && s[|s| - k - 1] == '.' {
      var q := |s| - k - 1;
      assert s == s[..q] + [s[q]] + s[q + 1..];
      assert multiset(s) == multiset(s[..q]) + multiset([s[q]]) + multiset(s[q + 1..]);
      assert '.' !in s[..q] by {
        assert multiset(s[..q])['.'] == 0;
      }
    } else {
      var q := |s| - k;
      var r := s[..q];
      assert r[|r| - 1] == s[q - 1];
      assert ZeroRun(r) == 0;
    }
  }

  // ---------------------------------------------------------------------
  // toSuperscript

  /** The lookup table, with a character that has no entry left as it is.
      The entry for '+' is the empty string, which is not nullish, so a plus
      sign disappears rather than falling back to itself. */
  function SuperscriptOf(ch: char): (t: string)
    ensures |t| == (if ch == '+' then 0 else 1)
  {
    match ch
    case '0' => "\U{2070}"
    case '1' => "\U{00B9}"
    case '2' => "\U{00B2}"
    case '3' => "\U{00B3}"
    case '4' => "\U{2074}"
    case '5' => "\U{2075}"
    case '6' => "\U{2076}"
    case '7' => "\U{2077}"
    case '8' => "\U{2078}"
    case '9' => "\U{2079}"
    case '-' => "\U{207B}"
    case '+' => ""
    case _ => [ch]
  }

  /** The superscript form of one character other than '+'. */
  function Raised(ch: char): char {
    if ch == '+' then ch else SuperscriptOf(ch)[0]
  }

  /** The string with every plus sign removed: the same characters other
      than '+', as many times each, in the same order (the order is what
      `DropPlusAppend` pins down). */
  function DropPlus(s: string): (d: string)
    ensures |d| == |s| - multiset(s)['+']
    ensures '+' !in d
    ensures multiset(d) == multiset(s)['+' := 0]
    ensures '+' !in s ==> d == s
  {
    if |s| == 0 then ""
    else
      assert s == [s[0]] + s[1..];
      (if s[0] == '+' then "" else [s[0]]) + DropPlus(s[1..])
  }

  /** Removing plus signs distributes over concatenation, so the characters
      that remain keep their relative order. */
  lemma {:induction false} DropPlusAppend(a: string, b: string)
    ensures DropPlus(a + b) == DropPlus(a) + DropPlus(b)
  {
    if |a| == 0 {
      assert a + b == b;
    } else {
      assert (a + b)[1..] == a[1..] + b;
      DropPlusAppend(a[1..], b);
    }
  }

  /** Character-by-character translation: the output is the input with
      plus signs removed and every remaining character raised, so its length
      is the input's length less the number of plus signs. */
  function ToSuperscript(s: string): (r: string)
    ensures |r| == |s| - multiset(s)['+']
    ensures |r| == |DropPlus(s)|
    ensures forall i :: 0 <= i < |r| ==> r[i] == Raised(DropPlus(s)[i])
  {
    if |s| == 0 then ""
    else
      var rest := ToSuperscript(s[1..]);
      ToSuperscriptStep(s, rest);
      SuperscriptOf(s[0]) + rest
  }

  /** Translating one more leading character, given the translation of the
      rest. */
  lemma ToSuperscriptStep(s: string, rest: string)
    requires |s| > 0
    requires |rest| == |DropPlus(s[1..])|
    requires forall i :: 0 <= i < |rest| ==> rest[i] == Raised(DropPlus(s[1..])[i])
    ensures |SuperscriptOf(s[0]) + rest| == |DropPlus(s)|
    ensures forall i :: 0 <= i < |DropPlus(s)| ==> (SuperscriptOf(s[0]) + rest)[i] == Raised(DropPlus(s)[i])
  {
    var head := if s[0] == '+' then "" else [s[0]];
    assert DropPlus(s) == head + DropPlus(s[1..]);
  }

  /** The translation distributes over concatenation, as a map over
      characters must. */
  lemma {:induction false} ToSuperscriptAppend(a: string, b: string)
    ensures ToSuperscript(a + b) == ToSuperscript(a) + ToSuperscript(b)
  {
    if |a| == 0 {
      assert a + b == b;
    } else {
      assert (a + b)[1..] == a[1..] + b;
      ToSuperscriptAppend(a[1..], b);
    }
  }

  // ---------------------------------------------------------------------
  // fmt / fmtSup: choice of display form

  /** The four shapes a formatted number can take. */
  datatype DisplayForm = Dash | Zero | Scientific | Fixed

  function Abs(x: real): real {
    if x < 0.0 then -x else x
  }

  /** The branch both display formatters take: a dash for a non-finite
      number, "0" for zero, scientific notation for magnitudes of 1000 and
      up or below 0.01, fixed-point for everything else. */
  function FormOf(x: Num): (form: DisplayForm)
    ensures form == Dash <==> !x.Finite?
    ensures form == Zero <==> x == Finite(0.0)
    ensures form == Fixed <==> x.Finite? && 0.01 <= Abs(x.value) < 1000.0
    ensures form == Scientific <==> x.Finite? && x.value != 0.0 && !(0.01 <= Abs(x.value) < 1000.0)
  {
    if !IsFinite(x) then Dash
    else
      var ax := Abs(x.value);
      if ax == 0.0 then Zero
      else if ax >= 1000.0 || (ax > 0.0 && ax < 0.01) then Scientific
      else Fixed
  }

  /** The form depends only on the magnitude. */
  lemma FormOfNegation(v: real)
    ensures FormOf(Finite(-v)) == FormOf(Finite(v))
  {
  }

  // ---------------------------------------------------------------------
  // parseAndValidate

  /** The five form fields, in the order they are checked. */
  datatype Field = Resistance | Inductance | Capacitance | Frequency | SourceVoltage

  /** The key the error message starts with. */
  function Key(fld: Field): string {
    match fld
    case Resistance => "R"
    case Inductance => "L"
    case Capacitance => "C"
    case Frequency => "f"
    case SourceVoltage => "Vin"
  }

  /** Position of a field in the checking order. */
  function Rank(fld: Field): nat {
    match fld
    case Resistance => 0
    case Inductance => 1
    case Capacitance => 2
    case Frequency => 3
    case SourceVoltage => 4
  }

  /** The form's values after numeric coercion. */
  datatype RawInputs = RawInputs(r: Num, l: Num, c: Num, f: Num, vin: Num)

  /** Validated circuit parameters. */
  datatype Params = Params(r: real, l: real, c: real, f: real, vin: real)

  /** Either the value is not a finite number, or it is finite but not positive. */
  datatype ValidationError = NotANumber(field: Field) | NotPositive(field: Field)

  /** The text of the thrown error. */
  function ValidationMessage(e: ValidationError): string {
    match e
    case NotANumber(fld) => Key(fld) + ": 숫자를 입력하세요."
    case NotPositive(fld) => Key(fld) + ": 양의 실수여야 합니다."
  }

  function FieldValue(raw: RawInputs, fld: Field): Num {
    match fld
    case Resistance => raw.r
    case Inductance => raw.l
    case Capacitance => raw.c
    case Frequency => raw.f
    case SourceVoltage => raw.vin
  }

  /** The fields in checking order. */
  const FieldOrder: seq<Field> := [Resistance, Inductance, Capacitance, Frequency, SourceVoltage]

  /** The first position at or after `i` whose value fails the guard, or
      `|vals|` when none does. */
  function FirstInvalid(vals: seq<Num>, i: nat): (k: nat)
    requires i <= |vals|
    ensures i <= k <= |vals|
    ensures forall j :: i <= j < k ==> PositiveFinite(vals[j])
    ensures k < |vals| ==> !PositiveFinite(vals[k])
    decreases |vals| - i
  {
    if i == |vals| then i
    else if !PositiveFinite(vals[i]) then i
    else FirstInvalid(vals, i + 1)
  }

  /** Validation of the five fields in the order R, L, C, f, Vin. It stops
      at the first field that fails and names it; a value that is not a
      finite number (NaN or either infinity) is reported as such before
      positivity is considered. When every field passes, the values come
      back unchanged. */
  function ParseAndValidate(raw: RawInputs): (res: Result<Params, ValidationError>)
    ensures res.Success? <==>
      && PositiveFinite(raw.r) && PositiveFinite(raw.l) && PositiveFinite(raw.c)
      && PositiveFinite(raw.f) && PositiveFinite(raw.vin)
    ensures res.Success? ==>
      res.value == Params(raw.r.value, raw.l.value, raw.c.value, raw.f.value, raw.vin.value)
    ensures res.Failure? ==>
      var fld := res.error.field;
      && !PositiveFinite(FieldValue(raw, fld))
      && (forall g :: Rank(g) < Rank(fld) ==> PositiveFinite(FieldValue(raw, g)))
      && (res.error.NotANumber? <==> !FieldValue(raw, fld).Finite?)
  {
    var vals := [raw.r, raw.l, raw.c, raw.f, raw.vin];
    var k := FirstInvalid(vals, 0);
    assert forall fld :: vals[Rank(fld)] == FieldValue(raw, fld);
    if k == |vals| then
      assert PositiveFinite(vals[0]) && PositiveFinite(vals[1]) && PositiveFinite(vals[2]);
      assert PositiveFinite(vals[3]) && PositiveFinite(vals[4]);
      Success(Params(raw.r.value, raw.l.value, raw.c.value, raw.f.value, raw.vin.value))
    else
      var fld := FieldOrder[k];
      assert Rank(fld) == k;
      if !IsFinite(vals[k]) then Failure(NotANumber(fld)) else Failure(NotPositive(fld))
  }

  /** Three sample rejections: a zero resistance is reported as not
      positive under "R"; a negative frequency under "f" once the earlier
      fields pass; and an inductance of negative infinity as not a number
      under "L", although later fields fail too. */
  lemma ParseAndValidateExamples()
    ensures ParseAndValidate(RawInputs(Finite(0.0), Finite(0.01), Finite(0.000001), Finite(1000.0), Finite(1.0)))
      == Failure(NotPositive(Resistance))
    ensures ParseAndValidate(RawInputs(Finite(100.0), Finite(0.01), Finite(0.000001), Finite(-5.0), Finite(1.0)))
      == Failure(NotPositive(Frequency))
    ensures ParseAndValidate(RawInputs(Finite(100.0), NegInf, Finite(-1.0), Finite(-5.0), NaN))
      == Failure(NotANumber(Inductance))
  {
    assert Rank(Resistance) == 0 && Rank(Inductance) == 1 && Rank(Capacitance) == 2;
    assert Rank(Frequency) == 3 && Rank(SourceVoltage) == 4;
  }

  // ---------------------------------------------------------------------
  // clampSweep

  /** A sweep range in hertz. */
  datatype SweepRange = SweepRange(fMin: real, fMax: real)

  /** Repair of a requested sweep range. A missing bound takes its default
      (10 and 100000); a lower bound that is not a positive finite number
      becomes 1; an upper bound that is not finite or does not exceed the
      lower bound becomes ten times the lower bound. */
  function ClampSweep(fMin: Option<Num>, fMax: Option<Num>): (r: SweepRange)
    ensures 0.0 < r.fMin < r.fMax
    ensures var lo := if fMin.Some? then fMin.value else Finite(10.0);
      r.fMin == (if PositiveFinite(lo) then lo.value else 1.0)
    ensures var hi := if fMax.Some? then fMax.value else Finite(100000.0);
      r.fMax == (if hi.Finite? && hi.value > r.fMin then hi.value else 10.0 * r.fMin)
    ensures fMin.Some? && fMax.Some? && fMin.value.Finite? && fMax.value.Finite?
            && 0.0 < fMin.value.value < fMax.value.value
            ==> r == SweepRange(fMin.value.value, fMax.value.value)
  {
    var lo := match fMin case Some(v) => v case None => Finite(10.0);
    var hi := match fMax case Some(v) => v case None => Finite(100000.0);
    var lo' := if !IsFinite(lo) || lo.value <= 0.0 then 1.0 else lo.value;
    var hi' := if !IsFinite(hi) || hi.value <= lo' then lo' * 10.0 else hi.value;
    SweepRange(lo', hi')
  }

  /** Repairing a repaired range changes nothing. */
  lemma ClampSweepIdempotent(fMin: Option<Num>, fMax: Option<Num>)
    ensures var r := ClampSweep(fMin, fMax);
      ClampSweep(Some(Finite(r.fMin)), Some(Finite(r.fMax))) == r
  {
  }

  /** With nothing given, the range is the default 10 Hz to 100 kHz. */
  lemma ClampSweepDefaults()
    ensures ClampSweep(None, None) == SweepRange(10.0, 100000.0)
  {
  }
}
