/** Decimal number literals as the exchange sends them ("0.001", "10",
    "1.5e-3"): their syntax, as accepted by Python's `decimal.Decimal(...)`
    and `float(...)`, and the two things the order manager reads from them,
    the exponent of the decimal (`Decimal(s).as_tuple().exponent`) and the
    number the literal denotes. */
module DecimalText {
  import opened Wrappers
  import opened Precision

  datatype Sign = Unsigned | Plus | Minus

  /** `e` or `E`, an optional sign and the exponent's digits. */
  datatype ExponentPart = ExponentPart(indicator: char, sign: Sign, digits: string)

  /** [sign] whole [. frac] [exponent]; `point` records whether the decimal
      point is written, so that "5" and "5." are told apart. */
  datatype Literal = Literal(sign: Sign, whole: string, point: bool, frac: string,
                             exponent: Option<ExponentPart>)

  predicate IsDigit(c: char)
  {
    '0' <= c <= '9'
  }

  predicate AllDigits(s: string)
  {
    forall i | 0 <= i < |s| :: IsDigit(s[i])
  }

  /** The literals the grammar allows: at least one mantissa digit, fraction
      digits only after a point, and a non-empty exponent. */
  predicate WellFormed(lit: Literal)
  {
    && AllDigits(lit.whole)
    && AllDigits(lit.frac)
    && |lit.whole| + |lit.frac| > 0
    && (!lit.point ==> lit.frac == [])
    && (lit.exponent.Some? ==>
          && lit.exponent.value.indicator in Indicators
          && lit.exponent.value.digits != []
          && AllDigits(lit.exponent.value.digits))
  }

  function SignText(sign: Sign): string
  {
    match sign
    case Unsigned => ""
    case Plus => "+"
    case Minus => "-"
  }

  function ExponentText(exponent: Option<ExponentPart>): string
  {
    match exponent
    case None => ""
    case Some(e) => [e.indicator] + SignText(e.sign) + e.digits
  }

  function MantissaText(whole: string, point: bool, frac: string): string
  {
    whole + (if point then "." else "") + frac
  }

  /** The text of a literal. */
  function Print(lit: Literal): string
  {
    SignText(lit.sign) + MantissaText(lit.whole, lit.point, lit.frac) + ExponentText(lit.exponent)
  }

  /** An optional leading sign and the rest of the text. */
  function SplitSign(s: string): (Sign, string)
  {
    if |s| > 0 && s[0] == '+' then (Plus, s[1..])
    else if |s| > 0 && s[0] == '-' then (Minus, s[1..])
    else (Unsigned, s)
  }

  /** The position of the first character of `s` that is in `seps` (`|s|`
      when there is none). */
  function FindFirst(s: string, seps: set<char>): (i: nat)
    ensures i <= |s|
    ensures forall j | 0 <= j < i :: s[j] !in seps
    ensures i < |s| ==> s[i] in seps
  {
    if s == [] then 0
    else if s[0] in seps then 0
    else 1 + FindFirst(s[1..], seps)
  }

  const Indicators: set<char> := {'e', 'E'}

  /** `Decimal(s)`: reads a literal, an optional sign, then the mantissa up
      to the first exponent indicator, then the exponent. Whatever it accepts
      is a well-formed literal whose text is exactly the input; with
      ParsePrint, Parse accepts exactly the texts of well-formed literals and
      inverts Print on them. */
  function Parse(s: string): (r: Option<Literal>)
    ensures r.Some? ==> WellFormed(r.value) && Print(r.value) == s
  {
    var (sign, body) := SplitSign(s);
    var e := FindFirst(body, Indicators);
    match ParseMantissa(body[..e])
    case None => None
    case Some((whole, point, frac)) =>
      match ParseExponent(body[e..])
      case None => None
      case Some(exponent) =>
        ParseMantissaSound(body[..e]);
        ParseExponentSound(body[e..]);
        SplitSignJoin(s);
        JoinParts(s, SignText(sign), body, e);
        Some(Literal(sign, whole, point, frac, exponent))
  }

  /** The mantissa split at its first point: whole part, whether a point is
      there, and the fraction digits after it. */
  function SplitMantissa(m: string): (parts: (string, bool, string))
    ensures m == MantissaText(parts.0, parts.1, parts.2)
    ensures parts.1 <==> '.' in m
    ensures '.' !in parts.0
    ensures !parts.1 ==> parts.2 == []
  {
    var p := FindFirst(m, {'.'});
    assert forall j | 0 <= j < p :: m[..p][j] == m[j];
    if p < |m| then
      assert m == m[..p] + "." + m[p + 1..];
      (m[..p], true, m[p + 1..])
    else (m, false, [])
  }

  /** A mantissa: digits on both sides of an optional point, at least one
      digit in all. */
  function ParseMantissa(m: string): (r: Option<(string, bool, string)>)
  {
    var (whole, point, frac) := SplitMantissa(m);
    if !AllDigits(whole) || !AllDigits(frac) || |whole| + |frac| == 0 then None
    else Some((whole, point, frac))
  }

  /** What follows the mantissa: nothing, or an indicator, an optional sign
      and at least one digit. */
  function ParseExponent(x: string): (r: Option<Option<ExponentPart>>)
  {
    if x == [] then Some(None)
    else
      var (esign, digits) := SplitSign(x[1..]);
      if digits == [] || !AllDigits(digits) then None
      else Some(Some(ExponentPart(x[0], esign, digits)))
  }

  lemma SplitSignJoin(s: string)
    ensures SignText(SplitSign(s).0) + SplitSign(s).1 == s
  {
  }

  /** The text is its sign, its mantissa and the rest. */
  lemma JoinParts(s: string, signText: string, body: string, e: nat)
    requires s == signText + body && e <= |body|
    ensures s == signText + body[..e] + body[e..]
  {
    assert body == body[..e] + body[e..];
  }

  lemma ParseMantissaSound(m: string)
    ensures var r := ParseMantissa(m);
      r.Some? ==>
        && MantissaText(r.value.0, r.value.1, r.value.2) == m
        && AllDigits(r.value.0) && AllDigits(r.value.2)
        && |r.value.0| + |r.value.2| > 0
        && (!r.value.1 ==> r.value.2 == [])
  {
  }

  lemma ParseExponentSound(x: string)
    requires x != [] ==> x[0] in Indicators
    ensures var r := ParseExponent(x);
      r.Some? ==>
        && ExponentText(r.value) == x
        && (r.value.Some? ==>
              && r.value.value.indicator in Indicators
              && r.value.value.digits != []
              && AllDigits(r.value.value.digits))
  {
    var r := ParseExponent(x);
    if x != [] && r.Some? {
      var t := x[1..];
      var split := SplitSign(t);
      SplitSignJoin(t);
      var ep := ExponentPart(x[0], split.0, split.1);
      assert r == Some(Some(ep));
      assert [x[0]] + SignText(split.0) + split.1 == [x[0]] + (SignText(split.0) + split.1);
      assert x == [x[0]] + t;
    }
  }

  /** Every well-formed literal is read back from its text. */
  lemma ParsePrint(lit: Literal)
    requires WellFormed(lit)
    ensures Parse(Print(lit)) == Some(lit)
  {
    var m := MantissaText(lit.whole, lit.point, lit.frac);
    var x := ExponentText(lit.exponent);
    var body := m + x;
    PrintSign(lit);
    MantissaHasNoIndicator(lit.whole, lit.point, lit.frac);
    FindFirstAfter(m, x, Indicators);
    assert body[..|m|] == m && body[|m|..] == x;
    ParseMantissaOf(lit.whole, lit.point, lit.frac);
    ParseExponentOf(lit.exponent);
  }

  lemma PrintSign(lit: Literal)
    requires WellFormed(lit)
    ensures SplitSign(Print(lit))
         == (lit.sign, MantissaText(lit.whole, lit.point, lit.frac) + ExponentText(lit.exponent))
  {
    var m := MantissaText(lit.whole, lit.point, lit.frac);
    var body := m + ExponentText(lit.exponent);
    assert Print(lit) == SignText(lit.sign) + body;
    MantissaStart(lit.whole, lit.point, lit.frac);
    assert body[0] == m[0];
    SplitSignOf(lit.sign, body);
  }

  lemma ParseMantissaOf(whole: string, point: bool, frac: string)
    requires AllDigits(whole) && AllDigits(frac) && |whole| + |frac| > 0
    requires !point ==> frac == []
    ensures ParseMantissa(MantissaText(whole, point, frac)) == Some((whole, point, frac))
  {
    SplitMantissaOf(whole, point, frac);
  }

  lemma ParseExponentOf(exponent: Option<ExponentPart>)
    requires exponent.Some? ==> exponent.value.digits != [] && AllDigits(exponent.value.digits)
    ensures ParseExponent(ExponentText(exponent)) == Some(exponent)
  {
    if exponent.Some? {
      var ep := exponent.value;
      var x := ExponentText(exponent);
      assert x[1..] == SignText(ep.sign) + ep.digits;
      assert IsDigit(ep.digits[0]);
      SplitSignOf(ep.sign, ep.digits);
    }
  }

  /** A mantissa starts with a digit or the point, never with a sign. */
  lemma MantissaStart(whole: string, point: bool, frac: string)
    requires AllDigits(whole) && |whole| + |frac| > 0 && (!point ==> frac == [])
    ensures var m := MantissaText(whole, point, frac);
      m != [] && m[0] != '+' && m[0] != '-'
  {
    if whole == [] {
      assert MantissaText(whole, point, frac)[0] == '.';
    } else {
      assert MantissaText(whole, point, frac)[0] == whole[0];
    }
  }

  /** The first separator of `m + x` is the one starting `x` when `m` holds
      none. */
  lemma FindFirstAfter(m: string, x: string, seps: set<char>)
    requires forall j | 0 <= j < |m| :: m[j] !in seps
    requires x != [] ==> x[0] in seps
    ensures FindFirst(m + x, seps) == |m|
  {
    var s := m + x;
    forall j | 0 <= j < |m|
      ensures s[j] !in seps
    {
      assert s[j] == m[j];
    }
    if x != [] {
      assert s[|m|] == x[0];
    }
    FindFirstAt(s, seps, |m|);
  }

  /** A sign followed by text that does not itself start with a sign. */
  lemma SplitSignOf(sign: Sign, t: string)
    requires t != [] && t[0] != '+' && t[0] != '-'
    ensures SplitSign(SignText(sign) + t) == (sign, t)
  {
    var s := SignText(sign) + t;
    if sign == Unsigned {
      assert s == t;
    } else {
      assert s[0] == SignText(sign)[0];
      assert s[1..] == t;
    }
  }

  /** FindFirst is determined by its contract. */
  lemma FindFirstAt(s: string, seps: set<char>, i: nat)
    requires i <= |s|
    requires forall j | 0 <= j < i :: s[j] !in seps
    requires i < |s| ==> s[i] in seps
    ensures FindFirst(s, seps) == i
  {
  }

  lemma MantissaHasNoIndicator(whole: string, point: bool, frac: string)
    requires AllDigits(whole) && AllDigits(frac)
    ensures forall j | 0 <= j < |MantissaText(whole, point, frac)| ::
      MantissaText(whole, point, frac)[j] !in Indicators
  {
    var m := MantissaText(whole, point, frac);
    forall j | 0 <= j < |m|
      ensures m[j] !in Indicators
    {
      if j < |whole| {
        assert m[j] == whole[j];
      } else if point && j == |whole| {
        assert m[j] == '.';
      } else {
        assert m[j] == frac[j - |whole| - (if point then 1 else 0)];
      }
    }
  }

  lemma SplitMantissaOf(whole: string, point: bool, frac: string)
    requires AllDigits(whole) && AllDigits(frac) && (!point ==> frac == [])
    ensures SplitMantissa(MantissaText(whole, point, frac)) == (whole, point, frac)
  {
    var m := MantissaText(whole, point, frac);
    forall j | 0 <= j < |whole|
      ensures m[j] !in {'.'}
    {
      assert m[j] == whole[j];
    }
    FindFirstAt(m, {'.'}, |whole|);
    if point {
      assert m[..|whole|] == whole;
      assert m[|whole| + 1..] == frac;
    } else {
      assert m == whole;
    }
  }

  // The number a literal denotes

  function DigitValue(c: char): nat
    requires IsDigit(c)
  {
    c as int - '0' as int
  }

  /** The digits read as a base-ten numeral; the empty numeral is 0. */
  function DigitsValue(s: string): nat
    requires AllDigits(s)
  {
    if s == [] then 0 else DigitsValue(s[..|s| - 1]) * 10 + DigitValue(s[|s| - 1])
  }

  /** A magnitude with a sign applied. */
  function Signed(sign: Sign, n: nat): int
  {
    if sign == Minus then 0 - n else n
  }

  /** The written exponent (0 when there is none). */
  function ExponentValue(exponent: Option<ExponentPart>): int
    requires exponent.Some? ==> AllDigits(exponent.value.digits)
  {
    match exponent
    case None => 0
    case Some(e) => Signed(e.sign, DigitsValue(e.digits))
  }

  /** `Decimal(text).as_tuple().exponent`: the written exponent less one for
      every fraction digit, trailing zeros included. */
  function Exponent(lit: Literal): (e: int)
    requires WellFormed(lit)
    ensures lit.exponent.None? ==> e == 0 - |lit.frac|
    ensures e <= ExponentValue(lit.exponent)
  {
    ExponentValue(lit.exponent) - |lit.frac|
  }

  /** The signed integer made of all mantissa digits, point removed. */
  function Coefficient(lit: Literal): int
    requires WellFormed(lit)
  {
    Signed(lit.sign, DigitsValue(lit.whole + lit.frac))
  }

  /** c * 10^e, exactly. */
  function Scale(c: int, e: int): real
  {
    if e >= 0 then (c * Pow10(e)) as real else c as real / Pow10(-e) as real
  }

  /** The number the literal denotes: Coefficient * 10^Exponent (at most
      |Exponent| fraction digits, ScaleOnGrid). Its sign is the written one,
      and a literal of digits alone denotes the integer they spell. */
  function LiteralValue(lit: Literal): (r: real)
    requires WellFormed(lit)
    ensures lit.sign == Minus ==> r <= 0.0
    ensures lit.sign != Minus ==> r >= 0.0
    ensures lit.frac == [] && lit.exponent.None? ==> r == Signed(lit.sign, DigitsValue(lit.whole)) as real
  {
    ScaleSign(Coefficient(lit), Exponent(lit));
    assert lit.frac == [] ==> lit.whole + lit.frac == lit.whole;
    Scale(Coefficient(lit), Exponent(lit))
  }

  /** c * 10^e has the sign of c. */
  lemma ScaleSign(c: int, e: int)
    ensures c >= 0 ==> Scale(c, e) >= 0.0
    ensures c <= 0 ==> Scale(c, e) <= 0.0
  {
    if e >= 0 {
      MulSign(c, Pow10(e));
    }
  }

  lemma MulSign(c: int, p: nat)
    ensures c >= 0 ==> c * p >= 0
    ensures c <= 0 ==> c * p <= 0
  {
  }

  /** The value of a text, when it is a literal (`float(text)` on finite
      decimal input; None where Python raises ValueError). Whatever Parse
      accepts is well-formed, so the guard never fails. */
  function ParseNumber(s: string): (r: Option<real>)
    ensures r.Some? <==> Parse(s).Some?
  {
    match Parse(s)
    case Some(lit) => if WellFormed(lit) then Some(LiteralValue(lit)) else None
    case None => None
  }

  /** A number c * 10^e has at most |e| fraction digits. */
  lemma ScaleOnGrid(c: int, e: int)
    ensures OnGrid(Scale(c, e), if e >= 0 then e else -e)
  {
    if e >= 0 {
      var p := Pow10(e);
      assert Scale(c, e) * p as real == (c * p) as real * p as real == (c * p * p) as real;
      OnGridOf(Scale(c, e), e, c * p * p);
    } else {
      var p := Pow10(-e) as real;
      assert Scale(c, e) * p == c as real / p * p == c as real;
      OnGridOf(Scale(c, e), -e, c);
    }
  }

  /** Appending digits shifts the numeral left by their count. */
  lemma {:induction false} DigitsAppend(a: string, b: string)
    requires AllDigits(a) && AllDigits(b)
    ensures AllDigits(a + b)
    ensures DigitsValue(a + b) == DigitsValue(a) * Pow10(|b|) + DigitsValue(b)
  {
    if b == [] {
      assert a + b == a;
    } else {
      var b' := b[..|b| - 1];
      var last := b[|b| - 1];
      DigitsAppend(a, b');
      assert (a + b)[..|a + b| - 1] == a + b';
      assert (a + b)[|a + b| - 1] == last;
      assert DigitsValue(a + b) == DigitsValue(a + b') * 10 + DigitValue(last);
      assert Pow10(|b|) == Pow10(|b'|) * 10;
      ShiftStep(DigitsValue(a), Pow10(|b'|), DigitsValue(b'), DigitValue(last));
    }
  }

  lemma ShiftStep(x: int, p: int, y: int, d: int)
    ensures (x * p + y) * 10 + d == x * (p * 10) + (y * 10 + d)
  {
  }

  /** A plain decimal "w.f" (no sign, no exponent) is read with exponent
      -|f|: every fraction digit counts, trailing zeros included. */
  lemma PlainDecimalParse(whole: string, frac: string)
    requires AllDigits(whole) && AllDigits(frac) && |whole| + |frac| > 0
    ensures var lit := Literal(Unsigned, whole, true, frac, None);
      && Parse(whole + "." + frac) == Some(lit)
      && Exponent(lit) == -|frac|
  {
    var lit := Literal(Unsigned, whole, true, frac, None);
    assert Print(lit) == whole + "." + frac;
    ParsePrint(lit);
  }

  /** ... and it denotes w + f / 10^|f|. */
  lemma PlainDecimalValue(whole: string, frac: string)
    requires AllDigits(whole) && AllDigits(frac) && |whole| + |frac| > 0
    ensures var lit := Literal(Unsigned, whole, true, frac, None);
      LiteralValue(lit) == DigitsValue(whole) as real + DigitsValue(frac) as real / Pow10(|frac|) as real
  {
    DigitsAppend(whole, frac);
    PlainDecimalScale(whole, frac);
    PlainScaleValue(whole, frac);
  }

  /** The numeral wf scaled down by |f| is w + f / 10^|f|. */
  lemma PlainScaleValue(whole: string, frac: string)
    requires AllDigits(whole) && AllDigits(frac)
    ensures AllDigits(whole + frac)
    ensures Scale(DigitsValue(whole + frac), 0 - |frac|)
         == DigitsValue(whole) as real + DigitsValue(frac) as real / Pow10(|frac|) as real
  {
    DigitsAppend(whole, frac);
    ScaleDown(DigitsValue(whole + frac), |frac|);
    DivSplit(DigitsValue(whole), DigitsValue(frac), Pow10(|frac|));
  }

  /** "w.f" denotes the numeral wf scaled down by the fraction's length. */
  lemma PlainDecimalScale(whole: string, frac: string)
    requires AllDigits(whole) && AllDigits(frac) && AllDigits(whole + frac) && |whole| + |frac| > 0
    ensures var lit := Literal(Unsigned, whole, true, frac, None);
      LiteralValue(lit) == Scale(DigitsValue(whole + frac), 0 - |frac|)
  {
  }

  /** The number of a text that parses to `lit` is the value of `lit`. */
  lemma ParseNumberOf(s: string, lit: Literal)
    requires Parse(s) == Some(lit)
    ensures WellFormed(lit) && ParseNumber(s) == Some(LiteralValue(lit))
  {
  }

  /** A plain "w.f" text reads as the value of its literal. */
  lemma PlainNumber(s: string, whole: string, frac: string)
    requires s == whole + "." + frac
    requires AllDigits(whole) && AllDigits(frac) && |whole| + |frac| > 0
    ensures ParseNumber(s) == Some(LiteralValue(Literal(Unsigned, whole, true, frac, None)))
  {
    PlainDecimalParse(whole, frac);
    ParseNumberOf(s, Literal(Unsigned, whole, true, frac, None));
  }

  /** The value of "w.f", once w + f / 10^|f| is known to be q. */
  lemma PlainValueIs(whole: string, frac: string, q: real)
    requires AllDigits(whole) && AllDigits(frac) && |whole| + |frac| > 0
    requires DigitsValue(whole) as real + DigitsValue(frac) as real / Pow10(|frac|) as real == q
    ensures LiteralValue(Literal(Unsigned, whole, true, frac, None)) == q
  {
    PlainDecimalValue(whole, frac);
  }

  /** A text of digits only reads as the integer they spell. */
  lemma IntegerNumber(s: string)
    requires AllDigits(s) && s != []
    ensures ParseNumber(s) == Some(DigitsValue(s) as real)
  {
    var lit := Literal(Unsigned, s, false, "", None);
    assert Print(lit) == s;
    ParsePrint(lit);
    ParseNumberOf(s, lit);
    assert lit.whole + lit.frac == s;
  }

  /** A negative exponent divides by the power of ten. */
  lemma ScaleDown(c: int, n: nat)
    ensures Scale(c, 0 - n) == c as real / Pow10(n) as real
  {
    if n == 0 {
      assert Pow10(0) == 1;
    }
  }

  lemma DivSplit(w: int, f: int, p: nat)
    requires p > 0
    ensures (w * p + f) as real / p as real == w as real + f as real / p as real
  {
    assert (w * p + f) as real == w as real * p as real + f as real;
  }
}
