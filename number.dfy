/** nom's `number::complete::double` as the line parser uses it: which text it
    recognises as a number, what remainder it leaves, and the number the text
    denotes, kept exact rather than rounded to a 64-bit float. Also Rust's
    `f as i64` cast that turns a parsed timestamp into an integer. */
module Number {
  import opened Combinators

  /** The number a sample value or a timestamp denotes. A decimal literal
      `[sign] digits [. digits] [e [sign] digits]` is kept as
      (-1)^negative * mantissa * 10^(exponent - scale), where the mantissa is
      the integer and fraction digits read as one integer and the scale is the
      number of fraction digits. */
  datatype Value =
    | PosInf
    | NegInf
    | NaN
    | Finite(negative: bool, mantissa: nat, scale: nat, exponent: int)

  predicate IsDigit(c: char) {
    '0' <= c <= '9'
  }

  predicate AllDigits(d: string) {
    forall i :: 0 <= i < |d| ==> IsDigit(d[i])
  }

  /** The decimal digits `d` spell, most significant first. */
  function DigitsValue(d: string): nat {
    if d == [] then 0
    else DigitsValue(d[..|d| - 1]) * 10 + (if IsDigit(d[|d| - 1]) then d[|d| - 1] as int - '0' as int else 0)
  }

  function Pow10(e: nat): (p: nat)
    ensures p >= 1
  {
    if e == 0 then 1 else 10 * Pow10(e - 1)
  }

  /** The exact rational a finite literal denotes. */
  function RealValue(v: Value): real
    requires v.Finite?
  {
    var magnitude :=
      if v.exponent >= v.scale then (v.mantissa * Pow10(v.exponent - v.scale)) as real
      else v.mantissa as real / Pow10(v.scale - v.exponent) as real;
    if v.negative then -magnitude else magnitude
  }

  predicate IsSign(c: char) {
    c == '+' || c == '-'
  }

  /** The characters a number recognised by `double` can start with. */
  predicate IsNumberStart(c: char) {
    IsSign(c) || IsDigit(c) || c == '.' || c == 'n' || c == 'N' || c == 'i' || c == 'I'
  }

  /** `opt(alt((char('+'), char('-'))))`: whether a minus sign was read, and the rest. */
  function OptSign(s: string): (r: (bool, string))
    ensures r.0 ==> s != [] && s[0] == '-'
    ensures r.1 == if s != [] && IsSign(s[0]) then s[1..] else s
  {
    if s != [] && IsSign(s[0]) then (s[0] == '-', s[1..]) else (false, s)
  }

  /** The exponent part of nom's `recognize_float`:
      `opt(tuple((alt((char('e'), char('E'))), opt(sign), cut(digit1))))`.
      No `e` is a recoverable `Error` (so `opt` yields no exponent), but an `e`
      without digits is a `Failure`, because of the `cut`. */
  function Exponent(s: string): (r: Result<int>)
    ensures r.Error? <==> s == [] || (s[0] != 'e' && s[0] != 'E')
    ensures r.Ok? ==> |r.rest| + 2 <= |s|
    ensures r.Ok? ==> r.rest == [] || !IsDigit(r.rest[0])
  {
    if s != [] && (s[0] == 'e' || s[0] == 'E') then
      var (negative, t) := OptSign(s[1..]);
      var (digits, rest) := TakeWhile(IsDigit, t);
      if digits == [] then Failure
      else
        var magnitude: int := DigitsValue(digits);
        Ok(if negative then -magnitude else magnitude, rest)
    else Error
  }

  /** The part of nom's `recognize_float` between the sign and the exponent:
      digits with an optional `.` and optional fraction digits, or `.` followed
      by at least one digit. The value is the mantissa and the scale. */
  function Mantissa(s: string): (r: Result<(nat, nat)>)
    ensures !r.Failure?
    ensures r.Ok? ==> |r.rest| < |s|
    ensures r.Ok? ==> r.rest == [] || !IsDigit(r.rest[0])
    ensures s == [] || !(IsDigit(s[0]) || s[0] == '.') ==> r.Error?
  {
    var (intDigits, s1) := TakeWhile(IsDigit, s);
    var hasPoint := s1 != [] && s1[0] == '.';
    var (fracDigits, s2) := if hasPoint then TakeWhile(IsDigit, s1[1..]) else ([], s1);
    if intDigits == [] && fracDigits == [] then Error
    else Ok((DigitsValue(intDigits + fracDigits), |fracDigits|), s2)
  }

  /** nom's `recognize_float`, with the recognised text read as a `Finite`
      value: an optional sign, the mantissa, then an optional exponent. */
  function RecognizeFloat(s: string): (r: Result<Value>)
    ensures r.Ok? ==> r.value.Finite? && |r.rest| < |s|
    ensures r.Ok? ==> r.rest == [] || !IsDigit(r.rest[0])
    ensures s == [] || !(IsSign(s[0]) || IsDigit(s[0]) || s[0] == '.') ==> r.Error?
  {
    var (negative, s1) := OptSign(s);
    match Mantissa(s1)
    case Error => Error
    case Failure => Failure
    case Ok(m, s2) =>
      var v := Finite(negative, m.0, m.1, 0);
      match Exponent(s2)
      case Ok(e, s3) => Ok(v.(exponent := e), s3)
      case Error => Ok(v, s2)
      case Failure => Failure
  }

  /** The exceptions `recognize_float_or_exceptions` tries when the text is
      not a literal: `nan`, `inf` and `infinity`, in that order, ignoring
      case. Since `inf` comes first, `infinity` only ever consumes its first
      three letters. */
  function SpecialValue(s: string): (r: Result<Value>)
    ensures !r.Failure?
    ensures r.Ok? ==> |r.rest| + 3 <= |s| && (r.value == NaN || r.value == PosInf)
    ensures r.Ok? ==> s[0] in "nNiI"
  {
    var nan, inf, infinity := TagNoCase("nan", s), TagNoCase("inf", s), TagNoCase("infinity", s);
    if nan.Ok? then
      assert LowerAscii(s[0]) == 'n';
      Ok(NaN, nan.rest)
    else if inf.Ok? then
      assert LowerAscii(s[0]) == 'i';
      Ok(PosInf, inf.rest)
    else if infinity.Ok? then
      assert LowerAscii(s[0]) == 'i';
      Ok(PosInf, infinity.rest)
    else Error
  }

  /** nom 7's `double` (`recognize_float_or_exceptions`, then Rust's float
      parsing, which accepts every text this recognises). A sign is never
      accepted in front of the exceptions. */
  function Double(s: string): (r: Result<Value>)
    ensures s == [] || !IsNumberStart(s[0]) ==> r.Error?
    ensures r.Ok? ==> |r.rest| < |s|
    ensures r.Ok? ==> r.value != NegInf
    ensures r.Ok? && r.value.Finite? ==> r.rest == [] || !IsDigit(r.rest[0])
  {
    match RecognizeFloat(s)
    case Error => SpecialValue(s)
    case other => other
  }

  const I64Min: int := -0x8000_0000_0000_0000
  const I64Max: int := 0x7fff_ffff_ffff_ffff

  /** The integer nearest to `x` in the direction of zero. */
  function TruncateTowardZero(x: real): (t: int)
    ensures x >= 0.0 ==> t as real <= x < t as real + 1.0
    ensures x < 0.0 ==> t as real - 1.0 < x <= t as real
  {
    if x >= 0.0 then x.Floor else -((-x).Floor)
  }

  /** Rust's saturating `f as i64`: NaN becomes 0, the infinities and values
      out of range become the nearest bound, everything else is truncated
      toward zero. */
  function AsI64(v: Value): (t: int)
    ensures I64Min <= t <= I64Max
    ensures v.NaN? ==> t == 0
    ensures v.Finite? && I64Min as real <= RealValue(v) < I64Max as real + 1.0 ==>
              t == TruncateTowardZero(RealValue(v))
  {
    match v
    case NaN => 0
    case PosInf => I64Max
    case NegInf => I64Min
    case Finite(_, _, _, _) =>
      var t := TruncateTowardZero(RealValue(v));
      if t < I64Min then I64Min else if t > I64Max then I64Max else t
  }

  // ---------------------------------------------------------------------------
  // Decimal integers: the text a timestamp is normally written as.

  /** The shortest decimal spelling of `n`. */
  function DecimalDigits(n: nat): (d: string)
    ensures d != [] && AllDigits(d)
    ensures DigitsValue(d) == n
  {
    if n < 10 then [('0' as int + n) as char]
    else
      var d := DecimalDigits(n / 10) + [('0' as int + n % 10) as char];
      assert d[..|d| - 1] == DecimalDigits(n / 10);
      d
  }

  /** `n` written as an optionally signed decimal integer. */
  function IntegerText(n: int): string {
    if n < 0 then "-" + DecimalDigits(-n) else DecimalDigits(n)
  }

  /** A run of digits with no point after it is a mantissa of scale zero. */
  lemma {:induction false} MantissaOfDigits(d: string, t: string)
    requires d != [] && AllDigits(d)
    requires t == [] || (!IsDigit(t[0]) && t[0] != '.')
    ensures Mantissa(d + t) == Ok((DigitsValue(d), 0), t)
  {
    TakeWhileUnique(IsDigit, d, t);
    assert d + [] == d;
  }

  /** An optionally negated run of digits that nothing can continue is read
      as an integer literal. */
  lemma {:induction false} RecognizeInteger(negative: bool, d: string, t: string)
    requires d != [] && AllDigits(d)
    requires t == [] || (!IsDigit(t[0]) && t[0] != '.' && t[0] != 'e' && t[0] != 'E')
    ensures RecognizeFloat((if negative then "-" else "") + d + t) == Ok(Finite(negative, DigitsValue(d), 0, 0), t)
  {
    var s := (if negative then "-" else "") + d + t;
    assert OptSign(s) == (negative, d + t) by {
      if negative { assert s == "-" + (d + t); } else { assert s == d + t; }
    }
    MantissaOfDigits(d, t);
    assert Exponent(t).Error?;
  }

  /** An integer literal followed by anything that cannot continue a number is
      read back as exactly that integer. */
  lemma {:induction false} IntegerTextRoundTrip(n: int, t: string)
    requires t == [] || (!IsDigit(t[0]) && t[0] != '.' && t[0] != 'e' && t[0] != 'E')
    ensures var v := Finite(n < 0, if n < 0 then -n else n, 0, 0);
      Double(IntegerText(n) + t) == Ok(v, t) && RealValue(v) == n as real
  {
    var v := Finite(n < 0, if n < 0 then -n else n, 0, 0);
    var d := DecimalDigits(if n < 0 then -n else n);
    assert IntegerText(n) == (if n < 0 then "-" else "") + d;
    RecognizeInteger(n < 0, d, t);
    DoubleOfLiteral(IntegerText(n) + t);
    IntegerValue(n);
  }

  /** Where `recognize_float` reads a literal, `double` reads the same. */
  lemma {:induction false} DoubleOfLiteral(x: string)
    requires RecognizeFloat(x).Ok?
    ensures Double(x) == RecognizeFloat(x)
  {
  }

  /** A literal of scale and exponent zero denotes its mantissa. */
  lemma {:induction false} IntegerValue(n: int)
    ensures RealValue(Finite(n < 0, if n < 0 then -n else n, 0, 0)) == n as real
  {
    assert Pow10(0) == 1;
  }
}
