/** What `read_value` and `read_timestamp` read: the infinities spelled the
    Prometheus way, every decimal literal (taken exactly), integers that read
    back as themselves, and the one way a timestamp makes a line fail. */
module ValueFacts {
  import opened Combinators
  import opened Number
  import opened LineParser

  // ---------------------------------------------------------------------------
  // Literals as `recognize_float` reads them.

  /** Digits, a point and digits: the mantissa is all the digits and the scale
      is the number of digits after the point. */
  lemma {:induction false} MantissaOfPoint(i: string, f: string, t: string)
    requires AllDigits(i) && AllDigits(f) && (i != [] || f != [])
    requires t == [] || !IsDigit(t[0])
    ensures Mantissa(i + ("." + (f + t))) == Ok((DigitsValue(i + f), |f|), t)
  {
    TakeWhileUnique(IsDigit, i, "." + (f + t));
    TakeWhileUnique(IsDigit, f, t);
    PartsOfConcat(".", f + t);
  }

  /** `e` or `E`, an optional sign and digits. */
  lemma {:induction false} ExponentOf(mark: string, sign: string, e: string, t: string)
    requires mark == "e" || mark == "E"
    requires sign == "" || sign == "+" || sign == "-"
    requires e != [] && AllDigits(e) && (t == [] || !IsDigit(t[0]))
    ensures Exponent(mark + (sign + (e + t))) ==
      Ok(if sign == "-" then -(DigitsValue(e) as int) else DigitsValue(e), t)
  {
    var s := mark + (sign + (e + t));
    PartsOfConcat(mark, sign + (e + t));
    assert (e + t)[0] == e[0];
    SignOf(sign, e + t);
    TakeWhileUnique(IsDigit, e, t);
    assert (s[0] == 'e' || s[0] == 'E') && OptSign(s[1..]) == (sign == "-", e + t);
    assert TakeWhile(IsDigit, e + t) == (e, t);
    if sign == "-" {
      assert Exponent(s) == Ok(-(DigitsValue(e) as int), t);
    } else {
      assert Exponent(s) == Ok(DigitsValue(e) as int, t);
    }
  }

  /** What a sign in front of a literal reads as. */
  lemma {:induction false} SignOf(sign: string, x: string)
    requires sign == "" || sign == "+" || sign == "-"
    requires x != [] && !IsSign(x[0])
    ensures OptSign(sign + x) == (sign == "-", x)
  {
    if sign == "" {
      AppendEmpty(x);
    } else {
      PartsOfConcat(sign, x);
    }
  }

  /** A literal with a point and no exponent. */
  lemma {:induction false} RecognizePointOf(sign: string, i: string, f: string, t: string)
    requires sign == "" || sign == "+" || sign == "-"
    requires AllDigits(i) && AllDigits(f) && (i != [] || f != [])
    requires t == [] || (!IsDigit(t[0]) && t[0] != 'e' && t[0] != 'E')
    ensures RecognizeFloat(sign + (i + ("." + (f + t)))) ==
      Ok(Finite(sign == "-", DigitsValue(i + f), |f|, 0), t)
  {
    var x := i + ("." + (f + t));
    assert x[0] == (if i != [] then i[0] else '.');
    SignOf(sign, x);
    MantissaOfPoint(i, f, t);
  }

  /** A literal with a point and an exponent. */
  lemma {:induction false} RecognizeScientificOf(sign: string, i: string, f: string, expSign: string, e: string, t: string)
    requires sign == "" || sign == "+" || sign == "-"
    requires expSign == "" || expSign == "+" || expSign == "-"
    requires AllDigits(i) && AllDigits(f) && (i != [] || f != [])
    requires e != [] && AllDigits(e) && (t == [] || !IsDigit(t[0]))
    ensures RecognizeFloat(sign + (i + ("." + (f + ("e" + (expSign + (e + t))))))) ==
      Ok(Finite(sign == "-", DigitsValue(i + f), |f|, if expSign == "-" then -(DigitsValue(e) as int) else DigitsValue(e)), t)
  {
    var rest := "e" + (expSign + (e + t));
    var x := i + ("." + (f + rest));
    assert x[0] == (if i != [] then i[0] else '.');
    SignOf(sign, x);
    MantissaOfPoint(i, f, rest);
    ExponentOf("e", expSign, e, t);
  }

  /** Digits and an exponent, with no point: `recognize_float` needs no
      point in front of the `e` or `E`. */
  lemma {:induction false} RecognizeExponentOf(sign: string, i: string, mark: string, expSign: string, e: string, t: string)
    requires sign == "" || sign == "+" || sign == "-"
    requires mark == "e" || mark == "E"
    requires expSign == "" || expSign == "+" || expSign == "-"
    requires i != [] && AllDigits(i)
    requires e != [] && AllDigits(e) && (t == [] || !IsDigit(t[0]))
    ensures RecognizeFloat(sign + (i + (mark + (expSign + (e + t))))) ==
      Ok(Finite(sign == "-", DigitsValue(i), 0, if expSign == "-" then -(DigitsValue(e) as int) else DigitsValue(e)), t)
  {
    var rest := mark + (expSign + (e + t));
    var x := i + rest;
    assert x[0] == i[0];
    SignOf(sign, x);
    assert rest[0] == mark[0];
    MantissaOfDigits(i, rest);
    ExponentOf(mark, expSign, e, t);
  }

  // ---------------------------------------------------------------------------
  // `read_value`.

  /** `+Inf` after blanks is positive infinity. */
  lemma {:induction false} ReadValuePosInf(g: string, t: string)
    requires AllBlank(g)
    ensures ReadValue(g + ("+Inf" + t)) == Ok(PosInf, t)
  {
    BlanksBefore(g, "+Inf" + t);
    TagOf("+Inf", t);
  }

  /** `-Inf` after blanks is negative infinity. */
  lemma {:induction false} ReadValueNegInf(g: string, t: string)
    requires AllBlank(g)
    ensures ReadValue(g + ("-Inf" + t)) == Ok(NegInf, t)
  {
    BlanksBefore(g, "-Inf" + t);
    TagOf("-Inf", t);
  }

  /** Negative infinity is read from `-Inf` and from nothing else: `double`
      never yields it (`-inf` in any other case is not a value at all). */
  lemma {:induction false} NegInfOnlyFromTag(s: string)
    ensures (ReadValue(s).Ok? && ReadValue(s).value == NegInf) <==> "-Inf" <= Space0(s)
  {
    if "-Inf" <= Space0(s) {
      NegInfFromTag(s);
    } else {
      NegInfNeedsTag(s);
    }
  }

  lemma {:induction false} NegInfFromTag(s: string)
    requires "-Inf" <= Space0(s)
    ensures ReadValue(s).Ok? && ReadValue(s).value == NegInf
  {
    var x := Space0(s);
    assert x[0] == '-';
    assert PosInfTag(x).Error? && NegInfTag(x).Ok?;
  }

  lemma {:induction false} NegInfNeedsTag(s: string)
    requires !("-Inf" <= Space0(s))
    ensures !(ReadValue(s).Ok? && ReadValue(s).value == NegInf)
  {
    var x := Space0(s);
    assert NegInfTag(x).Error?;
    assert PosInfTag(x).Ok? ==> PosInfTag(x).value == PosInf;
  }

  /** Where the text is a decimal literal, `read_value` reads it as
      `recognize_float` does: the infinity tags cannot match a literal. */
  lemma {:induction false} ReadValueOfLiteral(g: string, x: string)
    requires AllBlank(g) && RecognizeFloat(x).Ok?
    ensures ReadValue(g + x) == RecognizeFloat(x)
  {
    LiteralIsNoInfinity(x);
    DoubleOfLiteral(x);
    BlanksBefore(g, x);
  }

  /** A decimal literal starts with neither infinity tag. */
  lemma {:induction false} LiteralIsNoInfinity(x: string)
    requires RecognizeFloat(x).Ok?
    ensures x != [] && !IsBlank(x[0])
    ensures PosInfTag(x).Error? && NegInfTag(x).Error?
  {
    LiteralStart(x);
    assert !("+Inf" <= x) && !("-Inf" <= x);
  }

  /** A decimal literal starts with a digit or a point, possibly after a sign. */
  lemma {:induction false} LiteralStart(x: string)
    requires RecognizeFloat(x).Ok?
    ensures var x1 := OptSign(x).1;
      x1 != [] && (IsDigit(x1[0]) || x1[0] == '.') && (x1 == x || x1 == x[1..])
  {
    var x1 := OptSign(x).1;
    assert Mantissa(x1).Ok?;
  }

  /** An integer, after blanks, is read as that integer. */
  lemma {:induction false} ReadValueIntegerOf(g: string, n: int, t: string)
    requires AllBlank(g)
    requires t == [] || (!IsDigit(t[0]) && t[0] != '.' && t[0] != 'e' && t[0] != 'E')
    ensures var v := ReadValue(g + (IntegerText(n) + t));
      v.Ok? && v.rest == t && v.value.Finite? && RealValue(v.value) == n as real
  {
    IntegerTextRoundTrip(n, t);
    ReadValueOfLiteral(g, IntegerText(n) + t);
  }

  // ---------------------------------------------------------------------------
  // `read_timestamp`.

  /** `f as i64` gives back an integer that is in range. */
  lemma {:induction false} AsI64OfInteger(n: int)
    requires I64Min <= n <= I64Max
    ensures AsI64(Finite(n < 0, if n < 0 then -n else n, 0, 0)) == n
  {
    var v := Finite(n < 0, if n < 0 then -n else n, 0, 0);
    assert RealValue(v) == n as real;
  }

  /** An integer timestamp in the range of `i64`, after blanks, is read as
      that integer. */
  lemma {:induction false} ReadTimestampOf(g: string, n: int, t: string)
    requires AllBlank(g) && I64Min <= n <= I64Max
    requires t == [] || (!IsDigit(t[0]) && t[0] != '.' && t[0] != 'e' && t[0] != 'E')
    ensures ReadTimestamp(g + (IntegerText(n) + t)) == Ok(Some(n), t)
  {
    var x := IntegerText(n) + t;
    IntegerTextRoundTrip(n, t);
    assert x != [] && !IsBlank(x[0]);
    BlanksBefore(g, x);
    AsI64OfInteger(n);
  }

  /** Any decimal literal after blanks is a timestamp: the literal's value
      cast as by `f as i64`, so a value within the range of `i64` is
      truncated toward zero. */
  lemma {:induction false} ReadTimestampOfLiteral(g: string, x: string)
    requires AllBlank(g) && RecognizeFloat(x).Ok?
    ensures var f := RecognizeFloat(x);
      ReadTimestamp(g + x) == Ok(Some(AsI64(f.value)), f.rest)
    ensures var f := RecognizeFloat(x);
      I64Min as real <= RealValue(f.value) < I64Max as real + 1.0 ==>
        ReadTimestamp(g + x) == Ok(Some(TruncateTowardZero(RealValue(f.value))), f.rest)
  {
    LiteralIsNoInfinity(x);
    DoubleOfLiteral(x);
    BlanksBefore(g, x);
  }

  /** No number after the blanks: no timestamp, and nothing consumed. This
      covers text that cannot start a number at all and text such as `-`,
      `.` or `note` on which `double` fails recoverably. */
  lemma {:induction false} ReadTimestampAbsent(g: string, t: string)
    requires AllBlank(g) && (t == [] || !IsBlank(t[0])) && Double(t).Error?
    ensures ReadTimestamp(g + t) == Ok(None, g + t)
  {
    BlanksBefore(g, t);
  }

  /** Digits followed by an `e` with no exponent digits make `read_timestamp`
      fail outright: the `cut` in the exponent is not caught by `opt`. */
  lemma {:induction false} ReadTimestampCut(g: string, d: string, t: string)
    requires AllBlank(g) && d != [] && AllDigits(d)
    requires t == [] || (!IsDigit(t[0]) && !IsSign(t[0]))
    ensures ReadTimestamp(g + (d + ("e" + t))).Failure?
  {
    var x := d + ("e" + t);
    assert x[0] == d[0];
    BlanksBefore(g, x);
    FloatCut(d, t);
    assert Double(x).Failure?;
  }

  /** `recognize_float` fails outright on digits and an `e` without digits. */
  lemma {:induction false} FloatCut(d: string, t: string)
    requires d != [] && AllDigits(d)
    requires t == [] || (!IsDigit(t[0]) && !IsSign(t[0]))
    ensures RecognizeFloat(d + ("e" + t)).Failure?
  {
    var x := d + ("e" + t);
    assert x[0] == d[0];
    MantissaOfDigits(d, "e" + t);
    ExponentCut(t);
    assert OptSign(x) == (false, x);
  }

  /** An `e` followed by neither a sign nor a digit is the `cut` case. */
  lemma {:induction false} ExponentCut(t: string)
    requires t == [] || (!IsDigit(t[0]) && !IsSign(t[0]))
    ensures Exponent("e" + t).Failure?
  {
    PartsOfConcat("e", t);
    TakeWhileUnique(IsDigit, [], t);
    AppendEmpty(t);
  }

  // ---------------------------------------------------------------------------
  // The cases of `test_read_value` and `test_read_timestamp`; the `...Texts`
  // lemmas only spell out the literals.

  lemma {:induction false} NoValueExamples()
    ensures ReadValue("").Error? && ReadValue(" ").Error?
  {
    AppendEmpty(" ");
    BlanksBefore(" ", "");
  }

  lemma {:induction false} InfinityExamples()
    ensures ReadValue("+Inf ") == Ok(PosInf, " ")
    ensures ReadValue(" -Inf  1234") == Ok(NegInf, "  1234")
  {
    InfinityTexts();
    ReadValuePosInf("", " ");
    ReadValueNegInf(" ", "  1234");
  }

  lemma {:induction false} InfinityTexts()
    ensures "" + ("+Inf" + " ") == "+Inf " && " " + ("-Inf" + "  1234") == " -Inf  1234"
    ensures AllBlank("") && AllBlank(" ")
  {
  }

  /** A literal with a point, after blanks. */
  lemma {:induction false} ReadPointValueOf(g: string, sign: string, i: string, f: string, t: string)
    requires AllBlank(g) && (sign == "" || sign == "+" || sign == "-")
    requires AllDigits(i) && AllDigits(f) && (i != [] || f != [])
    requires t == [] || (!IsDigit(t[0]) && t[0] != 'e' && t[0] != 'E')
    ensures ReadValue(g + (sign + (i + ("." + (f + t))))) ==
      Ok(Finite(sign == "-", DigitsValue(i + f), |f|, 0), t)
  {
    RecognizePointOf(sign, i, f, t);
    ReadValueOfLiteral(g, sign + (i + ("." + (f + t))));
  }

  /** A literal with a point and an exponent, after blanks. */
  lemma {:induction false} ReadScientificValueOf(g: string, sign: string, i: string, f: string, expSign: string, e: string, t: string)
    requires AllBlank(g) && (sign == "" || sign == "+" || sign == "-")
    requires expSign == "" || expSign == "+" || expSign == "-"
    requires AllDigits(i) && AllDigits(f) && (i != [] || f != [])
    requires e != [] && AllDigits(e) && (t == [] || !IsDigit(t[0]))
    ensures ReadValue(g + (sign + (i + ("." + (f + ("e" + (expSign + (e + t)))))))) ==
      Ok(Finite(sign == "-", DigitsValue(i + f), |f|, if expSign == "-" then -(DigitsValue(e) as int) else DigitsValue(e)), t)
  {
    RecognizeScientificOf(sign, i, f, expSign, e, t);
    ReadValueOfLiteral(g, sign + (i + ("." + (f + ("e" + (expSign + (e + t)))))));
  }

  /** Digits and an exponent without a point, after blanks. */
  lemma {:induction false} ReadExponentValueOf(g: string, sign: string, i: string, mark: string, expSign: string, e: string, t: string)
    requires AllBlank(g) && (sign == "" || sign == "+" || sign == "-")
    requires mark == "e" || mark == "E"
    requires expSign == "" || expSign == "+" || expSign == "-"
    requires i != [] && AllDigits(i)
    requires e != [] && AllDigits(e) && (t == [] || !IsDigit(t[0]))
    ensures ReadValue(g + (sign + (i + (mark + (expSign + (e + t)))))) ==
      Ok(Finite(sign == "-", DigitsValue(i), 0, if expSign == "-" then -(DigitsValue(e) as int) else DigitsValue(e)), t)
  {
    RecognizeExponentOf(sign, i, mark, expSign, e, t);
    ReadValueOfLiteral(g, sign + (i + (mark + (expSign + (e + t)))));
  }

  lemma {:induction false} PointExamples()
    ensures ReadValue(" +154.0") == Ok(Finite(false, 1540, 1, 0), "")
    ensures ReadValue("-1500.0 ") == Ok(Finite(true, 15000, 1, 0), " ")
    ensures RealValue(Finite(false, 1540, 1, 0)) == 154.0
    ensures RealValue(Finite(true, 15000, 1, 0)) == -1500.0
  {
    PointTexts();
    ReadPointValueOf(" ", "+", "154", "0", "");
    ReadPointValueOf("", "-", "1500", "0", " ");
    TenthsValues();
  }

  lemma {:induction false} TenthsValues()
    ensures RealValue(Finite(false, 1540, 1, 0)) == 154.0
    ensures RealValue(Finite(true, 15000, 1, 0)) == -1500.0
  {
    assert Pow10(1) == 10;
    assert 1540.0 / 10.0 == 154.0;
    assert 15000.0 / 10.0 == 1500.0;
  }

  lemma {:induction false} PointTexts()
    ensures " " + ("+" + ("154" + ("." + ("0" + "")))) == " +154.0"
    ensures "" + ("-" + ("1500" + ("." + ("0" + " ")))) == "-1500.0 "
    ensures AllDigits("154") && AllDigits("1500") && AllDigits("0") && AllBlank(" ") && AllBlank("")
    ensures DigitsValue("154" + "0") == 1540 && DigitsValue("1500" + "0") == 15000
  {
    assert "154" + "0" == "1540";
    assert "1500" + "0" == "15000";
    DigitsOf4();
  }

  lemma {:induction false} DigitsOf4()
    ensures DigitsValue("1540") == 1540 && DigitsValue("15000") == 15000
  {
    assert "1540"[..3] == "154" && "154"[..2] == "15" && "15"[..1] == "1" && "1"[..0] == "";
    assert "15000"[..4] == "1500" && "1500"[..3] == "150" && "150"[..2] == "15";
  }

  lemma {:induction false} ScientificExamples()
    ensures ReadValue("1.5e-03 5") == Ok(Finite(false, 15, 1, -3), " 5")
    ensures ReadValue("-1.7560473e+07") == Ok(Finite(true, 17560473, 7, 7), "")
    ensures RealValue(Finite(false, 15, 1, -3)) == 0.0015
    ensures RealValue(Finite(true, 17560473, 7, 7)) == -17560473.0
  {
    ScientificTexts();
    ReadScientificValueOf("", "", "1", "5", "-", "03", " 5");
    ReadScientificValueOf("", "-", "1", "7560473", "+", "07", "");
    assert Pow10(4) == 10000;
  }

  lemma {:induction false} ScientificTexts()
    ensures "" + ("" + ("1" + ("." + ("5" + ("e" + ("-" + ("03" + " 5"))))))) == "1.5e-03 5"
    ensures "" + ("-" + ("1" + ("." + ("7560473" + ("e" + ("+" + ("07" + ""))))))) == "-1.7560473e+07"
    ensures AllDigits("1") && AllDigits("5") && AllDigits("03") && AllDigits("7560473") && AllDigits("07")
    ensures DigitsValue("1" + "5") == 15 && DigitsValue("03") == 3 && DigitsValue("07") == 7
    ensures DigitsValue("1" + "7560473") == 17560473 && AllBlank("")
  {
    assert "1" + "5" == "15" && "15"[..1] == "1";
    assert "03"[..1] == "0" && "07"[..1] == "0";
    assert "1" + "7560473" == "17560473";
    LongDigits();
  }

  lemma {:induction false} LongDigits()
    ensures DigitsValue("17560473") == 17560473
  {
    assert "17560473"[..7] == "1756047" && "1756047"[..6] == "175604" && "175604"[..5] == "17560";
    assert "17560"[..4] == "1756" && "1756"[..3] == "175" && "175"[..2] == "17" && "17"[..1] == "1";
  }

  lemma {:induction false} TimestampExamples()
    ensures ReadTimestamp("") == Ok(None, "")
    ensures ReadTimestamp(" 1") == Ok(Some(1), "")
    ensures ReadTimestamp("    ") == Ok(None, "    ")
    ensures ReadTimestamp("123456789") == Ok(Some(123456789), "")
    ensures ReadTimestamp("-987654321 5") == Ok(Some(-987654321), " 5")
  {
    UnitTexts();
    AscendingTexts();
    DescendingTexts();
    ReadTimestampAbsent("    ", "");
    ReadTimestampOf(" ", 1, "");
    ReadTimestampOf("", 123456789, "");
    ReadTimestampOf("", -987654321, " 5");
  }

  lemma {:induction false} UnitTexts()
    ensures " " + (IntegerText(1) + "") == " 1" && "    " + "" == "    "
    ensures AllBlank("    ") && AllBlank(" ") && AllBlank("")
  {
    assert DecimalDigits(1) == "1";
  }

  lemma {:induction false} AscendingTexts()
    ensures "" + (IntegerText(123456789) + "") == "123456789"
  {
    AscendingDigits();
    assert IntegerText(123456789) == "123456789";
  }

  lemma {:induction false} DescendingTexts()
    ensures "" + (IntegerText(-987654321) + " 5") == "-987654321 5"
  {
    DescendingDigits();
    assert IntegerText(-987654321) == "-" + "987654321";
  }

  lemma {:induction false} AscendingDigits()
    ensures DecimalDigits(123456789) == "123456789"
  {
    assert DecimalDigits(12) == "12";
    assert DecimalDigits(123) == "123";
    assert DecimalDigits(1234) == "1234";
    assert DecimalDigits(12345) == "12345";
    assert DecimalDigits(123456) == "123456";
    assert DecimalDigits(1234567) == "1234567";
    assert DecimalDigits(12345678) == "12345678";
  }

  lemma {:induction false} DescendingDigits()
    ensures DecimalDigits(987654321) == "987654321"
  {
    assert DecimalDigits(98) == "98";
    assert DecimalDigits(987) == "987";
    assert DecimalDigits(9876) == "9876";
    assert DecimalDigits(98765) == "98765";
    assert DecimalDigits(987654) == "987654";
    assert DecimalDigits(9876543) == "9876543";
    assert DecimalDigits(98765432) == "98765432";
  }

  /** Digits and an exponent without a point, in either case of `e`. */
  lemma {:induction false} ExponentExamples()
    ensures ReadValue("1e3") == Ok(Finite(false, 1, 0, 3), "")
    ensures ReadValue(" -2E-5 ") == Ok(Finite(true, 2, 0, -5), " ")
    ensures RealValue(Finite(false, 1, 0, 3)) == 1000.0
    ensures RealValue(Finite(true, 2, 0, -5)) == -0.00002
  {
    ExponentTexts();
    ReadExponentValueOf("", "", "1", "e", "", "3", "");
    ReadExponentValueOf(" ", "-", "2", "E", "-", "5", " ");
    ExponentValues();
  }

  lemma {:induction false} ExponentValues()
    ensures RealValue(Finite(false, 1, 0, 3)) == 1000.0
    ensures RealValue(Finite(true, 2, 0, -5)) == -0.00002
  {
    assert Pow10(3) == 1000;
    assert Pow10(5) == 100000;
  }

  lemma {:induction false} ExponentTexts()
    ensures "" + ("" + ("1" + ("e" + ("" + ("3" + ""))))) == "1e3"
    ensures " " + ("-" + ("2" + ("E" + ("-" + ("5" + " "))))) == " -2E-5 "
    ensures AllDigits("1") && AllDigits("3") && AllDigits("2") && AllDigits("5") && AllBlank("") && AllBlank(" ")
    ensures DigitsValue("1") == 1 && DigitsValue("3") == 3 && DigitsValue("2") == 2 && DigitsValue("5") == 5
  {
    assert "1"[..0] == "" && "3"[..0] == "" && "2"[..0] == "" && "5"[..0] == "";
  }

  /** A timestamp with a fraction or an exponent is truncated toward zero. */
  lemma {:induction false} FractionalTimestampExamples()
    ensures ReadTimestamp(" 1.9") == Ok(Some(1), "")
    ensures ReadTimestamp(" -1.9") == Ok(Some(-1), "")
    ensures ReadTimestamp(" 1.5e3") == Ok(Some(1500), "")
  {
    FractionalTexts();
    RecognizePointOf("", "1", "9", "");
    RecognizePointOf("-", "1", "9", "");
    RecognizeScientificOf("", "1", "5", "", "3", "");
    FractionalValues();
    ReadTimestampOfLiteral(" ", "1.9");
    ReadTimestampOfLiteral(" ", "-1.9");
    ReadTimestampOfLiteral(" ", "1.5e3");
  }

  lemma {:induction false} FractionalTexts()
    ensures "" + ("1" + ("." + ("9" + ""))) == "1.9"
    ensures "-" + ("1" + ("." + ("9" + ""))) == "-1.9"
    ensures "" + ("1" + ("." + ("5" + ("e" + ("" + ("3" + "")))))) == "1.5e3"
    ensures " " + "1.9" == " 1.9" && " " + "-1.9" == " -1.9" && " " + "1.5e3" == " 1.5e3"
    ensures AllDigits("1") && AllDigits("9") && AllDigits("5") && AllDigits("3") && AllBlank(" ")
    ensures DigitsValue("1" + "9") == 19 && DigitsValue("1" + "5") == 15 && DigitsValue("3") == 3
  {
    assert "1" + "9" == "19" && "19"[..1] == "1" && "1"[..0] == "";
    assert "1" + "5" == "15" && "15"[..1] == "1" && "3"[..0] == "";
  }

  lemma {:induction false} FractionalValues()
    ensures RealValue(Finite(false, 19, 1, 0)) == 1.9
    ensures RealValue(Finite(true, 19, 1, 0)) == -1.9
    ensures RealValue(Finite(false, 15, 1, 3)) == 1500.0
  {
    assert Pow10(1) == 10 && Pow10(2) == 100;
  }

  /** A sign, a point or a word that is not a number: no timestamp. */
  lemma {:induction false} NoNumberTimestampExamples()
    ensures ReadTimestamp(" -") == Ok(None, " -")
    ensures ReadTimestamp(" .") == Ok(None, " .")
    ensures ReadTimestamp(" note") == Ok(None, " note")
  {
    NoNumberTexts();
    ReadTimestampAbsent(" ", "-");
    ReadTimestampAbsent(" ", ".");
    ReadTimestampAbsent(" ", "note");
  }

  lemma {:induction false} NoNumberTexts()
    ensures " " + "-" == " -" && " " + "." == " ." && " " + "note" == " note" && AllBlank(" ")
    ensures Double("-").Error? && Double(".").Error? && Double("note").Error?
  {
    LoneSignIsNoNumber();
    LonePointIsNoNumber();
    WordIsNoNumber();
  }

  lemma {:induction false} LoneSignIsNoNumber()
    ensures Double("-").Error?
  {
    assert OptSign("-") == (true, "");
    assert Mantissa("").Error?;
    assert !TagNoCase("nan", "-").Ok? && !TagNoCase("inf", "-").Ok? && !TagNoCase("infinity", "-").Ok?;
  }

  lemma {:induction false} LonePointIsNoNumber()
    ensures Double(".").Error?
  {
    assert TakeWhile(IsDigit, ".") == ([], ".");
    assert TakeWhile(IsDigit, "") == ([], "");
    assert Mantissa(".").Error?;
    assert !TagNoCase("nan", ".").Ok? && !TagNoCase("inf", ".").Ok? && !TagNoCase("infinity", ".").Ok?;
  }

  lemma {:induction false} WordIsNoNumber()
    ensures Double("note").Error?
  {
    assert TakeWhile(IsDigit, "note") == ([], "note");
    assert Mantissa("note").Error?;
    assert RecognizeFloat("note").Error?;
    assert LowerAscii("nan"[1]) != LowerAscii("note"[..3][1]);
    assert TagNoCase("nan", "note").Error?;
    assert LowerAscii("inf"[0]) != LowerAscii("note"[..3][0]);
    assert TagNoCase("inf", "note").Error?;
    assert |"infinity"| > |"note"|;
    assert TagNoCase("infinity", "note").Error?;
    assert SpecialValue("note").Error?;
  }

  /** `2e` is not a timestamp but a broken number. */
  lemma {:induction false} BrokenTimestampExample()
    ensures ReadTimestamp(" 2e").Failure?
  {
    assert " " + ("2" + ("e" + "")) == " 2e";
    ReadTimestampCut(" ", "2", "");
  }
}
