/** The cases of `test_read_comment_line`, `test_read_metric_line` and the
    examples of `try_read_sample` and `try_read_comment`, each an instance of
    the general lemmas about lines. The `...Texts` lemmas only spell out the
    literals. */
module LineExamples {
  import opened Combinators
  import opened Number
  import opened Labels
  import opened LineParser
  import opened StringFacts
  import opened LabelFacts
  import opened ValueFacts
  import opened LineFacts

  // ---------------------------------------------------------------------------
  // Comment lines.

  /** An unknown keyword is not a comment. */
  lemma {:induction false} UnknownKeywordExample()
    ensures ReadCommentLine("# alfa").Error?
  {
    assert "# alfa"[1..] == " " + "alfa";
    BlanksBefore(" ", "alfa");
    CommentNeedsKeyword("# alfa");
  }

  /** The text of a comment line, read from the left. */
  lemma {:induction false} CommentTextFromLeft(g1: string, kw: string, g2: string, name: string,
                                               g3: string, desc: string, t: string)
    ensures "#" + (g1 + (kw + (g2 + (name + (g3 + (desc + t))))))
         == (((((("#" + g1) + kw) + g2) + name) + g3) + desc) + t
  {
  }

  /** The keyword alone: no name and no text. */
  lemma {:induction false} BareHelpExample()
    ensures ReadCommentLine("# HELP") == Ok(Comment("", HELP, ""), "")
  {
    CommentTextFromLeft(" ", "HELP", "", "", "", "", "");
    BareHelpSpelled();
    PlainWords();
    ReadCommentLineOf(" ", HELP, "", "", "", "", "");
  }

  lemma {:induction false} BareHelpSpelled()
    ensures (((((("#" + " ") + "HELP") + "") + "") + "") + "") + ""
         == "# HELP"
  {
  }

  /** The blanks, names and texts of the comment examples. */
  lemma {:induction false} PlainWords()
    ensures AllBlank("") && AllBlank(" ") && AllBlank("    ") && AllBlank("     ")
    ensures IsName("") && IsName("alfa") && IsName("test1") && IsName(CpuName)
    ensures NoLineBreak("") && IsLineEnd("")
  {
  }

  const CpuName := "node_cpu_seconds_total"
  const CpuHelp := "Seconds the CPUs spent in each mode."

  /** A help text after the name. */
  lemma {:induction false} HelpExample()
    ensures ReadCommentLine("# HELP node_cpu_seconds_total Seconds the CPUs spent in each mode.")
         == Ok(Comment(CpuName, HELP, CpuHelp), "")
  {
    CommentTextFromLeft(" ", "HELP", " ", CpuName, " ", CpuHelp, "");
    HelpSpelled();
    PlainWords();
    HelpWords();
    ReadCommentLineOf(" ", HELP, " ", CpuName, " ", CpuHelp, "");
  }

  lemma {:induction false} HelpWords()
    ensures NoLineBreak(CpuHelp) && !IsBlank(CpuHelp[0])
  {
  }

  lemma {:induction false} HelpSpelled()
    ensures (((((("#" + " ") + "HELP") + " ") + "node_cpu_seconds_total") + " ") + "Seconds the CPUs spent in each mode.") + ""
         == "# HELP node_cpu_seconds_total Seconds the CPUs spent in each mode."
  {
    HelpSpelled1();
    HelpSpelled2();
    HelpSpelled3();
  }

  lemma {:induction false} HelpSpelled1()
    ensures (("#" + " ") + "HELP") + " " == "# HELP "
  {
  }

  lemma {:induction false} HelpSpelled2()
    ensures ("# HELP " + "node_cpu_seconds_total") + " " == "# HELP node_cpu_seconds_total "
  {
  }

  lemma {:induction false} HelpSpelled3()
    ensures ("# HELP node_cpu_seconds_total " + "Seconds the CPUs spent in each mode.") + "" == "# HELP node_cpu_seconds_total Seconds the CPUs spent in each mode."
  {
  }

  /** Blanks of any length around the keyword. */
  lemma {:induction false} TypeExample()
    ensures ReadCommentLine("#    TYPE     node_cpu_seconds_total counter")
         == Ok(Comment(CpuName, TYPE, "counter"), "")
  {
    CommentTextFromLeft("    ", "TYPE", "     ", CpuName, " ", "counter", "");
    TypeSpelled();
    PlainWords();
    assert NoLineBreak("counter") && !IsBlank("counter"[0]);
    ReadCommentLineOf("    ", TYPE, "     ", CpuName, " ", "counter", "");
  }

  lemma {:induction false} TypeSpelled()
    ensures (((((("#" + "    ") + "TYPE") + "     ") + "node_cpu_seconds_total") + " ") + "counter") + ""
         == "#    TYPE     node_cpu_seconds_total counter"
  {
    TypeSpelled1();
    TypeSpelled2();
    TypeSpelled3();
  }

  lemma {:induction false} TypeSpelled1()
    ensures (("#" + "    ") + "TYPE") + "     " == "#    TYPE     "
  {
  }

  lemma {:induction false} TypeSpelled2()
    ensures ("#    TYPE     " + "node_cpu_seconds_total") + " " == "#    TYPE     node_cpu_seconds_total "
  {
  }

  lemma {:induction false} TypeSpelled3()
    ensures ("#    TYPE     node_cpu_seconds_total " + "counter") + "" == "#    TYPE     node_cpu_seconds_total counter"
  {
  }

  /** A name and no text. */
  lemma {:induction false} NameOnlyHelpExample()
    ensures ReadCommentLine("#    HELP     alfa") == Ok(Comment("alfa", HELP, ""), "")
  {
    CommentTextFromLeft("    ", "HELP", "     ", "alfa", "", "", "");
    NameOnlyHelpSpelled();
    PlainWords();
    ReadCommentLineOf("    ", HELP, "     ", "alfa", "", "", "");
  }

  lemma {:induction false} NameOnlyHelpSpelled()
    ensures (((((("#" + "    ") + "HELP") + "     ") + "alfa") + "") + "") + ""
         == "#    HELP     alfa"
  {
  }

  /** The example of `try_read_comment`. */
  lemma {:induction false} TryReadCommentExample()
    ensures TryReadComment("# HELP test1 this is a test") == Some(Comment("test1", HELP, "this is a test"))
  {
    CommentTextFromLeft(" ", "HELP", " ", "test1", " ", "this is a test", "");
    TryReadCommentSpelled();
    PlainWords();
    assert NoLineBreak("this is a test") && !IsBlank("this is a test"[0]);
    ReadCommentLineOf(" ", HELP, " ", "test1", " ", "this is a test", "");
  }

  lemma {:induction false} TryReadCommentSpelled()
    ensures (((((("#" + " ") + "HELP") + " ") + "test1") + " ") + "this is a test") + ""
         == "# HELP test1 this is a test"
  {
    TryReadCommentSpelled1();
    TryReadCommentSpelled2();
  }

  lemma {:induction false} TryReadCommentSpelled1()
    ensures (((("#" + " ") + "HELP") + " ") + "test1") + " " == "# HELP test1 "
  {
  }

  lemma {:induction false} TryReadCommentSpelled2()
    ensures ("# HELP test1 " + "this is a test") + "" == "# HELP test1 this is a test"
  {
  }

  /** A sample line is not a comment. */
  lemma {:induction false} SampleIsNoCommentExample()
    ensures TryReadComment("metric 12345").None?
  {
    CommentNeedsKeyword("metric 12345");
  }

  // ---------------------------------------------------------------------------
  // Sample lines.

  /** A comment line without a keyword is not a sample either: it has no
      name, no block, and `#` is not a value. */
  lemma {:induction false} CommentIsNoSampleExample()
    ensures TryReadSample("# test").None?
  {
    var s := "# test";
    assert s[0] == '#';
    NoNameAt(s);
    Space0Stops(s);
    assert ReadLabel(s) == Ok(map[], s);
    SampleNeedsValue(s, [], s, map[], s);
  }

  /** A tight label pair: no blanks anywhere. */
  function TightPair(name: string, body: string): (w: WrittenPair)
    ensures w.name == name && w.body == body
  {
    WrittenPair("", "", name, "", "", body)
  }

  /** A tight pair as text: the name, `="`, the body and the closing quote. */
  lemma {:induction false} TightPairText(n: string, b: string, rest: string)
    ensures PairText(TightPair(n, b), rest) == n + ("=\"" + (b + ("\"" + rest)))
  {
    assert "=" + ("" + ("\"" + (b + ("\"" + rest)))) == "=\"" + (b + ("\"" + rest));
  }

  /** A closing quote followed by one more token. */
  lemma {:induction false} QuoteThen(c: string, y: string)
    ensures "\"" + ("" + (c + y)) == ("\"" + c) + y
  {
    Associative("\"", c, y);
    AppendEmpty(c + y);
  }

  /** The text of a sample line with one tight label pair, read from the left. */
  lemma {:induction false} OneLabelLineFromLeft(metric: string, n: string, b: string, x: string)
    ensures "" + (metric + BlockText("", [TightPair(n, b)], "", x))
         == (((((metric + "{") + n) + "=\"") + b) + "\"}") + x
  {
    var end := "" + ("}" + x);
    ListTextOne(TightPair(n, b), end);
    TightPairText(n, b, end);
    QuoteThen("}", x);
    var q := n + ("=\"" + (b + ("\"}" + x)));
    assert BlockText("", [TightPair(n, b)], "", x) == "" + ("{" + q);
    LeftNest6(metric, "{", n, "=\"", b, "\"}", x);
  }

  lemma {:induction false} LeftNest6(a0: string, a1: string, a2: string, a3: string, a4: string, a5: string, x: string)
    ensures "" + (a0 + ("" + (a1 + (a2 + (a3 + (a4 + (a5 + x)))))))
         == (((((a0 + a1) + a2) + a3) + a4) + a5) + x
  {
    AppendEmpty(a1 + (a2 + (a3 + (a4 + (a5 + x)))));
    AppendEmpty(a0 + (a1 + (a2 + (a3 + (a4 + (a5 + x))))));
    Associative(a0, a1, a2 + (a3 + (a4 + (a5 + x))));
    Associative(a0 + a1, a2, a3 + (a4 + (a5 + x)));
    Associative((a0 + a1) + a2, a3, a4 + (a5 + x));
    Associative(((a0 + a1) + a2) + a3, a4, a5 + x);
    Associative((((a0 + a1) + a2) + a3) + a4, a5, x);
  }

  /** The text of a sample line with two tight label pairs, read from the left. */
  lemma {:induction false} TwoLabelLineFromLeft(metric: string, n1: string, b1: string, n2: string, b2: string, x: string)
    ensures "" + (metric + BlockText("", [TightPair(n1, b1), TightPair(n2, b2)], "", x))
         == (((((((((metric + "{") + n1) + "=\"") + b1) + "\",") + n2) + "=\"") + b2) + "\"}") + x
  {
    var end := "" + ("}" + x);
    ListTextTwo(TightPair(n1, b1), TightPair(n2, b2), end);
    TightPairText(n2, b2, end);
    QuoteThen("}", x);
    var q2 := n2 + ("=\"" + (b2 + ("\"}" + x)));
    TightPairText(n1, b1, "" + ("," + q2));
    QuoteThen(",", q2);
    var q1 := n1 + ("=\"" + (b1 + ("\"," + q2)));
    assert BlockText("", [TightPair(n1, b1), TightPair(n2, b2)], "", x) == "" + ("{" + q1);
    LeftNest10(metric, "{", n1, "=\"", b1, "\",", n2, "=\"", b2, "\"}", x);
  }

  lemma {:induction false} LeftNest10(a0: string, a1: string, a2: string, a3: string, a4: string, a5: string,
                                      a6: string, a7: string, a8: string, a9: string, x: string)
    ensures "" + (a0 + ("" + (a1 + (a2 + (a3 + (a4 + (a5 + (a6 + (a7 + (a8 + (a9 + x)))))))))))
         == (((((((((a0 + a1) + a2) + a3) + a4) + a5) + a6) + a7) + a8) + a9) + x
  {
    var r6 := a6 + (a7 + (a8 + (a9 + x)));
    LeftNest6(a0, a1, a2, a3, a4, a5, r6);
    var l := ((((a0 + a1) + a2) + a3) + a4) + a5;
    Associative(l, a6, a7 + (a8 + (a9 + x)));
    Associative(l + a6, a7, a8 + (a9 + x));
    Associative((l + a6) + a7, a8, a9 + x);
    Associative(((l + a6) + a7) + a8, a9, x);
  }

  /** Label names and plain label values of the sample examples. */
  lemma {:induction false} PlainLabels()
    ensures IsName("problem") && IsName("method") && IsName("code")
    ensures IsName("something_weird") && IsName("http_requests_total")
    ensures AllBlank("") && AllBlank(" ")
  {
  }

  const Problem := TightPair("problem", "division by zero")

  /** The line of `test_read_metric_line`: a label, `+Inf` and a negative
      timestamp. */
  lemma {:induction false} WeirdSampleExample()
    ensures ReadSampleLine("something_weird{problem=\"division by zero\"} +Inf -3982045")
         == Ok(Sample("something_weird", map["problem" := "division by zero"], PosInf, Some(-3982045)), "")
  {
    var x := " +Inf -3982045";
    OneLabelLineFromLeft("something_weird", "problem", "division by zero", x);
    WeirdSpelled();
    WeirdValueTexts();
    WeirdSampleLabels();
    PlainLabels();
    ReadValuePosInf(" ", " -3982045");
    ReadTimestampOf(" ", -3982045, "");
    ReadSampleLineOf("", "something_weird", "", [Problem], "", x, PosInf, " -3982045", Some(-3982045), "");
  }

  /** A line may start with its label block: the name is then empty. */
  lemma {:induction false} NoNameExample()
    ensures ReadSampleLine("{a=\"1\"} +Inf") == Ok(Sample("", map["a" := "1"], PosInf, None), "")
  {
    var x := " +Inf";
    OneLabelLineFromLeft("", "a", "1", x);
    NoNameSpelled();
    NoNameLabels();
    ReadValuePosInf(" ", "");
    ReadTimestampAbsent("", "");
    ReadSampleLineOf("", "", "", [TightPair("a", "1")], "", x, PosInf, "", None, "");
  }

  lemma {:induction false} NoNameSpelled()
    ensures ((((("" + "{") + "a") + "=\"") + "1") + "\"}") + " +Inf" == "{a=\"1\"} +Inf"
    ensures " " + ("+Inf" + "") == " +Inf" && "" + "" == ""
  {
  }

  lemma {:induction false} NoNameLabels()
    ensures AllWellWritten([TightPair("a", "1")]) && IsName("") && AllBlank("") && AllBlank(" ")
    ensures LabelMap(Values([TightPair("a", "1")])) == map["a" := "1"]
  {
    PlainBody("1");
    assert IsName("a");
    OneTightPair("a", "1");
  }

  /** A line may also start with its value, when that value cannot continue
      a name: a name, and labels, that are both empty. */
  lemma {:induction false} NoNameNoLabelsExample()
    ensures ReadSampleLine("-Inf 7") == Ok(Sample("", map[], NegInf, Some(7)), "")
  {
    NoNameNoLabelsTexts();
    ReadValueNegInf("", " 7");
    ReadTimestampOf(" ", 7, "");
    ReadSampleLineNoLabels("", "", "-Inf 7", NegInf, " 7", Some(7), "");
  }

  lemma {:induction false} NoNameNoLabelsTexts()
    ensures "" + ("-Inf" + " 7") == "-Inf 7" && " " + (IntegerText(7) + "") == " 7"
    ensures "" + ("" + "-Inf 7") == "-Inf 7" && Space0("-Inf 7") == "-Inf 7"
    ensures AllBlank("") && AllBlank(" ") && IsName("")
  {
    assert DecimalDigits(7) == "7";
    Space0Stops("-Inf 7");
  }

  lemma {:induction false} WeirdSpelled()
    ensures ((((("something_weird" + "{") + "problem") + "=\"") + "division by zero") + "\"}") + " +Inf -3982045"
         == "something_weird{problem=\"division by zero\"} +Inf -3982045"
  {
    WeirdSpelled1();
    WeirdSpelled2();
    WeirdSpelled3();
  }

  lemma {:induction false} WeirdSpelled1()
    ensures (("something_weird" + "{") + "problem") + "=\"" == "something_weird{problem=\""
  {
  }

  lemma {:induction false} WeirdSpelled2()
    ensures ("something_weird{problem=\"" + "division by zero") + "\"}" == "something_weird{problem=\"division by zero\"}"
  {
  }

  lemma {:induction false} WeirdSpelled3()
    ensures "something_weird{problem=\"division by zero\"}" + " +Inf -3982045" == "something_weird{problem=\"division by zero\"} +Inf -3982045"
  {
  }

  lemma {:induction false} WeirdValueTexts()
    ensures " " + ("+Inf" + " -3982045") == " +Inf -3982045"
    ensures " " + (IntegerText(-3982045) + "") == " -3982045"
  {
    WeirdDigits();
  }

  lemma {:induction false} WeirdDigits()
    ensures IntegerText(-3982045) == "-3982045"
  {
    assert DecimalDigits(39) == "39";
    assert DecimalDigits(398) == "398";
    assert DecimalDigits(3982) == "3982";
    assert DecimalDigits(39820) == "39820";
    assert DecimalDigits(398204) == "398204";
    assert DecimalDigits(3982045) == "3982045";
  }

  lemma {:induction false} WeirdSampleLabels()
    ensures AllWellWritten([Problem])
    ensures LabelMap(Values([Problem])) == map["problem" := "division by zero"]
  {
    DivisionByZeroBody();
    PlainLabels();
    OneTightPair("problem", "division by zero");
  }

  /** A single tight pair is well written and gives a one-entry label set. */
  lemma {:induction false} OneTightPair(n: string, b: string)
    requires IsName(n) && IsQuotedBody(b)
    ensures AllWellWritten([TightPair(n, b)])
    ensures LabelMap(Values([TightPair(n, b)])) == map[n := Unescape(b)]
  {
    var ps := Values([TightPair(n, b)]);
    assert ps == [(n, Unescape(b))];
    assert ps[..0] == [];
  }

  lemma {:induction false} DivisionByZeroBody()
    ensures IsQuotedBody("division by zero") && Unescape("division by zero") == "division by zero"
  {
    assert '\\' !in "division by zero" && '"' !in "division by zero";
    PlainBody("division by zero");
  }

  const Method := TightPair("method", "post")
  const Code := TightPair("code", "200")
  const HttpLine := "http_requests_total{method=\"post\",code=\"200\"} 1.5e3 1395066363000"
  const HttpLabels := map["method" := "post", "code" := "200"]

  /** The example of `try_read_sample`: two labels, a value in scientific
      notation worth 1500 and a timestamp. Both labels are found by name. */
  lemma {:induction false} TryReadSampleExample()
    ensures TryReadSample(HttpLine) == Some(Sample("http_requests_total", HttpLabels, Finite(false, 15, 1, 3), Some(1395066363000)))
    ensures RealValue(Finite(false, 15, 1, 3)) == 1500.0
    ensures GetString(HttpLabels, "method") == Some("post")
    ensures GetString(HttpLabels, "code") == Some("200")
  {
    HttpSampleLine();
    HttpMeaning();
  }

  lemma {:induction false} HttpMeaning()
    ensures RealValue(Finite(false, 15, 1, 3)) == 1500.0
    ensures GetString(HttpLabels, "method") == Some("post")
    ensures GetString(HttpLabels, "code") == Some("200")
  {
    assert Pow10(2) == 100;
    assert "method" in HttpLabels && "code" in HttpLabels;
  }

  lemma {:induction false} HttpSampleLine()
    ensures ReadSampleLine(HttpLine) == Ok(Sample("http_requests_total", HttpLabels, Finite(false, 15, 1, 3), Some(1395066363000)), "")
  {
    var x := " 1.5e3 1395066363000";
    var y := " 1395066363000";
    HttpLineText();
    HttpLabelsOf();
    HttpValue();
    HttpTimestamp();
    PlainLabels();
    ReadSampleLineOf("", "http_requests_total", "", [Method, Code], "", x, Finite(false, 15, 1, 3), y, Some(1395066363000), "");
  }

  lemma {:induction false} HttpLineText()
    ensures "" + ("http_requests_total" + BlockText("", [Method, Code], "", " 1.5e3 1395066363000")) == HttpLine
  {
    TwoLabelLineFromLeft("http_requests_total", "method", "post", "code", "200", " 1.5e3 1395066363000");
    HttpSpelled();
  }

  lemma {:induction false} HttpSpelled()
    ensures ((((((((("http_requests_total" + "{") + "method") + "=\"") + "post") + "\",") + "code") + "=\"") + "200") + "\"}") + " 1.5e3 1395066363000"
         == "http_requests_total{method=\"post\",code=\"200\"} 1.5e3 1395066363000"
  {
    HttpSpelled1();
    HttpSpelled2();
    HttpSpelled3();
    HttpSpelled4();
  }

  lemma {:induction false} HttpSpelled1()
    ensures (("http_requests_total" + "{") + "method") + "=\"" == "http_requests_total{method=\""
  {
  }

  lemma {:induction false} HttpSpelled2()
    ensures ((("http_requests_total{method=\"" + "post") + "\",") + "code") + "=\"" == "http_requests_total{method=\"post\",code=\""
  {
  }

  lemma {:induction false} HttpSpelled3()
    ensures ("http_requests_total{method=\"post\",code=\"" + "200") + "\"}" == "http_requests_total{method=\"post\",code=\"200\"}"
  {
  }

  lemma {:induction false} HttpSpelled4()
    ensures "http_requests_total{method=\"post\",code=\"200\"}" + " 1.5e3 1395066363000" == "http_requests_total{method=\"post\",code=\"200\"} 1.5e3 1395066363000"
  {
  }

  lemma {:induction false} HttpValue()
    ensures ReadValue(" 1.5e3 1395066363000") == Ok(Finite(false, 15, 1, 3), " 1395066363000")
  {
    HttpValueTexts();
    ReadScientificValueOf(" ", "", "1", "5", "", "3", " 1395066363000");
  }

  lemma {:induction false} HttpValueTexts()
    ensures " " + ("" + ("1" + ("." + ("5" + ("e" + ("" + ("3" + " 1395066363000"))))))) == " 1.5e3 1395066363000"
    ensures AllDigits("1") && AllDigits("5") && AllDigits("3") && AllBlank(" ")
    ensures DigitsValue("1" + "5") == 15 && DigitsValue("3") == 3
  {
    assert "1" + "5" == "15" && "15"[..1] == "1";
  }

  lemma {:induction false} HttpTimestamp()
    ensures ReadTimestamp(" 1395066363000") == Ok(Some(1395066363000), "")
  {
    HttpTimestampText();
    ReadTimestampOf(" ", 1395066363000, "");
  }

  lemma {:induction false} HttpTimestampText()
    ensures " " + (IntegerText(1395066363000) + "") == " 1395066363000"
    ensures AllBlank(" ") && I64Min <= 1395066363000 <= I64Max
  {
    HttpDigits();
    HttpTimestampLiteral();
  }

  lemma {:induction false} HttpTimestampLiteral()
    ensures " " + ("1395066363000" + "") == " 1395066363000"
  {
  }

  lemma {:induction false} HttpDigits()
    ensures IntegerText(1395066363000) == "1395066363000"
  {
    assert DecimalDigits(13) == "13";
    assert DecimalDigits(139) == "139";
    assert DecimalDigits(1395) == "1395";
    assert DecimalDigits(13950) == "13950";
    assert DecimalDigits(139506) == "139506";
    assert DecimalDigits(1395066) == "1395066";
    assert DecimalDigits(13950663) == "13950663";
    assert DecimalDigits(139506636) == "139506636";
    assert DecimalDigits(1395066363) == "1395066363";
    assert DecimalDigits(13950663630) == "13950663630";
    assert DecimalDigits(139506636300) == "139506636300";
    assert DecimalDigits(1395066363000) == "1395066363000";
  }

  lemma {:induction false} HttpLabelsOf()
    ensures AllWellWritten([Method, Code])
    ensures LabelMap(Values([Method, Code])) == HttpLabels
  {
    PlainBody("post");
    PlainBody("200");
    PlainLabels();
    TwoTightPairs("method", "post", "code", "200");
  }

  /** Two tight pairs are well written and give the label set of both. */
  lemma {:induction false} TwoTightPairs(n1: string, b1: string, n2: string, b2: string)
    requires IsName(n1) && IsQuotedBody(b1) && IsName(n2) && IsQuotedBody(b2)
    ensures AllWellWritten([TightPair(n1, b1), TightPair(n2, b2)])
    ensures LabelMap(Values([TightPair(n1, b1), TightPair(n2, b2)])) == map[n1 := Unescape(b1), n2 := Unescape(b2)]
  {
    var ps := Values([TightPair(n1, b1), TightPair(n2, b2)]);
    assert ps == [(n1, Unescape(b1)), (n2, Unescape(b2))];
    assert ps[..1] == [ps[0]];
    assert ps[..1][..0] == [];
  }
}
