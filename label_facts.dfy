/** What `read_label` reads: a label block written with any blanks between its
    tokens yields the label set of its pairs, the same set as the block with
    the blanks removed; a block that ends in a comma yields nothing. */
module LabelFacts {
  import opened Combinators
  import opened Labels
  import opened LineParser
  import opened StringFacts

  /** One `name = "body"` pair of a label block as it is written. `sep` is
      the blanks in front of the comma that precedes the pair (it is not
      written for the first pair of a block); `lead`, `beforeEq` and
      `afterEq` are the blanks around the name and the `=`. */
  datatype WrittenPair = WrittenPair(
    sep: string, lead: string, name: string, beforeEq: string, afterEq: string, body: string)

  predicate WellWritten(w: WrittenPair) {
    AllBlank(w.sep) && AllBlank(w.lead) && AllBlank(w.beforeEq) && AllBlank(w.afterEq)
    && IsName(w.name) && IsQuotedBody(w.body)
  }

  predicate AllWellWritten(ws: seq<WrittenPair>) {
    forall i :: 0 <= i < |ws| ==> WellWritten(ws[i])
  }

  /** The text of one pair, followed by `rest`. */
  function PairText(w: WrittenPair, rest: string): string {
    w.lead + (w.name + (w.beforeEq + ("=" + (w.afterEq + ("\"" + (w.body + ("\"" + rest)))))))
  }

  /** The pairs after the first, each behind its comma, followed by `rest`. */
  function MoreText(ws: seq<WrittenPair>, rest: string): string {
    if ws == [] then rest else ws[0].sep + ("," + PairText(ws[0], MoreText(ws[1..], rest)))
  }

  /** The comma-separated pairs of a block, followed by `rest`. */
  function ListText(ws: seq<WrittenPair>, rest: string): string {
    if ws == [] then rest else PairText(ws[0], MoreText(ws[1..], rest))
  }

  /** A whole block with the blanks `open` before its `{` and `close` before
      its `}`, followed by `rest`. */
  function BlockText(open: string, ws: seq<WrittenPair>, close: string, rest: string): string {
    open + ("{" + ListText(ws, close + ("}" + rest)))
  }

  /** The label pairs a block denotes: each name with its collapsed body. */
  function Values(ws: seq<WrittenPair>): (ps: LabelPairs)
    ensures |ps| == |ws|
    ensures forall i :: 0 <= i < |ws| ==> ps[i] == (ws[i].name, Unescape(ws[i].body))
  {
    if ws == [] then [] else [(ws[0].name, Unescape(ws[0].body))] + Values(ws[1..])
  }

  /** The same pairs with every blank removed. */
  function Stripped(ws: seq<WrittenPair>): (vs: seq<WrittenPair>)
    ensures |vs| == |ws|
    ensures forall i :: 0 <= i < |ws| ==> vs[i] == WrittenPair("", "", ws[i].name, "", "", ws[i].body)
  {
    if ws == [] then [] else [WrittenPair("", "", ws[0].name, "", "", ws[0].body)] + Stripped(ws[1..])
  }

  // ---------------------------------------------------------------------------
  // One pair.

  /** A token behind blanks: `preceded(space0, terminated(tag(t), space0))`
      consumes the blanks, the token and the blanks after it. */
  lemma {:induction false} SpacedTagOf(g: string, t: string, x: string)
    requires AllBlank(g) && t != [] && !IsBlank(t[0])
    ensures SpacedTag(t, g + (t + x)) == Ok(t, Space0(x))
  {
    Space0Skips(g, t + x);
    Space0Stops(t + x);
    TagOf(t, x);
  }

  /** A pair starts with `read_variable_name`, which skips blanks first, so
      blanks already skipped change nothing. */
  lemma {:induction false} LabelPairAfterBlanks(x: string)
    ensures LabelPair(Space0(x)) == LabelPair(x)
  {
    Space0Idempotent(x);
    assert ReadVariableName(Space0(x)) == ReadVariableName(x);
  }

  /** A quoted body written as the pair texts write it. */
  lemma {:induction false} QuotedOf(b: string, rest: string)
    requires IsQuotedBody(b)
    ensures ReadQuotedString("\"" + (b + ("\"" + rest))) == Ok(Unescape(b), rest)
  {
    Associative("\"", b, "\"" + rest);
    Associative("\"" + b, "\"", rest);
    ReadQuotedStringOf(b, rest);
  }

  /** The name of a written pair and what `read_variable_name` leaves after
      it: the blanks in front of the `=`, which are skipped as well when the
      name is empty. Either way the spaced `=` is next. */
  lemma {:induction false} PairNameOf(w: WrittenPair, rest: string)
    requires WellWritten(w)
    ensures var quoted := "\"" + (w.body + ("\"" + rest));
      var r := ReadVariableName(PairText(w, rest));
      r.Ok? && r.value == w.name && SpacedTag("=", r.rest) == Ok("=", quoted)
  {
    var quoted := "\"" + (w.body + ("\"" + rest));
    var eq := "=" + (w.afterEq + quoted);
    var afterName := w.beforeEq + eq;
    var text := PairText(w, rest);
    assert text == w.lead + (w.name + afterName);
    BlanksBefore(w.afterEq, quoted);
    if w.name == [] {
      var g := w.lead + w.beforeEq;
      assert AllBlank(g);
      AppendEmpty(afterName);
      Associative(w.lead, w.beforeEq, eq);
      AppendEmpty(g);
      assert text == g + [] + eq;
      ReadVariableNameOf(g, [], eq);
      AppendEmpty(w.afterEq + quoted);
      SpacedTagOf([], "=", w.afterEq + quoted);
    } else {
      assert afterName == [] || !IsMetricChar(afterName[0]) by {
        if w.beforeEq != [] { assert afterName[0] == w.beforeEq[0]; }
      }
      Associative(w.lead, w.name, afterName);
      ReadVariableNameOf(w.lead, w.name, afterName);
      SpacedTagOf(w.beforeEq, "=", w.afterEq + quoted);
    }
  }

  /** `LabelPair` reads one written pair and stops right after its closing `"`. */
  lemma {:induction false} LabelPairOf(w: WrittenPair, rest: string)
    requires WellWritten(w)
    ensures LabelPair(PairText(w, rest)) == Ok((w.name, Unescape(w.body)), rest)
  {
    PairNameOf(w, rest);
    QuotedOf(w.body, rest);
  }

  /** A `}` (after any blanks) is not a pair: it has no `=`. */
  lemma {:induction false} NoPairAtClose(g: string, t: string)
    requires AllBlank(g)
    ensures LabelPair(g + ("}" + t)).Error?
  {
    var closing := "}" + t;
    AppendEmpty(g);
    ReadVariableNameOf(g, [], closing);
    AppendEmpty(closing);
    Space0Stops(closing);
  }

  // ---------------------------------------------------------------------------
  // The list of pairs.

  /** The text after the last pair, where no further round of
      `separated_list0` succeeds and the list ends. */
  predicate ListEndsAt(rest: string) {
    MoreLabelPairs(rest) == Ok([], rest)
  }

  /** Blanks and a `}` end the list. */
  lemma {:induction false} ListEndsAtClose(g: string, t: string)
    requires AllBlank(g)
    ensures ListEndsAt(g + ("}" + t))
  {
    BlanksBefore(g, "}" + t);
  }

  /** A comma that no pair follows ends the list too, in front of the comma. */
  lemma {:induction false} ListEndsAtDanglingComma(g1: string, g2: string, t: string)
    requires AllBlank(g1) && AllBlank(g2)
    ensures ListEndsAt(g1 + ("," + (g2 + ("}" + t))))
  {
    SpacedTagOf(g1, ",", g2 + ("}" + t));
    BlanksBefore(g2, "}" + t);
    NoPairAtClose([], t);
    AppendEmpty("}" + t);
  }

  /** One round of `separated_list0`: blanks, a comma and a pair. */
  lemma {:induction false} MoreRound(w: WrittenPair, after: string)
    requires WellWritten(w)
    ensures MoreLabelPairs(w.sep + ("," + PairText(w, after))) ==
      match MoreLabelPairs(after)
      case Ok(ps, rest) => Ok([(w.name, Unescape(w.body))] + ps, rest)
      case other => other
  {
    var pair := PairText(w, after);
    var s := w.sep + ("," + pair);
    SpacedTagOf(w.sep, ",", pair);
    LabelPairAfterBlanks(pair);
    LabelPairOf(w, after);
    assert SpacedTag(",", s) == Ok(",", Space0(pair));
    assert LabelPair(Space0(pair)) == Ok((w.name, Unescape(w.body)), after);
  }

  /** The rounds after the first pair read every further pair. */
  lemma {:induction false} MoreLabelPairsOf(ws: seq<WrittenPair>, rest: string)
    requires AllWellWritten(ws) && ListEndsAt(rest)
    ensures MoreLabelPairs(MoreText(ws, rest)) == Ok(Values(ws), rest)
  {
    if ws != [] {
      assert WellWritten(ws[0]);
      MoreLabelPairsOf(ws[1..], rest);
      MoreRound(ws[0], MoreText(ws[1..], rest));
    }
  }

  /** `separated_list0` reads every written pair, up to where the list ends. */
  lemma {:induction false} LabelPairListOf(ws: seq<WrittenPair>, rest: string)
    requires AllWellWritten(ws) && ListEndsAt(rest)
    requires ws == [] ==> LabelPair(rest).Error?
    ensures LabelPairList(ListText(ws, rest)) == Ok(Values(ws), rest)
  {
    if ws != [] {
      assert WellWritten(ws[0]);
      MoreLabelPairsOf(ws[1..], rest);
      LabelPairOf(ws[0], MoreText(ws[1..], rest));
    }
  }

  // ---------------------------------------------------------------------------
  // Blocks.

  /** What `read_label`'s block does once the pair list is read: it needs a
      `}` after blanks. */
  lemma {:induction false} LabelBlockAfterList(open: string, list: string, ps: LabelPairs, after: string)
    requires AllBlank(open) && LabelPairList(list) == Ok(ps, after)
    ensures LabelBlock(open + ("{" + list)) ==
      match Tag("}", Space0(after))
      case Ok(_, rest) => Ok(ps, rest)
      case _ => Error
  {
    var s := open + ("{" + list);
    BlanksBefore(open, "{" + list);
    TagOf("{", list);
    assert Tag("{", Space0(s)) == Ok("{", list);
    if Tag("}", Space0(after)).Ok? {
      assert LabelBlock(s) == Ok(ps, Tag("}", Space0(after)).rest);
    } else {
      assert LabelBlock(s).Error?;
    }
  }

  /** The pair list of a block ends at the blanks before its `}`. */
  lemma {:induction false} ListBeforeClose(ws: seq<WrittenPair>, close: string, t: string)
    requires AllBlank(close) && AllWellWritten(ws)
    ensures LabelPairList(ListText(ws, close + ("}" + t))) == Ok(Values(ws), close + ("}" + t))
  {
    ListEndsAtClose(close, t);
    NoPairAtClose(close, t);
    LabelPairListOf(ws, close + ("}" + t));
  }

  /** The block itself: `{`, the pairs and `}`, with blanks anywhere
      between the tokens. */
  lemma {:induction false} LabelBlockOf(open: string, ws: seq<WrittenPair>, close: string, t: string)
    requires AllBlank(open) && AllBlank(close) && AllWellWritten(ws)
    ensures LabelBlock(BlockText(open, ws, close, t)) == Ok(Values(ws), t)
  {
    var after := close + ("}" + t);
    ListBeforeClose(ws, close, t);
    LabelBlockAfterList(open, ListText(ws, after), Values(ws), after);
    BlanksBefore(close, "}" + t);
    TagOf("}", t);
  }

  /** `read_label` on a well-formed block: the label set of its pairs, the
      later of two pairs with the same name winning, and the text after the `}`. */
  lemma {:induction false} ReadLabelOf(open: string, ws: seq<WrittenPair>, close: string, t: string)
    requires AllBlank(open) && AllBlank(close) && AllWellWritten(ws)
    ensures ReadLabel(BlockText(open, ws, close, t)) == Ok(LabelMap(Values(ws)), t)
  {
    LabelBlockOf(open, ws, close, t);
  }

  lemma {:induction false} StrippedValues(ws: seq<WrittenPair>)
    requires AllWellWritten(ws)
    ensures AllWellWritten(Stripped(ws)) && Values(Stripped(ws)) == Values(ws)
  {
    var vs := Stripped(ws);
    forall i | 0 <= i < |vs|
      ensures WellWritten(vs[i])
    {
      assert WellWritten(ws[i]);
    }
  }

  /** Blanks between the tokens of a block do not matter: the block reads the
      same as the one with every blank removed. */
  lemma {:induction false} ReadLabelIgnoresBlanks(open: string, ws: seq<WrittenPair>, close: string, t: string)
    requires AllBlank(open) && AllBlank(close) && AllWellWritten(ws)
    ensures ReadLabel(BlockText(open, ws, close, t)) == ReadLabel(BlockText("", Stripped(ws), "", t))
  {
    StrippedValues(ws);
    ReadLabelOf(open, ws, close, t);
    ReadLabelOf("", Stripped(ws), "", t);
  }

  /** After the last pair, a comma with no pair behind it is left unread. */
  lemma {:induction false} ListBeforeDanglingComma(ws: seq<WrittenPair>, g1: string, g2: string, t: string)
    requires AllBlank(g1) && AllBlank(g2) && AllWellWritten(ws) && ws != []
    ensures var after := g1 + ("," + (g2 + ("}" + t)));
      LabelPairList(ListText(ws, after)) == Ok(Values(ws), after)
  {
    ListEndsAtDanglingComma(g1, g2, t);
    LabelPairListOf(ws, g1 + ("," + (g2 + ("}" + t))));
  }

  /** A block whose last pair is followed by a comma is not a block: the list
      ends before the comma, the `}` is then missing, and `read_label` yields
      no labels and consumes nothing. */
  lemma {:induction false} TrailingCommaRejected(open: string, ws: seq<WrittenPair>, g1: string, g2: string, t: string)
    requires AllBlank(open) && AllBlank(g1) && AllBlank(g2) && AllWellWritten(ws) && ws != []
    ensures var s := open + ("{" + ListText(ws, g1 + ("," + (g2 + ("}" + t)))));
      ReadLabel(s) == Ok(map[], s)
  {
    var after := g1 + ("," + (g2 + ("}" + t)));
    ListBeforeDanglingComma(ws, g1, g2, t);
    LabelBlockAfterList(open, ListText(ws, after), Values(ws), after);
    BlanksBefore(g1, "," + (g2 + ("}" + t)));
    assert Tag("}", "," + (g2 + ("}" + t))).Error?;
    assert LabelBlock(open + ("{" + ListText(ws, after))).Error?;
  }

  lemma {:induction false} ListTextOne(w: WrittenPair, rest: string)
    ensures ListText([w], rest) == PairText(w, rest)
  {
    assert [w][1..] == [];
  }

  lemma {:induction false} ListTextTwo(w1: WrittenPair, w2: WrittenPair, rest: string)
    ensures ListText([w1, w2], rest) == PairText(w1, w2.sep + ("," + PairText(w2, rest)))
  {
    assert [w1, w2][1..] == [w2] && [w2][1..] == [];
    assert MoreText([], rest) == rest;
    assert MoreText([w2], rest) == w2.sep + ("," + PairText(w2, rest));
  }

  // ---------------------------------------------------------------------------
  // The cases of `test_read_label`, each an instance of the lemmas above; the
  // `...Texts` lemmas only spell out the literals.

  /** No block: no labels, and nothing consumed. */
  lemma {:induction false} NoBlockExamples()
    ensures ReadLabel("") == Ok(map[], "")
    ensures ReadLabel(" ") == Ok(map[], " ")
  {
    AppendEmpty(" ");
    BlanksBefore(" ", "");
  }

  /** An empty block is read and yields no labels. */
  lemma {:induction false} EmptyBlockExamples()
    ensures ReadLabel("{}") == Ok(map[], "")
    ensures ReadLabel(" {} ") == Ok(map[], " ")
  {
    EmptyBlockTexts();
    ReadLabelOf("", [], "", "");
    ReadLabelOf(" ", [], "", " ");
  }

  lemma {:induction false} EmptyBlockTexts()
    ensures BlockText("", [], "", "") == "{}" && BlockText(" ", [], "", " ") == " {} "
    ensures LabelMap(Values([])) == map[] && AllBlank(" ") && AllBlank("")
  {
  }

  const Alfa := WrittenPair("", "", "alfa", "", "", "1")
  const SpacedAlfa := WrittenPair("", " ", "alfa", " ", " ", "1")

  /** One pair, written tight and with blanks around every token. */
  lemma {:induction false} OneLabelExamples()
    ensures ReadLabel("{alfa=\"1\"}") == Ok(map["alfa" := "1"], "")
    ensures ReadLabel("{ alfa = \"1\" }") == Ok(map["alfa" := "1"], "")
  {
    OneLabelTexts();
    ReadLabelOf("", [Alfa], "", "");
    ReadLabelOf("", [SpacedAlfa], " ", "");
  }

  lemma {:induction false} OneLabelTexts()
    ensures BlockText("", [Alfa], "", "") == "{alfa=\"1\"}"
    ensures BlockText("", [SpacedAlfa], " ", "") == "{ alfa = \"1\" }"
    ensures AllWellWritten([Alfa]) && AllWellWritten([SpacedAlfa]) && AllBlank(" ") && AllBlank("")
    ensures LabelMap(Values([Alfa])) == map["alfa" := "1"] && Values([SpacedAlfa]) == Values([Alfa])
  {
    ListTextOne(Alfa, "}");
    ListTextOne(SpacedAlfa, " }");
    OneLabelSpelled();
    AlfaWellWritten();
  }

  lemma {:induction false} OneLabelSpelled()
    ensures "" + ("{" + ("" + ("alfa" + ("" + ("=" + ("" + ("\"" + ("1" + ("\"" + "}"))))))))) == "{alfa=\"1\"}"
    ensures "" + ("{" + (" " + ("alfa" + (" " + ("=" + (" " + ("\"" + ("1" + ("\"" + " }"))))))))) == "{ alfa = \"1\" }"
    ensures "" + ("}" + "") == "}" && " " + ("}" + "") == " }"
  {
  }

  lemma {:induction false} AlfaWellWritten()
    ensures AllWellWritten([Alfa]) && AllWellWritten([SpacedAlfa]) && AllBlank(" ") && AllBlank("")
    ensures LabelMap(Values([Alfa])) == map["alfa" := "1"] && Values([SpacedAlfa]) == Values([Alfa])
  {
    PlainBody("1");
    assert IsName("alfa");
    assert Values([Alfa]) == [("alfa", "1")];
  }

  const FirstPair := WrittenPair("", " ", "a_b:1", " ", " ", "test\\\"1\\\"")
  const SecondPair := WrittenPair(" ", " ", "543_a.76", "", "", "C:\\\\test\\\\")
  const TwoPairs := [FirstPair, SecondPair]
  const TwoLabels := map["a_b:1" := "test\\\"1\\\"", "543_a.76" := "C:\\test\\"]

  /** Two pairs with escapes, written with irregular blanks and without any. */
  lemma {:induction false} TwoLabelsExamples()
    ensures ReadLabel(" { a_b:1 = \"test\\\"1\\\"\" , 543_a.76=\"C:\\\\test\\\\\"}") == Ok(TwoLabels, "")
    ensures ReadLabel("{a_b:1=\"test\\\"1\\\"\",543_a.76=\"C:\\\\test\\\\\"}") == Ok(TwoLabels, "")
  {
    TwoLabelsBodies();
    TwoLabelsTexts();
    TwoLabelsMap();
    ReadLabelOf(" ", TwoPairs, "", "");
    ReadLabelIgnoresBlanks(" ", TwoPairs, "", "");
  }

  lemma {:induction false} TwoLabelsBodies()
    ensures IsQuotedBody(FirstPair.body) && Unescape(FirstPair.body) == "test\\\"1\\\""
    ensures IsQuotedBody(SecondPair.body) && Unescape(SecondPair.body) == "C:\\test\\"
  {
    TwoEscapesBody("test", '"', "1", '"', "");
    TwoEscapesBody("C:", '\\', "test", '\\', "");
    TwoLabelsBodyTexts();
  }

  lemma {:induction false} TwoLabelsBodyTexts()
    ensures "test" + ['\\', '"'] + "1" + ['\\', '"'] + "" == FirstPair.body
    ensures "test" + EscapeValue('"') + "1" + EscapeValue('"') + "" == "test\\\"1\\\""
    ensures "C:" + ['\\', '\\'] + "test" + ['\\', '\\'] + "" == SecondPair.body
    ensures "C:" + EscapeValue('\\') + "test" + EscapeValue('\\') + "" == "C:\\test\\"
    ensures '\\' !in "test" && '"' !in "test" && '\\' !in "1" && '"' !in "1"
    ensures '\\' !in "C:" && '"' !in "C:" && '\\' !in "" && '"' !in ""
  {
  }

  lemma {:induction false} TwoLabelsTexts()
    ensures BlockText(" ", TwoPairs, "", "") == " { a_b:1 = \"test\\\"1\\\"\" , 543_a.76=\"C:\\\\test\\\\\"}"
    ensures BlockText("", Stripped(TwoPairs), "", "") == "{a_b:1=\"test\\\"1\\\"\",543_a.76=\"C:\\\\test\\\\\"}"
    ensures IsName(FirstPair.name) && IsName(SecondPair.name) && AllBlank(" ") && AllBlank("")
  {
    TwoPairsSpelled();
    StrippedSpelled();
  }

  /** The text of a two-pair block, as the pieces the solver compares: a
      head up to the first body's closing quote and the tail after it. */
  lemma {:induction false} TwoPairBlockPieces(open: string, w1: WrittenPair, w2: WrittenPair)
    ensures var first := w1.lead + (w1.name + (w1.beforeEq + ("=" + (w1.afterEq + ("\"" + (w1.body + "\""))))));
      var tail := w2.sep + ("," + (w2.lead + (w2.name + (w2.beforeEq + ("=" + (w2.afterEq + ("\"" + (w2.body + ("\"" + "}")))))))));
      BlockText(open, [w1, w2], "", "") == (open + ("{" + first)) + tail
  {
    assert "" + ("}" + "") == "}";
    ListTextTwo(w1, w2, "}");
    var first := w1.lead + (w1.name + (w1.beforeEq + ("=" + (w1.afterEq + ("\"" + (w1.body + "\""))))));
    var tail := w2.sep + ("," + PairText(w2, "}"));
    assert PairText(w1, tail) == first + tail;
    Associative("{", first, tail);
    Associative(open, "{" + first, tail);
  }

  lemma {:induction false} TwoPairsSpelled()
    ensures BlockText(" ", TwoPairs, "", "") == " { a_b:1 = \"test\\\"1\\\"\" , 543_a.76=\"C:\\\\test\\\\\"}"
  {
    TwoPairBlockPieces(" ", FirstPair, SecondPair);
    SpacedPieces();
  }

  lemma {:induction false} SpacedPieces()
    ensures (" " + ("{" + (" " + ("a_b:1" + (" " + ("=" + (" " + ("\"" + ("test\\\"1\\\"" + "\"")))))))))
          + (" " + ("," + (" " + ("543_a.76" + ("" + ("=" + ("" + ("\"" + ("C:\\\\test\\\\" + ("\"" + "}"))))))))))
         == " { a_b:1 = \"test\\\"1\\\"\" , 543_a.76=\"C:\\\\test\\\\\"}"
  {
    SpacedPiecesHead();
    SpacedPiecesTail();
    assert " { a_b:1 = \"test\\\"1\\\"\"" + " , 543_a.76=\"C:\\\\test\\\\\"}" == " { a_b:1 = \"test\\\"1\\\"\" , 543_a.76=\"C:\\\\test\\\\\"}";
  }

  lemma {:induction false} SpacedPiecesHead()
    ensures " " + ("{" + (" " + ("a_b:1" + (" " + ("=" + (" " + ("\"" + ("test\\\"1\\\"" + "\"")))))))) == " { a_b:1 = \"test\\\"1\\\"\""
  {
  }

  lemma {:induction false} SpacedPiecesTail()
    ensures " " + ("," + (" " + ("543_a.76" + ("" + ("=" + ("" + ("\"" + ("C:\\\\test\\\\" + ("\"" + "}"))))))))) == " , 543_a.76=\"C:\\\\test\\\\\"}"
  {
  }

  lemma {:induction false} StrippedSpelled()
    ensures BlockText("", Stripped(TwoPairs), "", "") == "{a_b:1=\"test\\\"1\\\"\",543_a.76=\"C:\\\\test\\\\\"}"
  {
    var vs := Stripped(TwoPairs);
    assert vs == [vs[0], vs[1]];
    TwoPairBlockPieces("", vs[0], vs[1]);
    StrippedPieces();
  }

  lemma {:induction false} StrippedPieces()
    ensures ("" + ("{" + ("" + ("a_b:1" + ("" + ("=" + ("" + ("\"" + ("test\\\"1\\\"" + "\"")))))))))
          + ("" + ("," + ("" + ("543_a.76" + ("" + ("=" + ("" + ("\"" + ("C:\\\\test\\\\" + ("\"" + "}"))))))))))
         == "{a_b:1=\"test\\\"1\\\"\",543_a.76=\"C:\\\\test\\\\\"}"
  {
    StrippedPiecesHead();
    StrippedPiecesTail();
    assert "{a_b:1=\"test\\\"1\\\"\"" + ",543_a.76=\"C:\\\\test\\\\\"}" == "{a_b:1=\"test\\\"1\\\"\",543_a.76=\"C:\\\\test\\\\\"}";
  }

  lemma {:induction false} StrippedPiecesHead()
    ensures "" + ("{" + ("" + ("a_b:1" + ("" + ("=" + ("" + ("\"" + ("test\\\"1\\\"" + "\"")))))))) == "{a_b:1=\"test\\\"1\\\"\""
  {
  }

  lemma {:induction false} StrippedPiecesTail()
    ensures "" + ("," + ("" + ("543_a.76" + ("" + ("=" + ("" + ("\"" + ("C:\\\\test\\\\" + ("\"" + "}"))))))))) == ",543_a.76=\"C:\\\\test\\\\\"}"
  {
  }

  lemma {:induction false} TwoLabelsMap()
    requires Unescape(FirstPair.body) == "test\\\"1\\\"" && Unescape(SecondPair.body) == "C:\\test\\"
    ensures LabelMap(Values(TwoPairs)) == TwoLabels
  {
    var ps := Values(TwoPairs);
    assert ps[..1] == [ps[0]];
    assert ps[..1][..0] == [];
  }

  /** The block the test leaves commented out: with a comma after the last pair
      it is not read at all. */
  lemma {:induction false} TrailingCommaExample()
    ensures ReadLabel("{ alfa = \"1\", }") == Ok(map[], "{ alfa = \"1\", }")
  {
    TrailingCommaTexts();
    TrailingCommaRejected("", [SpacedAlfa], "", " ", "");
  }

  lemma {:induction false} TrailingCommaTexts()
    ensures "" + ("{" + ListText([SpacedAlfa], "" + ("," + (" " + ("}" + ""))))) == "{ alfa = \"1\", }"
    ensures AllWellWritten([SpacedAlfa]) && AllBlank(" ") && AllBlank("")
  {
    TrailingCommaSpelled();
    SpacedAlfaWellWritten();
  }

  lemma {:induction false} TrailingCommaSpelled()
    ensures "" + ("{" + ListText([SpacedAlfa], "" + ("," + (" " + ("}" + ""))))) == "{ alfa = \"1\", }"
  {
    assert ListText([SpacedAlfa], ", }") == PairText(SpacedAlfa, ", }");
  }

  lemma {:induction false} SpacedAlfaWellWritten()
    ensures AllWellWritten([SpacedAlfa]) && AllBlank(" ") && AllBlank("")
  {
    PlainBody("1");
    assert IsName("alfa");
  }
}
