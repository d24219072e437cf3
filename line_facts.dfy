/** What the two line composers and the public entry points read: a comment
    line is `#`, a known keyword, a name and free text; a sample line is a
    name, an optional label block, a value and an optional timestamp. Both
    entry points keep the record and drop whatever follows it. */
module LineFacts {
  import opened Combinators
  import opened Number
  import opened Labels
  import opened LineParser
  import opened StringFacts
  import opened LabelFacts
  import opened ValueFacts

  // ---------------------------------------------------------------------------
  // Comment lines.

  /** The keyword a comment kind is written as. */
  function KeywordText(kind: CommentType): (t: string)
    ensures |t| == 4 && !IsBlank(t[0])
  {
    match kind
    case HELP => "HELP"
    case TYPE => "TYPE"
  }

  predicate NoLineBreak(d: string) {
    forall i :: 0 <= i < |d| ==> !IsLineBreak(d[i])
  }

  /** What may follow the free text of a comment: nothing, or a line ending. */
  predicate IsLineEnd(t: string) {
    t == [] || t[0] == '\n' || (|t| >= 2 && t[0] == '\r' && t[1] == '\n')
  }

  /** The free text runs up to the first line break. */
  lemma {:induction false} LineBreakIndexOf(d: string, t: string)
    requires NoLineBreak(d) && (t == [] || IsLineBreak(t[0]))
    ensures LineBreakIndex(d + t) == |d|
    decreases |d|
  {
    if d == [] {
      AppendEmpty(t);
    } else {
      assert (d + t)[1..] == d[1..] + t;
      LineBreakIndexOf(d[1..], t);
    }
  }

  /** `not_line_ending` reads text without line breaks up to a line ending. */
  lemma {:induction false} NotLineEndingOf(d: string, t: string)
    requires NoLineBreak(d) && IsLineEnd(t)
    ensures NotLineEnding(d + t) == Ok(d, t)
  {
    LineBreakIndexOf(d, t);
    PartsOfConcat(d, t);
  }

  /** The keyword is read as its kind. */
  lemma {:induction false} CommentTypeTagOf(kind: CommentType, x: string)
    ensures CommentTypeTag(KeywordText(kind) + x) == Ok(kind, x)
  {
    TagOf(KeywordText(kind), x);
    if kind == TYPE {
      assert !("HELP" <= KeywordText(kind) + x) by {
        assert (KeywordText(kind) + x)[0] == 'T';
      }
    }
  }

  /** `#`, blanks and the keyword. */
  lemma {:induction false} CommentHeadOf(g1: string, kind: CommentType, x: string)
    requires AllBlank(g1)
    ensures var s1 := Tag("#", "#" + (g1 + (KeywordText(kind) + x)));
      s1 == Ok("#", g1 + (KeywordText(kind) + x))
      && CommentTypeTag(Space0(s1.rest)) == Ok(kind, x)
  {
    TagOf("#", g1 + (KeywordText(kind) + x));
    BlanksBefore(g1, KeywordText(kind) + x);
    CommentTypeTagOf(kind, x);
  }

  /** What comes after the keyword: the name and the free text, with the
      line ending left over. */
  lemma {:induction false} CommentTailOf(g2: string, name: string, g3: string, desc: string, t: string)
    requires AllBlank(g2) && AllBlank(g3) && IsName(name)
    requires desc == [] || (name != [] && g3 != [] && !IsBlank(desc[0]))
    requires NoLineBreak(desc) && IsLineEnd(t)
    ensures var r := ReadVariableName(Space0(g2 + (name + (g3 + (desc + t)))));
      r == Ok(name, r.rest) && NotLineEnding(Space0(r.rest)) == Ok(desc, t)
  {
    if name == [] {
      EmptyCommentTail(g2, g3, desc, t);
    } else {
      NamedCommentTail(g2, name, g3, desc, t);
    }
  }

  /** No name: the blanks run up to the line ending and there is no text. */
  lemma {:induction false} EmptyCommentTail(g2: string, g3: string, desc: string, t: string)
    requires AllBlank(g2) && AllBlank(g3) && desc == [] && IsLineEnd(t)
    ensures var r := ReadVariableName(Space0(g2 + ([] + (g3 + (desc + t)))));
      r == Ok([], t) && NotLineEnding(Space0(r.rest)) == Ok([], t)
  {
    var x := g2 + ([] + (g3 + (desc + t)));
    assert t == [] || !IsBlank(t[0]);
    assert x == (g2 + g3) + t;
    BlanksBefore(g2 + g3, t);
    assert Space0(x) == t;
    NoNameAt(t);
    Space0Stops(t);
    NotLineEndingOf([], t);
    assert [] + t == t;
  }

  /** Text that starts with neither a blank nor a name character holds an
      empty name. */
  lemma {:induction false} NoNameAt(t: string)
    requires t == [] || (!IsBlank(t[0]) && !IsMetricChar(t[0]))
    ensures ReadVariableName(t) == Ok([], t)
  {
    AppendEmpty(t);
    ReadVariableNameOf([], [], t);
  }

  /** A name: it ends at the blanks after it, which the text follows. */
  lemma {:induction false} NamedCommentTail(g2: string, name: string, g3: string, desc: string, t: string)
    requires AllBlank(g2) && AllBlank(g3) && IsName(name) && name != []
    requires desc == [] || (g3 != [] && !IsBlank(desc[0]))
    requires NoLineBreak(desc) && IsLineEnd(t)
    ensures var r := ReadVariableName(Space0(g2 + (name + (g3 + (desc + t)))));
      r == Ok(name, g3 + (desc + t)) && NotLineEnding(Space0(r.rest)) == Ok(desc, t)
  {
    NameBeforeText(g2, name, g3, desc, t);
    DescAfterName(g3, desc, t);
  }

  /** The name of a comment, up to the blanks or the line end after it. */
  lemma {:induction false} NameBeforeText(g2: string, name: string, g3: string, desc: string, t: string)
    requires AllBlank(g2) && AllBlank(g3) && IsName(name) && name != []
    requires desc == [] || g3 != []
    requires IsLineEnd(t)
    ensures ReadVariableName(Space0(g2 + (name + (g3 + (desc + t))))) == Ok(name, g3 + (desc + t))
  {
    var after := g3 + (desc + t);
    assert (name + after)[0] == name[0];
    BlanksBefore(g2, name + after);
    assert after == [] || !IsMetricChar(after[0]) by {
      if g3 != [] {
        assert after[0] == g3[0];
      } else {
        assert desc == [];
        assert after == t;
      }
    }
    TakeWhileUnique(IsMetricChar, name, after);
    Space0Stops(name + after);
  }

  /** The free text of a comment, after the blanks that follow the name. */
  lemma {:induction false} DescAfterName(g3: string, desc: string, t: string)
    requires AllBlank(g3)
    requires desc == [] || !IsBlank(desc[0])
    requires NoLineBreak(desc) && IsLineEnd(t)
    ensures NotLineEnding(Space0(g3 + (desc + t))) == Ok(desc, t)
  {
    assert desc + t == [] || !IsBlank((desc + t)[0]) by {
      if desc != [] { assert (desc + t)[0] == desc[0]; } else { assert desc + t == t; }
    }
    BlanksBefore(g3, desc + t);
    NotLineEndingOf(desc, t);
  }

  /** A comment line as it is written: `#`, blanks, the keyword, blanks, the
      name (possibly empty), blanks and the free text, then the line ending.
      It reads as the comment of that name, kind and text; the line ending
      is left unread. */
  lemma {:induction false} ReadCommentLineOf(g1: string, kind: CommentType, g2: string, name: string,
                                             g3: string, desc: string, t: string)
    requires AllBlank(g1) && AllBlank(g2) && AllBlank(g3) && IsName(name)
    requires desc == [] || (name != [] && g3 != [] && !IsBlank(desc[0]))
    requires NoLineBreak(desc) && IsLineEnd(t)
    ensures ReadCommentLine("#" + (g1 + (KeywordText(kind) + (g2 + (name + (g3 + (desc + t)))))))
         == Ok(Comment(name, kind, desc), t)
  {
    var x := g2 + (name + (g3 + (desc + t)));
    CommentHeadOf(g1, kind, x);
    CommentTailOf(g2, name, g3, desc, t);
  }

  /** Conversely, a comment is read only from a line that starts with `#`
      and then, after blanks, the keyword of its kind; the name is a name and
      the free text holds no line break. */
  lemma {:induction false} CommentLineShape(s: string)
    ensures var r := ReadCommentLine(s);
      r.Ok? ==> (s != [] && s[0] == '#' && KeywordText(r.value.kind) <= Space0(s[1..])
                 && IsName(r.value.metric) && NoLineBreak(r.value.desc))
  {
    var r := ReadCommentLine(s);
    if r.Ok? {
      assert Tag("#", s).rest == s[1..];
      var s1b := Space0(s[1..]);
      var k := CommentTypeTag(s1b);
      assert k.Ok? && k.value == r.value.kind;
      KeywordOfTag(s1b);
      var n := ReadVariableName(Space0(k.rest));
      var d := NotLineEnding(Space0(n.rest));
      assert d.Ok? && d.value == r.value.desc;
    }
  }

  /** The kind read by `alt((tag("HELP"), tag("TYPE")))` is the keyword the text starts with. */
  lemma {:induction false} KeywordOfTag(s: string)
    ensures CommentTypeTag(s).Ok? ==> KeywordText(CommentTypeTag(s).value) <= s
  {
    assert HelpTag(s).Ok? ==> "HELP" <= s;
    assert TypeTag(s).Ok? ==> "TYPE" <= s;
  }

  /** A line that does not start with `#` and a keyword is not a comment;
      in particular no keyword other than `HELP` and `TYPE` is known. */
  lemma {:induction false} CommentNeedsKeyword(s: string)
    requires s == [] || s[0] != '#' || !("HELP" <= Space0(s[1..]) || "TYPE" <= Space0(s[1..]))
    ensures ReadCommentLine(s).Error?
  {
  }

  // ---------------------------------------------------------------------------
  // Sample lines.

  /** The name of a sample line, up to the blanks or the `{` after it. */
  lemma {:induction false} SampleNameOf(g: string, name: string, x: string)
    requires AllBlank(g) && IsName(name) && name != []
    requires x == [] || !IsMetricChar(x[0])
    ensures ReadVariableName(g + (name + x)) == Ok(name, x)
  {
    Associative(g, name, x);
    assert (name + x)[0] == name[0];
    ReadVariableNameOf(g, name, x);
  }

  /** The value and the timestamp, each read by its own rule. */
  lemma {:induction false} ValueAndTimestampOf(x: string, v: Value, y: string, ts: Option<int>, t: string)
    requires ReadValue(x) == Ok(v, y) && ReadTimestamp(y) == Ok(ts, t)
    ensures ValueAndTimestamp(x) == Ok((v, ts), t)
  {
  }

  /** A sample line read part by part. */
  lemma {:induction false} SampleLineOfParts(s: string, name: string, s1: string, labels: map<string, string>,
                                             s2: string, v: Value, ts: Option<int>, t: string)
    requires ReadVariableName(s) == Ok(name, s1) && ReadLabel(s1) == Ok(labels, s2)
    requires ValueAndTimestamp(s2) == Ok((v, ts), t)
    ensures ReadSampleLine(s) == Ok(Sample(name, labels, v, ts), t)
  {
  }

  /** A sample line needs a value: when, after the name and the label
      block, the text does not start with a number, no sample is read. */
  lemma {:induction false} SampleNeedsValue(s: string, name: string, s1: string,
                                            labels: map<string, string>, s2: string)
    requires ReadVariableName(s) == Ok(name, s1) && ReadLabel(s1) == Ok(labels, s2)
    requires Space0(s2) == [] || !IsNumberStart(Space0(s2)[0])
    ensures ReadSampleLine(s).Error? && TryReadSample(s).None?
  {
    NoValueNoReading(s2);
    SampleLineErrorOfParts(s, name, s1, labels, s2);
  }

  /** A sample line whose value cannot be read is not a sample. */
  lemma {:induction false} SampleLineErrorOfParts(s: string, name: string, s1: string,
                                                  labels: map<string, string>, s2: string)
    requires ReadVariableName(s) == Ok(name, s1) && ReadLabel(s1) == Ok(labels, s2)
    requires ValueAndTimestamp(s2).Error?
    ensures ReadSampleLine(s).Error?
  {
  }

  /** Without a number there is neither a value nor a timestamp. */
  lemma {:induction false} NoValueNoReading(x: string)
    requires Space0(x) == [] || !IsNumberStart(Space0(x)[0])
    ensures ValueAndTimestamp(x).Error?
  {
    assert ReadValue(x).Error?;
  }

  /** A sample line with a label block: the name, the block written with
      any blanks between its tokens, then a value and an optional timestamp.
      It reads as the sample of that name, the label set of the block, that
      value and that timestamp, whatever follows. */
  lemma {:induction false} ReadSampleLineOf(g: string, name: string, open: string, ws: seq<WrittenPair>,
                                            close: string, x: string, v: Value, y: string,
                                            ts: Option<int>, t: string)
    requires AllBlank(g) && IsName(name)
    requires AllBlank(open) && AllBlank(close) && AllWellWritten(ws)
    requires ReadValue(x) == Ok(v, y) && ReadTimestamp(y) == Ok(ts, t)
    ensures ReadSampleLine(g + (name + BlockText(open, ws, close, x)))
         == Ok(Sample(name, LabelMap(Values(ws)), v, ts), t)
  {
    var list := ListText(ws, close + ("}" + x));
    var open' := if name == [] then [] else open;
    SampleNameBeforeBrace(g, name, open, list);
    AppendEmpty("{" + list);
    assert open' + ("{" + list) == BlockText(open', ws, close, x);
    ReadLabelOf(open', ws, close, x);
    ValueAndTimestampOf(x, v, y, ts, t);
    SampleLineOfParts(g + (name + BlockText(open, ws, close, x)), name, BlockText(open', ws, close, x),
                      LabelMap(Values(ws)), x, v, ts, t);
  }

  /** The name in front of a label block. An empty name leaves the blanks
      before the `{` skipped: `read_variable_name` skips blanks first. */
  lemma {:induction false} SampleNameBeforeBrace(g: string, name: string, open: string, y: string)
    requires AllBlank(g) && IsName(name) && AllBlank(open)
    ensures ReadVariableName(g + (name + (open + ("{" + y)))) ==
      Ok(name, if name == [] then "{" + y else open + ("{" + y))
  {
    var block := open + ("{" + y);
    assert block[0] == (if open != [] then open[0] else '{');
    if name == [] {
      var g' := g + open;
      assert AllBlank(g');
      assert g + ([] + block) == g' + [] + ("{" + y);
      ReadVariableNameOf(g', [], "{" + y);
    } else {
      SampleNameOf(g, name, block);
    }
  }

  /** An empty name: what follows the blanks cannot start a name. */
  lemma {:induction false} EmptyNameAt(s: string)
    requires Space0(s) == [] || !IsMetricChar(Space0(s)[0])
    ensures ReadVariableName(s) == Ok([], Space0(s))
  {
    TakeWhileUnique(IsMetricChar, [], Space0(s));
    AppendEmpty(Space0(s));
  }

  /** A label block, blanks before it included, cannot continue a name. */
  lemma {:induction false} BlockStart(open: string, ws: seq<WrittenPair>, close: string, x: string)
    requires AllBlank(open)
    ensures var block := BlockText(open, ws, close, x);
      block != [] && !IsMetricChar(block[0])
  {
    var block := BlockText(open, ws, close, x);
    assert block[0] == (if open != [] then open[0] else '{');
  }

  /** A sample line without a label block reads with no labels. */
  lemma {:induction false} ReadSampleLineNoLabels(g: string, name: string, x: string, v: Value,
                                                  y: string, ts: Option<int>, t: string)
    requires AllBlank(g) && IsName(name)
    requires x == [] || !IsMetricChar(x[0])
    requires name == [] ==> Space0(x) == [] || !IsMetricChar(Space0(x)[0])
    requires ReadValue(x) == Ok(v, y) && ReadTimestamp(y) == Ok(ts, t)
    ensures ReadSampleLine(g + (name + x)) == Ok(Sample(name, map[], v, ts), t)
  {
    if name == [] {
      AppendEmpty(x);
      EmptyNameNoLabels(g, x, v, y, ts, t);
    } else {
      SampleNameOf(g, name, x);
      ValueStartsNumber(x);
      NoBlockAtNumber(x);
      ValueAndTimestampOf(x, v, y, ts, t);
      SampleLineOfParts(g + (name + x), name, x, map[], x, v, ts, t);
    }
  }

  /** No name and no label block: the line starts with a value (after
      blanks) that cannot continue a name, such as `-1` or `+Inf`. */
  lemma {:induction false} EmptyNameNoLabels(g: string, x: string, v: Value, y: string, ts: Option<int>, t: string)
    requires AllBlank(g) && (Space0(x) == [] || !IsMetricChar(Space0(x)[0]))
    requires ReadValue(x) == Ok(v, y) && ReadTimestamp(y) == Ok(ts, t)
    ensures ReadSampleLine(g + x) == Ok(Sample([], map[], v, ts), t)
  {
    var x' := Space0(x);
    Space0Skips(g, x);
    EmptyNameAt(g + x);
    ValueAfterBlanks(x);
    ValueStartsNumber(x');
    NoBlockAtNumber(x');
    ValueAndTimestampOf(x', v, y, ts, t);
    SampleLineOfParts(g + x, [], x', map[], x', v, ts, t);
  }

  /** Blanks already skipped change nothing for `read_value`. */
  lemma {:induction false} ValueAfterBlanks(x: string)
    ensures ReadValue(Space0(x)) == ReadValue(x)
  {
    Space0Idempotent(x);
  }

  /** A value starts with a number (after blanks). */
  lemma {:induction false} ValueStartsNumber(x: string)
    requires ReadValue(x).Ok?
    ensures Space0(x) != [] && IsNumberStart(Space0(x)[0])
  {
  }

  /** Text that starts with a number does not open a label block. */
  lemma {:induction false} NoBlockAtNumber(x: string)
    requires Space0(x) != [] && IsNumberStart(Space0(x)[0])
    ensures ReadLabel(x) == Ok(map[], x)
  {
    assert Space0(x)[0] != '{';
    assert LabelBlock(x).Error?;
  }

  /** Every label of a well-formed block is found in the sample under its
      name, with its value exactly as written once doubled backslashes are
      collapsed, unless a later pair of the block has the same name. */
  lemma {:induction false} SampleLabelLookup(g: string, name: string, open: string, ws: seq<WrittenPair>,
                                             close: string, x: string, v: Value, y: string,
                                             ts: Option<int>, t: string, i: nat)
    requires AllBlank(g) && IsName(name)
    requires AllBlank(open) && AllBlank(close) && AllWellWritten(ws)
    requires ReadValue(x) == Ok(v, y) && ReadTimestamp(y) == Ok(ts, t)
    requires i < |ws| && forall j :: i < j < |ws| ==> ws[j].name != ws[i].name
    ensures var sample := TryReadSample(g + (name + BlockText(open, ws, close, x)));
      sample.Some? && GetString(sample.value.labels, ws[i].name) == Some(Unescape(ws[i].body))
  {
    ReadSampleLineOf(g, name, open, ws, close, x, v, y, ts, t);
    var ps := Values(ws);
    forall j | i < j < |ps|
      ensures ps[j].0 != ps[i].0
    {
    }
    LabelMapLastWins(ps, i);
  }

  /** A label block whose last pair is followed by a comma makes the whole
      sample line fail: the block is left unread, and a `{` is not a value. */
  lemma {:induction false} TrailingCommaSampleFails(g: string, name: string, open: string, ws: seq<WrittenPair>,
                                                    g1: string, g2: string, t: string)
    requires AllBlank(g) && IsName(name)
    requires AllBlank(open) && AllBlank(g1) && AllBlank(g2) && AllWellWritten(ws) && ws != []
    ensures var line := g + (name + (open + ("{" + ListText(ws, g1 + ("," + (g2 + ("}" + t)))))));
      ReadSampleLine(line).Error? && TryReadSample(line).None?
  {
    var list := ListText(ws, g1 + ("," + (g2 + ("}" + t))));
    var open' := if name == [] then [] else open;
    var block := open' + ("{" + list);
    SampleNameBeforeBrace(g, name, open, list);
    AppendEmpty("{" + list);
    TrailingCommaBlockUnread(open', ws, g1, g2, t);
    SampleNeedsValue(g + (name + (open + ("{" + list))), name, block, map[], block);
  }

  /** The block with a trailing comma, as `read_label` leaves it: unread,
      with a `{` where the value should start. */
  lemma {:induction false} TrailingCommaBlockUnread(open: string, ws: seq<WrittenPair>, g1: string, g2: string, t: string)
    requires AllBlank(open) && AllBlank(g1) && AllBlank(g2) && AllWellWritten(ws) && ws != []
    ensures var block := open + ("{" + ListText(ws, g1 + ("," + (g2 + ("}" + t)))));
      ReadLabel(block) == Ok(map[], block) && (block == [] || !IsMetricChar(block[0]))
      && Space0(block) != [] && !IsNumberStart(Space0(block)[0])
  {
    TrailingCommaRejected(open, ws, g1, g2, t);
    BraceAfterBlanks(open, ListText(ws, g1 + ("," + (g2 + ("}" + t)))));
  }

  /** Blanks and a `{`: neither starts a name, and the `{` is no number. */
  lemma {:induction false} BraceAfterBlanks(open: string, x: string)
    requires AllBlank(open)
    ensures var block := open + ("{" + x);
      (block == [] || !IsMetricChar(block[0])) && Space0(block) != [] && !IsNumberStart(Space0(block)[0])
  {
    var block := open + ("{" + x);
    assert block[0] == (if open != [] then open[0] else '{');
    BlanksBefore(open, "{" + x);
    assert ("{" + x)[0] == '{';
  }
}
