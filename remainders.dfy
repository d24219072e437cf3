/** Every rule of the line parser only ever consumes a prefix of its input:
    when it succeeds, the remainder it returns is a suffix of the text it was
    given. Each lemma below states this for one rule, from the primitives up
    to the two line composers. */
module Remainders {
  import opened Combinators
  import opened Number
  import opened LineParser

  lemma {:induction false} SuffixOfConcat(a: string, b: string)
    ensures IsSuffix(b, a + b)
  {
    PartsOfConcat(a, b);
  }

  lemma {:induction false} SuffixOfSelf(s: string)
    ensures IsSuffix(s, s)
  {
    assert s[0..] == s;
  }

  /** `s[k..]` is what remains once `k` characters are read. */
  lemma {:induction false} SuffixOfDrop(s: string, k: nat)
    requires k <= |s|
    ensures IsSuffix(s[k..], s)
  {
  }

  // ---------------------------------------------------------------------------
  // Primitives.

  lemma {:induction false} TagRest(t: string, s: string)
    ensures Tag(t, s).Ok? ==> IsSuffix(Tag(t, s).rest, s)
  {
    if Tag(t, s).Ok? {
      SuffixOfConcat(t, Tag(t, s).rest);
    }
  }

  lemma {:induction false} TakeWhileRest(p: char -> bool, s: string)
    ensures IsSuffix(TakeWhile(p, s).1, s)
  {
    var (a, b) := TakeWhile(p, s);
    SuffixOfConcat(a, b);
  }

  lemma {:induction false} NotLineEndingRest(s: string)
    ensures NotLineEnding(s).Ok? ==> IsSuffix(NotLineEnding(s).rest, s)
  {
    var r := NotLineEnding(s);
    if r.Ok? {
      SuffixOfConcat(r.value, r.rest);
    }
  }

  // ---------------------------------------------------------------------------
  // Names and quoted strings.

  lemma {:induction false} ReadVariableNameRest(s: string)
    ensures IsSuffix(ReadVariableName(s).rest, s)
  {
    var r := ReadVariableName(s);
    SuffixOfConcat(r.value, r.rest);
    SuffixTransitive(r.rest, Space0(s), s);
  }

  lemma {:induction false} ReadQuotedStringRest(s: string)
    ensures ReadQuotedString(s).Ok? ==> IsSuffix(ReadQuotedString(s).rest, s)
  {
    var r := ReadQuotedString(s);
    if r.Ok? {
      var s1 := s[1..];
      var e := EscapedOrEmpty(s1);
      SuffixOfConcat(e.value, e.rest);
      SuffixOfDrop(s, 1);
      SuffixOfDrop(e.rest, 1);
      SuffixTransitive(e.rest, s1, s);
      SuffixTransitive(r.rest, e.rest, s);
    }
  }

  // ---------------------------------------------------------------------------
  // Label blocks.

  lemma {:induction false} SpacedTagRest(t: string, s: string)
    ensures SpacedTag(t, s).Ok? ==> IsSuffix(SpacedTag(t, s).rest, s)
  {
    var s0 := Space0(s);
    TagRest(t, s0);
    if Tag(t, s0).Ok? {
      var s1 := Tag(t, s0).rest;
      SuffixTransitive(s1, s0, s);
      SuffixTransitive(Space0(s1), s1, s);
    }
  }

  lemma {:induction false} LabelPairRest(s: string)
    ensures LabelPair(s).Ok? ==> IsSuffix(LabelPair(s).rest, s)
  {
    if LabelPair(s).Ok? {
      var s1 := ReadVariableName(s).rest;
      var s2 := SpacedTag("=", s1).rest;
      ReadVariableNameRest(s);
      SpacedTagRest("=", s1);
      ReadQuotedStringRest(s2);
      SuffixTransitive(s2, s1, s);
      SuffixTransitive(LabelPair(s).rest, s2, s);
    }
  }

  /** The rounds of `separated_list0` each consume a prefix, so all of them
      together do too. */
  lemma {:induction false} MoreLabelPairsRest(s: string)
    ensures IsSuffix(MoreLabelPairs(s).rest, s)
    decreases |s|
  {
    var sep := SpacedTag(",", s);
    if sep.Ok? && LabelPair(sep.rest).Ok? {
      var s1 := sep.rest;
      var s2 := LabelPair(s1).rest;
      SpacedTagRest(",", s);
      LabelPairRest(s1);
      SuffixTransitive(s2, s1, s);
      MoreLabelPairsRest(s2);
      SuffixTransitive(MoreLabelPairs(s2).rest, s2, s);
    } else {
      SuffixOfSelf(s);
    }
  }

  lemma {:induction false} LabelPairListRest(s: string)
    ensures IsSuffix(LabelPairList(s).rest, s)
  {
    if LabelPair(s).Ok? {
      var s1 := LabelPair(s).rest;
      LabelPairRest(s);
      MoreLabelPairsRest(s1);
      SuffixTransitive(MoreLabelPairs(s1).rest, s1, s);
    } else {
      SuffixOfSelf(s);
    }
  }

  lemma {:induction false} LabelBlockRest(s: string)
    ensures LabelBlock(s).Ok? ==> IsSuffix(LabelBlock(s).rest, s)
  {
    if LabelBlock(s).Ok? {
      var s0 := Space0(s);
      var s1 := Tag("{", s0).rest;
      var s2 := LabelPairList(s1).rest;
      var s2b := Space0(s2);
      TagRest("{", s0);
      LabelPairListRest(s1);
      TagRest("}", s2b);
      SuffixTransitive(s1, s0, s);
      SuffixTransitive(s2, s1, s);
      SuffixTransitive(s2b, s2, s);
      SuffixTransitive(LabelBlock(s).rest, s2b, s);
    }
  }

  lemma {:induction false} ReadLabelRest(s: string)
    ensures IsSuffix(ReadLabel(s).rest, s)
  {
    LabelBlockRest(s);
    SuffixOfSelf(s);
  }

  // ---------------------------------------------------------------------------
  // Numbers, values and timestamps.

  lemma {:induction false} OptSignRest(s: string)
    ensures IsSuffix(OptSign(s).1, s)
  {
    if s != [] && IsSign(s[0]) {
      SuffixOfDrop(s, 1);
    } else {
      SuffixOfSelf(s);
    }
  }

  lemma {:induction false} MantissaRest(s: string)
    ensures Mantissa(s).Ok? ==> IsSuffix(Mantissa(s).rest, s)
  {
    var (intDigits, s1) := TakeWhile(IsDigit, s);
    TakeWhileRest(IsDigit, s);
    if s1 != [] && s1[0] == '.' {
      TakeWhileRest(IsDigit, s1[1..]);
      SuffixOfDrop(s1, 1);
      SuffixTransitive(s1[1..], s1, s);
      SuffixTransitive(TakeWhile(IsDigit, s1[1..]).1, s1[1..], s);
    }
  }

  lemma {:induction false} ExponentRest(s: string)
    ensures Exponent(s).Ok? ==> IsSuffix(Exponent(s).rest, s)
  {
    if Exponent(s).Ok? {
      var t := OptSign(s[1..]).1;
      SuffixOfDrop(s, 1);
      OptSignRest(s[1..]);
      TakeWhileRest(IsDigit, t);
      SuffixTransitive(t, s[1..], s);
      SuffixTransitive(TakeWhile(IsDigit, t).1, t, s);
    }
  }

  lemma {:induction false} RecognizeFloatRest(s: string)
    ensures RecognizeFloat(s).Ok? ==> IsSuffix(RecognizeFloat(s).rest, s)
  {
    if RecognizeFloat(s).Ok? {
      var s1 := OptSign(s).1;
      var s2 := Mantissa(s1).rest;
      OptSignRest(s);
      MantissaRest(s1);
      ExponentRest(s2);
      SuffixTransitive(s1, s, s);
      SuffixTransitive(s2, s1, s);
      if Exponent(s2).Ok? {
        SuffixTransitive(Exponent(s2).rest, s2, s);
      }
    }
  }

  lemma {:induction false} SpecialValueRest(s: string)
    ensures SpecialValue(s).Ok? ==> IsSuffix(SpecialValue(s).rest, s)
  {
    if SpecialValue(s).Ok? {
      var k := |s| - |SpecialValue(s).rest|;
      assert SpecialValue(s).rest == s[k..];
    }
  }

  lemma {:induction false} DoubleRest(s: string)
    ensures Double(s).Ok? ==> IsSuffix(Double(s).rest, s)
  {
    RecognizeFloatRest(s);
    SpecialValueRest(s);
  }

  lemma {:induction false} ReadValueRest(s: string)
    ensures ReadValue(s).Ok? ==> IsSuffix(ReadValue(s).rest, s)
  {
    var t := Space0(s);
    if ReadValue(s).Ok? {
      TagRest("+Inf", t);
      TagRest("-Inf", t);
      DoubleRest(t);
      SuffixTransitive(ReadValue(s).rest, t, s);
    }
  }

  lemma {:induction false} ReadTimestampRest(s: string)
    ensures ReadTimestamp(s).Ok? ==> IsSuffix(ReadTimestamp(s).rest, s)
  {
    var t := Space0(s);
    DoubleRest(t);
    SuffixOfSelf(s);
    if Double(t).Ok? {
      SuffixTransitive(Double(t).rest, t, s);
    }
  }

  // ---------------------------------------------------------------------------
  // Lines.

  lemma {:induction false} ValueAndTimestampRest(s: string)
    ensures ValueAndTimestamp(s).Ok? ==> IsSuffix(ValueAndTimestamp(s).rest, s)
  {
    if ValueAndTimestamp(s).Ok? {
      var s1 := ReadValue(s).rest;
      ReadValueRest(s);
      ReadTimestampRest(s1);
      SuffixTransitive(ValueAndTimestamp(s).rest, s1, s);
    }
  }

  /** `read_sample_line` consumes a prefix of the line. */
  lemma {:induction false} ReadSampleLineRest(s: string)
    ensures ReadSampleLine(s).Ok? ==> IsSuffix(ReadSampleLine(s).rest, s)
  {
    if ReadSampleLine(s).Ok? {
      var s1 := ReadVariableName(s).rest;
      var s2 := ReadLabel(s1).rest;
      SampleLineSteps(s);
      ReadVariableNameRest(s);
      ReadLabelRest(s1);
      ValueAndTimestampRest(s2);
      SuffixTransitive(s2, s1, s);
      SuffixTransitive(ReadSampleLine(s).rest, s2, s);
    }
  }

  /** The remainder of a sample line is the remainder of its value and timestamp. */
  lemma {:induction false} SampleLineSteps(s: string)
    requires ReadSampleLine(s).Ok?
    ensures var s2 := ReadLabel(ReadVariableName(s).rest).rest;
      ValueAndTimestamp(s2).Ok? && ReadSampleLine(s).rest == ValueAndTimestamp(s2).rest
  {
  }

  /** `read_comment_line` consumes a prefix of the line. */
  lemma {:induction false} ReadCommentLineRest(s: string)
    ensures ReadCommentLine(s).Ok? ==> IsSuffix(ReadCommentLine(s).rest, s)
  {
    if ReadCommentLine(s).Ok? {
      var s1 := Tag("#", s).rest;
      var s1b := Space0(s1);
      var s2 := CommentTypeTag(s1b).rest;
      var s2b := Space0(s2);
      var s3 := ReadVariableName(s2b).rest;
      var s3b := Space0(s3);
      TagRest("#", s);
      TagRest("HELP", s1b);
      TagRest("TYPE", s1b);
      ReadVariableNameRest(s2b);
      NotLineEndingRest(s3b);
      SuffixTransitive(s1b, s1, s);
      SuffixTransitive(s2, s1b, s);
      SuffixTransitive(s2b, s2, s);
      SuffixTransitive(s3, s2b, s);
      SuffixTransitive(s3b, s3, s);
      SuffixTransitive(ReadCommentLine(s).rest, s3b, s);
    }
  }
}
