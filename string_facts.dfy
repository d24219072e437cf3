/** What `read_variable_name` and `read_quoted_string` accept and what they
    return, as properties of the rules in `LineParser`. */
module StringFacts {
  import opened Combinators
  import opened LineParser

  // ---------------------------------------------------------------------------
  // Names.

  /** What `read_variable_name` leaves behind: the input is blanks, the name,
      and the remainder. */
  lemma {:induction false} ReadVariableNameShape(s: string)
    ensures var r := ReadVariableName(s);
      var skipped := s[..|s| - |r.value| - |r.rest|];
      s == skipped + r.value + r.rest && AllBlank(skipped) && IsSuffix(r.rest, s)
  {
    var r := ReadVariableName(s);
    var s1 := Space0(s);
    assert s == s[..|s| - |s1|] + s1;
    assert s1[|r.value|..] == r.rest;
  }

  /** `read_variable_name` is determined by its contract: any split of the
      input into blanks, a name and a remainder that cannot continue the name
      is the one it returns. */
  lemma {:induction false} ReadVariableNameOf(g: string, n: string, t: string)
    requires AllBlank(g) && IsName(n)
    requires t == [] || !IsMetricChar(t[0])
    requires n + t == [] || !IsBlank((n + t)[0])
    ensures ReadVariableName(g + n + t) == Ok(n, t)
  {
    assert g + n + t == g + (n + t);
    Space0Skips(g, n + t);
    Space0Stops(n + t);
    TakeWhileUnique(IsMetricChar, n, t);
  }

  // The cases of `test_read_variable_name`; the `...Texts` lemmas only spell
  // out the literals.

  lemma {:induction false} NameOnlyExample()
    ensures ReadVariableName("alfa_123") == Ok("alfa_123", "")
  {
    NameOnlyTexts();
    ReadVariableNameOf("", "alfa_123", "");
  }

  lemma {:induction false} NameOnlyTexts()
    ensures "" + "alfa_123" + "" == "alfa_123" && IsName("alfa_123") && AllBlank("")
  {
  }

  lemma {:induction false} NameBetweenBlanksExample()
    ensures ReadVariableName(" beta:456 ") == Ok("beta:456", " ")
  {
    NameBetweenBlanksTexts();
    ReadVariableNameOf(" ", "beta:456", " ");
  }

  lemma {:induction false} NameBetweenBlanksTexts()
    ensures " " + "beta:456" + " " == " beta:456 " && IsName("beta:456") && AllBlank(" ")
  {
  }

  lemma {:induction false} NameBeforeBraceExample()
    ensures ReadVariableName(" gama.789{") == Ok("gama.789", "{")
  {
    NameBeforeBraceTexts();
    ReadVariableNameOf(" ", "gama.789", "{");
  }

  lemma {:induction false} NameBeforeBraceTexts()
    ensures " " + "gama.789" + "{" == " gama.789{" && IsName("gama.789") && AllBlank(" ")
  {
  }

  // ---------------------------------------------------------------------------
  // Quoted strings.

  /** The body scan stops exactly at the `"` that follows a complete body. */
  lemma {:induction false} ScanBodyOf(b: string, t: string)
    requires IsQuotedBody(b)
    ensures ScanBody(b + "\"" + t) == (|b|, AtQuote)
    decreases |b|
  {
    if b == [] {
      AppendEmpty("\"" + t);
      Associative(b, "\"", t);
    } else {
      var k := if IsNormal(b[0]) then 1 else 2;
      SplitAt(b, "\"" + t, k);
      Associative(b, "\"", t);
      Associative(b[k..], "\"", t);
      ScanBodyOf(b[k..], t);
      ScanBodyStep(b[..k], b[k..] + "\"" + t);
    }
  }

  /** One token of a body in front of the text being scanned. */
  lemma {:induction false} ScanBodyStep(token: string, x: string)
    requires (|token| == 1 && IsNormal(token[0])) || (|token| == 2 && token[0] == '\\' && IsEscapable(token[1]))
    ensures ScanBody(token + x) == (ScanBody(x).0 + |token|, ScanBody(x).1)
  {
    PartsOfConcat(token, x);
  }

  /** On a complete, non-empty body followed by `"`, `escaped` stops at the `"`. */
  lemma {:induction false} EscapedOf(b: string, t: string)
    requires IsQuotedBody(b) && b != []
    ensures Escaped(b + "\"" + t) == Ok(b, "\"" + t)
  {
    ScanBodyOf(b, t);
    Associative(b, "\"", t);
    PartsOfConcat(b, "\"" + t);
  }

  /** `read_quoted_string` accepts every quoted body, including the empty one,
      and returns it with doubled backslashes collapsed. */
  lemma {:induction false} ReadQuotedStringOf(b: string, t: string)
    requires IsQuotedBody(b)
    ensures ReadQuotedString("\"" + b + "\"" + t) == Ok(Unescape(b), t)
  {
    var s1 := b + "\"" + t;
    Associative("\"", b, "\"" + t);
    Associative("\"" + b, "\"", t);
    Associative(b, "\"", t);
    TagOf("\"", s1);
    if b == [] {
      ScanBodyOf(b, t);
      TagOf("", s1);
      AppendEmpty(s1);
      assert EscapedOrEmpty(s1) == Ok([], s1);
    } else {
      EscapedOf(b, t);
    }
    TagOf("\"", t);
  }

  /** Conversely, whatever `read_quoted_string` accepts is a quoted body
      between two `"`, and the value is that body with doubled backslashes
      collapsed. */
  lemma {:induction false} ReadQuotedStringShape(s: string)
    ensures var r := ReadQuotedString(s);
      r.Ok? ==>
        var raw := s[1..|s| - |r.rest| - 1];
        s == "\"" + raw + "\"" + r.rest && IsQuotedBody(raw) && r.value == Unescape(raw)
        && IsSuffix(r.rest, s)
  {
    var r := ReadQuotedString(s);
    if r.Ok? {
      var s1 := s[1..];
      var e := EscapedOrEmpty(s1);
      var raw, s2 := e.value, e.rest;
      var s3 := s2[1..];
      assert s2 == "\"" + s3;
      assert s1 == raw + "\"" + s3 by { Associative(raw, "\"", s3); }
      assert s == "\"" + s1;
      Associative("\"", raw, "\"" + s3);
      Associative("\"" + raw, "\"", s3);
      assert r.rest == s3;
      PartsOfConcat("\"" + raw + "\"", s3);
      PartsOfConcat("\"" + raw, "\"");
      PartsOfConcat("\"", raw);
    }
  }

  /** One character that is not a backslash is copied. */
  lemma {:induction false} UnescapeNormal(c: char, x: string)
    requires c != '\\'
    ensures Unescape([c] + x) == [c] + Unescape(x)
  {
    assert ([c] + x)[1..] == x;
  }

  /** A doubled backslash becomes one. */
  lemma {:induction false} UnescapeDoubled(x: string)
    ensures Unescape("\\\\" + x) == "\\" + Unescape(x)
  {
    assert ("\\\\" + x)[2..] == x;
  }

  /** A backslash followed by another character is copied. */
  lemma {:induction false} UnescapeSingle(c: char, x: string)
    requires c != '\\'
    ensures Unescape(['\\', c] + x) == ['\\', c] + Unescape(x)
  {
    var t := ['\\', c] + x;
    assert t[1..] == [c] + x;
    UnescapeNormal(c, x);
  }

  /** A single token of a body is collapsed on its own, whatever follows it. */
  lemma {:induction false} UnescapeToken(token: string, x: string)
    requires (|token| == 1 && IsNormal(token[0])) || (|token| == 2 && token[0] == '\\' && IsEscapable(token[1]))
    ensures Unescape(token + x) == Unescape(token) + Unescape(x)
  {
    AppendEmpty(token);
    if |token| == 1 {
      assert token == [token[0]];
      UnescapeNormal(token[0], x);
      UnescapeNormal(token[0], []);
    } else if token[1] == '\\' {
      assert token == "\\\\";
      UnescapeDoubled(x);
      UnescapeDoubled([]);
    } else {
      assert token == ['\\', token[1]];
      UnescapeSingle(token[1], x);
      UnescapeSingle(token[1], []);
    }
  }

  /** A body followed by more text is still read token by token: collapsing
      doubled backslashes never joins a backslash of the body with what
      follows it. */
  lemma {:induction false} UnescapeConcat(a: string, b: string)
    requires IsQuotedBody(a)
    ensures Unescape(a + b) == Unescape(a) + Unescape(b)
    decreases |a|
  {
    if a == [] {
      AppendEmpty(b);
    } else {
      var k := if IsNormal(a[0]) then 1 else 2;
      SplitAt(a, b, k);
      var token, tail := a[..k], a[k..];
      UnescapeConcat(tail, b);
      UnescapeToken(token, tail + b);
      UnescapeToken(token, tail);
      Associative(Unescape(token), Unescape(tail), Unescape(b));
    }
  }

  /** Text without two backslashes in a row is returned unchanged: the escapes
      `\n`, `\"` and `\'` keep both of their characters. */
  lemma {:induction false} UnescapeIdentity(t: string)
    requires forall i :: 0 <= i < |t| - 1 ==> !(t[i] == '\\' && t[i + 1] == '\\')
    ensures Unescape(t) == t
    decreases |t|
  {
    if t != [] {
      UnescapeIdentity(t[1..]);
      SplitAt(t, [], 1);
      if t[0] == '\\' {
        assert |t| >= 2 ==> t[1] != '\\';
      }
    }
  }

  /** Every backslash doubled: the text that reads back as `v`. */
  function Escape(v: string): (e: string)
    ensures |e| >= |v|
  {
    if v == [] then [] else (if v[0] == '\\' then "\\\\" else [v[0]]) + Escape(v[1..])
  }

  /** Doubling the backslashes of a text without `"` gives a quoted body that
      reads back as the text. */
  lemma {:induction false} EscapeRoundTrip(v: string)
    requires '"' !in v
    ensures IsQuotedBody(Escape(v)) && Unescape(Escape(v)) == v
  {
    if v != [] {
      var tail := v[1..];
      assert '"' !in tail by {
        assert forall i :: 0 <= i < |tail| ==> tail[i] == v[i + 1];
      }
      EscapeRoundTrip(tail);
      var token := if v[0] == '\\' then "\\\\" else [v[0]];
      assert Escape(v) == token + Escape(tail);
      PartsOfConcat(token, Escape(tail));
      UnescapeToken(token, Escape(tail));
      SplitAt(v, [], 1);
    }
  }

  /** Any text without `"` survives being quoted: written with its backslashes
      doubled between two `"`, it is read back exactly, whatever follows. */
  lemma {:induction false} QuotedRoundTrip(v: string, t: string)
    requires '"' !in v
    ensures ReadQuotedString("\"" + Escape(v) + "\"" + t) == Ok(v, t)
  {
    EscapeRoundTrip(v);
    ReadQuotedStringOf(Escape(v), t);
  }

  /** Text with neither a backslash nor a `"` is a body that stands for itself. */
  lemma {:induction false} PlainBody(t: string)
    requires '\\' !in t && '"' !in t
    ensures IsQuotedBody(t) && Unescape(t) == t
    decreases |t|
  {
    if t != [] {
      var tail := t[1..];
      assert '\\' !in tail && '"' !in tail by {
        assert forall i :: 0 <= i < |tail| ==> tail[i] == t[i + 1];
      }
      PlainBody(tail);
      SplitAt(t, [], 1);
      UnescapeNormal(t[0], tail);
    }
  }

  /** Bodies put one after the other form a body. */
  lemma {:induction false} BodyConcat(a: string, b: string)
    requires IsQuotedBody(a) && IsQuotedBody(b)
    ensures IsQuotedBody(a + b)
    decreases |a|
  {
    if a == [] {
      AppendEmpty(b);
    } else {
      var k := if IsNormal(a[0]) then 1 else 2;
      SplitAt(a, b, k);
      BodyConcat(a[k..], b);
      PartsOfConcat(a[..k], a[k..] + b);
    }
  }

  /** Three bodies in a row form one body, collapsed piece by piece. */
  lemma {:induction false} BodyPieces(a: string, b: string, c: string)
    requires IsQuotedBody(a) && IsQuotedBody(b) && IsQuotedBody(c)
    ensures IsQuotedBody(a + b + c)
    ensures Unescape(a + b + c) == Unescape(a) + Unescape(b) + Unescape(c)
  {
    BodyConcat(a, b);
    BodyConcat(a + b, c);
    UnescapeConcat(a + b, c);
    UnescapeConcat(a, b);
  }

  /** What an escape pair `\c` stands for in the value: a doubled backslash
      is one backslash, every other pair is kept as it is. */
  function EscapeValue(c: char): string {
    if c == '\\' then "\\" else ['\\', c]
  }

  /** An escape pair is a body worth its `EscapeValue`. */
  lemma {:induction false} EscapePairBody(c: char)
    requires IsEscapable(c)
    ensures IsQuotedBody(['\\', c]) && Unescape(['\\', c]) == EscapeValue(c)
  {
    AppendEmpty(['\\', c]);
    if c == '\\' {
      UnescapeDoubled([]);
    } else {
      UnescapeSingle(c, []);
    }
  }

  /** A quoted text made of plain text around one escape pair. */
  lemma {:induction false} QuotedOneEscape(p1: string, c: char, p2: string)
    requires '\\' !in p1 && '"' !in p1 && '\\' !in p2 && '"' !in p2 && IsEscapable(c)
    ensures ReadQuotedString("\"" + (p1 + ['\\', c] + p2) + "\"") == Ok(p1 + EscapeValue(c) + p2, "")
  {
    PlainBody(p1);
    PlainBody(p2);
    EscapePairBody(c);
    BodyPieces(p1, ['\\', c], p2);
    ReadQuotedStringOf(p1 + ['\\', c] + p2, "");
    AppendEmpty("\"" + (p1 + ['\\', c] + p2) + "\"");
  }

  /** Plain text around two escape pairs is a body, collapsed pair by pair. */
  lemma {:induction false} TwoEscapesBody(p1: string, c1: char, p2: string, c2: char, p3: string)
    requires '\\' !in p1 && '"' !in p1 && '\\' !in p2 && '"' !in p2 && '\\' !in p3 && '"' !in p3
    requires IsEscapable(c1) && IsEscapable(c2)
    ensures var b := p1 + ['\\', c1] + p2 + ['\\', c2] + p3;
      IsQuotedBody(b) && Unescape(b) == p1 + EscapeValue(c1) + p2 + EscapeValue(c2) + p3
  {
    PlainBody(p1);
    PlainBody(p2);
    PlainBody(p3);
    EscapePairBody(c1);
    EscapePairBody(c2);
    BodyPieces(p1, ['\\', c1], p2);
    BodyPieces(p1 + ['\\', c1] + p2, ['\\', c2], p3);
  }

  /** A quoted text made of plain text around two escape pairs. */
  lemma {:induction false} QuotedTwoEscapes(p1: string, c1: char, p2: string, c2: char, p3: string)
    requires '\\' !in p1 && '"' !in p1 && '\\' !in p2 && '"' !in p2 && '\\' !in p3 && '"' !in p3
    requires IsEscapable(c1) && IsEscapable(c2)
    ensures ReadQuotedString("\"" + (p1 + ['\\', c1] + p2 + ['\\', c2] + p3) + "\"")
         == Ok(p1 + EscapeValue(c1) + p2 + EscapeValue(c2) + p3, "")
  {
    TwoEscapesBody(p1, c1, p2, c2, p3);
    ReadQuotedStringOf(p1 + ['\\', c1] + p2 + ['\\', c2] + p3, "");
    AppendEmpty("\"" + (p1 + ['\\', c1] + p2 + ['\\', c2] + p3) + "\"");
  }

  // ---------------------------------------------------------------------------
  // The cases of `test_read_quoted_string`, each an instance of the lemmas
  // above; the `...Texts` lemmas only spell out the literals.

  lemma {:induction false} QuotedEmptyInputExample()
    ensures ReadQuotedString("").Error?
  {
  }

  lemma {:induction false} QuotedEmptyExample()
    ensures ReadQuotedString("\"\"") == Ok("", "")
  {
    ReadQuotedStringOf("", "");
    EmptyQuotedTexts();
  }

  lemma {:induction false} EmptyQuotedTexts()
    ensures "\"" + "" + "\"" + "" == "\"\""
  {
  }

  lemma {:induction false} QuotedPlainExample()
    ensures ReadQuotedString("\" alfa_123 \"") == Ok(" alfa_123 ", "")
  {
    PlainTexts();
    PlainBody(" alfa_123 ");
    ReadQuotedStringOf(" alfa_123 ", "");
  }

  lemma {:induction false} PlainTexts()
    ensures "\"" + " alfa_123 " + "\"" + "" == "\" alfa_123 \""
    ensures '\\' !in " alfa_123 " && '"' !in " alfa_123 "
  {
  }

  /** `\n` keeps both of its characters. */
  lemma {:induction false} QuotedNewlineExample()
    ensures ReadQuotedString("\"new\\nline\"") == Ok("new\\nline", "")
  {
    NewlineTexts();
    QuotedOneEscape("new", 'n', "line");
  }

  lemma {:induction false} NewlineTexts()
    ensures "\"" + ("new" + ['\\', 'n'] + "line") + "\"" == "\"new\\nline\""
    ensures "new" + EscapeValue('n') + "line" == "new\\nline"
    ensures '\\' !in "new" && '"' !in "new" && '\\' !in "line" && '"' !in "line"
  {
  }

  /** Each doubled backslash becomes one. */
  lemma {:induction false} QuotedBackslashExample()
    ensures ReadQuotedString("\" C:\\\\test\\\\ \"") == Ok(" C:\\test\\ ", "")
  {
    BackslashTexts();
    QuotedTwoEscapes(" C:", '\\', "test", '\\', " ");
  }

  lemma {:induction false} BackslashTexts()
    ensures "\"" + (" C:" + ['\\', '\\'] + "test" + ['\\', '\\'] + " ") + "\"" == "\" C:\\\\test\\\\ \""
    ensures " C:" + EscapeValue('\\') + "test" + EscapeValue('\\') + " " == " C:\\test\\ "
    ensures '\\' !in " C:" && '"' !in " C:" && '\\' !in "test" && '"' !in "test"
    ensures '\\' !in " " && '"' !in " "
  {
  }

  /** `\"` keeps both of its characters and does not end the string. */
  lemma {:induction false} QuotedQuoteExample()
    ensures ReadQuotedString("\"beta:\\\"456\\\"\"") == Ok("beta:\\\"456\\\"", "")
  {
    QuoteTexts();
    QuotedTwoEscapes("beta:", '"', "456", '"', "");
  }

  lemma {:induction false} QuoteTexts()
    ensures "\"" + ("beta:" + ['\\', '"'] + "456" + ['\\', '"'] + "") + "\"" == "\"beta:\\\"456\\\"\""
    ensures "beta:" + EscapeValue('"') + "456" + EscapeValue('"') + "" == "beta:\\\"456\\\""
    ensures '\\' !in "beta:" && '"' !in "beta:" && '\\' !in "456" && '"' !in "456"
    ensures '\\' !in "" && '"' !in ""
  {
  }

  /** Two different quoted texts give the same value: `\n` and `\\n` are
      both read as a backslash followed by `n`. */
  lemma {:induction false} UnescapeNotInjective()
    ensures ReadQuotedString("\"\\n\"") == Ok("\\n", "")
    ensures ReadQuotedString("\"\\\\n\"") == Ok("\\n", "")
  {
    AmbiguousTexts();
    QuotedOneEscape("", 'n', "");
    QuotedOneEscape("", '\\', "n");
  }

  lemma {:induction false} AmbiguousTexts()
    ensures "\"" + ("" + ['\\', 'n'] + "") + "\"" == "\"\\n\""
    ensures "\"" + ("" + ['\\', '\\'] + "n") + "\"" == "\"\\\\n\""
    ensures "" + EscapeValue('n') + "" == "\\n" && "" + EscapeValue('\\') + "n" == "\\n"
    ensures '\\' !in "" && '"' !in "" && '\\' !in "n" && '"' !in "n"
  {
  }
}
