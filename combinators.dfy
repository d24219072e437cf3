/** The handful of nom combinators the line parser is built from, re-implemented
    over `string` (that is, `seq<char>`) with complete input.

    A parser takes the text still to be read and either succeeds with a value and
    the unconsumed remainder, fails with a recoverable `Error` (over which `alt`,
    `opt` and `separated_list0` backtrack), or fails with an unrecoverable
    `Failure` (what nom's `cut` produces; no combinator used here catches it). */
module Combinators {

  datatype Option<+T> = None | Some(value: T)

  /** nom's `IResult` for complete `&str` input. `Incomplete` cannot arise with
      the complete parsers, and the error payload is not modelled. Parsers in
      sequence (nom's `tuple`, `preceded`, `terminated`, `delimited`) are
      written as nested matches: the first failure, of either kind, is the
      failure of the whole sequence. */
  datatype Result<+T> = Ok(value: T, rest: string) | Error | Failure

  /** `r` is what is left of `s` once some prefix of `s` has been consumed. */
  predicate IsSuffix(r: string, s: string) {
    |r| <= |s| && r == s[|s| - |r|..]
  }

  lemma {:induction false} SuffixTransitive(a: string, b: string, c: string)
    requires IsSuffix(a, b) && IsSuffix(b, c)
    ensures IsSuffix(a, c)
  {
    assert c[|c| - |b|..][|b| - |a|..] == c[|c| - |a|..];
  }

  /** nom's `tag`: succeeds exactly on the inputs that start with `t`. */
  function Tag(t: string, s: string): (r: Result<string>)
    ensures !r.Failure?
    ensures r.Ok? <==> t <= s
    ensures r.Ok? ==> r.value == t && s == t + r.rest
  {
    if t <= s then Ok(t, s[|t|..]) else Error
  }

  /** ASCII case folding, as nom's `tag_no_case` applies it to the letters it
      is used with here. */
  function LowerAscii(c: char): char {
    if 'A' <= c <= 'Z' then (c as int + 32) as char else c
  }

  predicate EqualNoCase(a: string, b: string) {
    |a| == |b| && forall i :: 0 <= i < |a| ==> LowerAscii(a[i]) == LowerAscii(b[i])
  }

  /** nom's `tag_no_case`: the value is the matched text of the input. */
  function TagNoCase(t: string, s: string): (r: Result<string>)
    ensures !r.Failure?
    ensures r.Ok? <==> |t| <= |s| && EqualNoCase(t, s[..|t|])
    ensures r.Ok? ==> r.value == s[..|t|] && r.rest == s[|t|..]
  {
    if |t| <= |s| && EqualNoCase(t, s[..|t|]) then Ok(s[..|t|], s[|t|..]) else Error
  }

  /** nom's `take_while`: the longest prefix of `s` whose characters all satisfy
      `p`, and what follows it. It never fails. */
  function TakeWhile(p: char -> bool, s: string): (r: (string, string))
    ensures r.0 + r.1 == s
    ensures forall i :: 0 <= i < |r.0| ==> p(r.0[i])
    ensures r.1 == [] || !p(r.1[0])
  {
    if s == [] || !p(s[0]) then ([], s)
    else
      var (taken, rest) := TakeWhile(p, s[1..]);
      assert s == [s[0]] + s[1..];
      assert forall i :: 0 < i <= |taken| ==> ([s[0]] + taken)[i] == taken[i - 1];
      ([s[0]] + taken, rest)
  }

  /** The characters nom's `space0` skips. */
  predicate IsBlank(c: char) {
    c == ' ' || c == '\t'
  }

  predicate AllBlank(g: string) {
    forall i :: 0 <= i < |g| ==> IsBlank(g[i])
  }

  /** nom's `space0`, keeping only the remainder (every use discards the blanks). */
  function Space0(s: string): (r: string)
    ensures IsSuffix(r, s)
    ensures AllBlank(s[..|s| - |r|])
    ensures r == [] || !IsBlank(r[0])
  {
    var (blanks, rest) := TakeWhile(IsBlank, s);
    assert s[..|s| - |rest|] == blanks;
    rest
  }

  predicate IsLineBreak(c: char) {
    c == '\r' || c == '\n'
  }

  /** Position of the first carriage return or line feed in `s` (`|s|` if none). */
  function LineBreakIndex(s: string): (k: nat)
    ensures k <= |s|
    ensures forall j :: 0 <= j < k ==> !IsLineBreak(s[j])
    ensures k < |s| ==> IsLineBreak(s[k])
  {
    if s == [] || IsLineBreak(s[0]) then 0 else 1 + LineBreakIndex(s[1..])
  }

  /** nom's `not_line_ending` for complete input: everything up to the first
      line break. A carriage return not followed by a line feed at that point
      is an `Error`. */
  function NotLineEnding(s: string): (r: Result<string>)
    ensures !r.Failure?
    ensures r.Ok? ==> s == r.value + r.rest && forall i :: 0 <= i < |r.value| ==> !IsLineBreak(r.value[i])
    ensures r.Ok? ==> r.rest == [] || r.rest[0] == '\n' || (|r.rest| >= 2 && r.rest[..2] == "\r\n")
    ensures var k := LineBreakIndex(s);
      r.Error? <==> k < |s| && s[k] == '\r' && (k + 1 == |s| || s[k + 1] != '\n')
  {
    var k := LineBreakIndex(s);
    if k < |s| && s[k] == '\r' && !(k + 1 < |s| && s[k + 1] == '\n') then
      Error
    else
      assert s == s[..k] + s[k..];
      assert k < |s| ==> s[k..][0] == s[k];
      assert k + 1 < |s| ==> s[k..][..2] == [s[k], s[k + 1]];
      Ok(s[..k], s[k..])
  }

  // ---------------------------------------------------------------------------
  // Sequence algebra, kept in lemmas of their own so that proofs about the
  // parsers do not have to rediscover it.

  lemma {:induction false} Associative(u: string, v: string, w: string)
    ensures u + (v + w) == (u + v) + w
  {
  }

  lemma {:induction false} AppendEmpty(t: string)
    ensures t + [] == t && [] + t == t
  {
  }

  lemma {:induction false} SplitAt(a: string, b: string, k: nat)
    requires k <= |a|
    ensures a == a[..k] + a[k..] && a + b == a[..k] + (a[k..] + b)
  {
  }

  lemma {:induction false} PartsOfConcat(a: string, b: string)
    ensures (a + b)[..|a|] == a && (a + b)[|a|..] == b
  {
  }

  // ---------------------------------------------------------------------------
  // Facts about the primitives that the compositions rely on.

  /** `tag` consumes exactly its text. */
  lemma {:induction false} TagOf(t: string, x: string)
    ensures Tag(t, t + x) == Ok(t, x)
  {
    PartsOfConcat(t, x);
  }

  /** `take_while` is determined by its contract: any split of `s` into a
      prefix satisfying `p` and a remainder that does not start with such a
      character is the one it returns. */
  lemma {:induction false} TakeWhileUnique(p: char -> bool, a: string, b: string)
    requires forall i :: 0 <= i < |a| ==> p(a[i])
    requires b == [] || !p(b[0])
    ensures TakeWhile(p, a + b) == (a, b)
  {
    if a == [] {
      assert a + b == b;
    } else {
      assert (a + b)[1..] == a[1..] + b;
      TakeWhileUnique(p, a[1..], b);
      assert [a[0]] + a[1..] == a;
    }
  }

  /** Blanks in front of the input do not change where `space0` stops. */
  lemma {:induction false} Space0Skips(g: string, t: string)
    requires AllBlank(g)
    ensures Space0(g + t) == Space0(t)
  {
    var (bt, rt) := TakeWhile(IsBlank, t);
    assert g + t == (g + bt) + rt;
    TakeWhileUnique(IsBlank, g + bt, rt);
  }

  /** `space0` stops at once on input that does not start with a blank. */
  lemma {:induction false} Space0Stops(t: string)
    requires t == [] || !IsBlank(t[0])
    ensures Space0(t) == t
  {
    TakeWhileUnique(IsBlank, [], t);
    assert [] + t == t;
  }

  /** Blanks followed by text that does not start with one are skipped to the text. */
  lemma {:induction false} BlanksBefore(g: string, x: string)
    requires AllBlank(g) && (x == [] || !IsBlank(x[0]))
    ensures Space0(g + x) == x
  {
    Space0Skips(g, x);
    Space0Stops(x);
  }

  /** Skipping blanks twice is skipping them once. */
  lemma {:induction false} Space0Idempotent(s: string)
    ensures Space0(Space0(s)) == Space0(s)
  {
    Space0Stops(Space0(s));
  }
}
