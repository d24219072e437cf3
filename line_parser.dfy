/** The line parser of the Prometheus text exposition format: one line is read
    either as a sample (`name{label="value",...} value [timestamp]`) or as a
    `# HELP` / `# TYPE` comment. Every rule takes the text still to be read and
    returns a `Result`: a value with the unconsumed remainder, or a failure. */
module LineParser {
  import opened Combinators
  import opened Number
  import opened Labels

  predicate IsAlphanumeric(c: char) {
    'a' <= c <= 'z' || 'A' <= c <= 'Z' || '0' <= c <= '9'
  }

  /** `is_metric_char`: the characters of metric and label names. None of the
      delimiters of the line grammar is one of them. */
  predicate IsMetricChar(c: char)
    ensures IsMetricChar(c) ==> !IsBlank(c) && c != '{' && c != '}' && c != '=' && c != ',' && c != '"' && c != '#' && c != '+' && c != '-'
  {
    IsAlphanumeric(c) || c == '_' || c == ':' || c == '.'
  }

  predicate IsName(t: string) {
    forall i :: 0 <= i < |t| ==> IsMetricChar(t[i])
  }

  /** `read_variable_name`: skips blanks, then takes the longest run of name
      characters, which may be empty. It never fails. */
  function ReadVariableName(s: string): (r: Result<string>)
    ensures r.Ok? && r.value + r.rest == Space0(s)
    ensures IsName(r.value) && (r.rest == [] || !IsMetricChar(r.rest[0]))
  {
    var (name, rest) := TakeWhile(IsMetricChar, Space0(s));
    Ok(name, rest)
  }

  // ---------------------------------------------------------------------------
  // Quoted strings.

  /** `none_of("\\\"")`: the characters that stand for themselves in a quoted string. */
  predicate IsNormal(c: char) {
    c != '\\' && c != '"'
  }

  /** `one_of("\"\\'n")`: the characters that may follow a backslash. */
  predicate IsEscapable(c: char) {
    c == '"' || c == '\\' || c == '\'' || c == 'n'
  }

  /** Text made only of normal characters and escape pairs: what
      `escaped(none_of("\\\""), '\\', one_of("\"\\'n"))` reads in full. */
  predicate IsQuotedBody(b: string)
    decreases |b|
  {
    if b == [] then true
    else if IsNormal(b[0]) then IsQuotedBody(b[1..])
    else b[0] == '\\' && |b| >= 2 && IsEscapable(b[1]) && IsQuotedBody(b[2..])
  }

  /** Why the scan of a quoted-string body stopped. */
  datatype BodyStop = AtEnd | AtQuote | AtBadEscape

  /** The loop inside nom's `escaped`: how many characters of `t` form a body,
      and what follows them. */
  function ScanBody(t: string): (r: (nat, BodyStop))
    ensures r.0 <= |t| && IsQuotedBody(t[..r.0])
    ensures r.1 == AtEnd ==> r.0 == |t|
    ensures r.1 == AtQuote ==> r.0 < |t| && t[r.0] == '"'
    ensures r.1 == AtBadEscape ==>
              r.0 < |t| && t[r.0] == '\\' && (r.0 + 1 == |t| || !IsEscapable(t[r.0 + 1]))
  {
    if t == [] then (0, AtEnd)
    else if IsNormal(t[0]) then
      var (k, stop) := ScanBody(t[1..]);
      assert t[..k + 1][1..] == t[1..][..k];
      (k + 1, stop)
    else if t[0] == '\\' && |t| >= 2 && IsEscapable(t[1]) then
      var (k, stop) := ScanBody(t[2..]);
      assert t[..k + 2][2..] == t[2..][..k];
      (k + 2, stop)
    else if t[0] == '\\' then (0, AtBadEscape)
    else (0, AtQuote)
  }

  /** nom's `escaped` with the sets above: succeeds with the whole input when
      the body runs to its end, with the non-empty body before a `"`, and fails
      on a backslash that is last or followed by anything else, and on a `"`
      right at the start. */
  function Escaped(s: string): (r: Result<string>)
    ensures !r.Failure?
    ensures r.Ok? ==> s == r.value + r.rest && IsQuotedBody(r.value)
    ensures r.Ok? ==> (r.rest == [] || (r.rest[0] == '"' && r.value != []))
    ensures s != [] && s[0] == '"' ==> r.Error?
  {
    var (k, stop) := ScanBody(s);
    match stop
    case AtEnd => assert s[..k] == s; Ok(s, [])
    case AtQuote => if k == 0 then Error else assert s == s[..k] + s[k..]; Ok(s[..k], s[k..])
    case AtBadEscape => Error
  }

  /** `s.replace("\\\\", "\\")`: every doubled backslash, found from left to
      right without overlapping, becomes a single one. */
  function Unescape(t: string): (r: string)
    ensures |r| <= |t| <= 2 * |r|
    ensures t != [] ==> r[0] == t[0]
  {
    if |t| >= 2 && t[0] == '\\' && t[1] == '\\' then "\\" + Unescape(t[2..])
    else if t == [] then []
    else [t[0]] + Unescape(t[1..])
  }

  /** `alt((escaped(...), tag("")))`: an empty body where `escaped` finds none. */
  function EscapedOrEmpty(s: string): (r: Result<string>)
    ensures r.Ok?
    ensures r.Ok? ==> s == r.value + r.rest && IsQuotedBody(r.value)
  {
    match Escaped(s)
    case Error => Tag("", s)
    case other => other
  }

  /** `read_quoted_string`: a `"`, a body (possibly empty: the `alt` falls back
      to `tag("")`), and a closing `"`. The value is the body with doubled
      backslashes collapsed; every other escape pair is kept as it is. */
  function ReadQuotedString(s: string): (r: Result<string>)
    ensures !r.Failure?
    ensures s == [] || s[0] != '"' ==> r.Error?
    ensures r.Ok? ==> |r.rest| + 2 <= |s|
  {
    match Tag("\"", s)
    case Error => Error
    case Failure => Failure
    case Ok(_, s1) =>
    match EscapedOrEmpty(s1)
    case Error => Error
    case Failure => Failure
    case Ok(raw, s2) =>
    match Tag("\"", s2)
    case Error => Error
    case Failure => Failure
    case Ok(_, s3) =>
    Ok(Unescape(raw), s3)
  }

  // ---------------------------------------------------------------------------
  // Label blocks.

  /** `preceded(space0, terminated(tag(t), space0))`: `t` with blanks around it. */
  function SpacedTag(t: string, s: string): (r: Result<string>)
    ensures !r.Failure?
    ensures r.Ok? <==> t <= Space0(s)
    ensures r.Ok? ==> |r.rest| + |t| <= |s|
    ensures r.Ok? ==> r.rest == [] || !IsBlank(r.rest[0])
  {
    match Tag(t, Space0(s))
    case Error => Error
    case Failure => Failure
    case Ok(_, s1) =>
    Ok(t, Space0(s1))
  }

  /** `separated_pair(read_variable_name, <spaced "=">, read_quoted_string)`. */
  function LabelPair(s: string): (r: Result<(string, string)>)
    ensures !r.Failure?
    ensures r.Ok? ==> |r.rest| < |s| && IsName(r.value.0)
  {
    match ReadVariableName(s)
    case Error => Error
    case Failure => Failure
    case Ok(name, s1) =>
    match SpacedTag("=", s1)
    case Error => Error
    case Failure => Failure
    case Ok(_, s2) =>
    match ReadQuotedString(s2)
    case Error => Error
    case Failure => Failure
    case Ok(value, s3) =>
    Ok((name, value), s3)
  }

  /** `separated_list0(<spaced ",">, LabelPair)`: no pair at all is an empty
      list that consumes nothing. */
  function LabelPairList(s: string): (r: Result<LabelPairs>)
    ensures r.Ok? && |r.rest| <= |s|
  {
    match LabelPair(s)
    case Error => Ok([], s)
    case Failure => Failure
    case Ok(p, s1) =>
      match MoreLabelPairs(s1)
      case Error => Error
      case Failure => Failure
      case Ok(ps, s2) =>
      Ok([p] + ps, s2)
  }

  /** The loop of `separated_list0` after the first pair: each round reads a
      separator and a pair, and a round in which either is missing ends the
      list BEFORE the separator. (nom also fails the whole list with an
      `Error` when a separator consumes nothing; this separator always
      consumes its comma, so that cannot happen.) */
  function MoreLabelPairs(s: string): (r: Result<LabelPairs>)
    ensures r.Ok? && |r.rest| <= |s|
    decreases |s|
  {
    match SpacedTag(",", s)
    case Error => Ok([], s)
    case Failure => Failure
    case Ok(_, s1) =>
      match LabelPair(s1)
      case Error => Ok([], s)
      case Failure => Failure
      case Ok(p, s2) =>
        match MoreLabelPairs(s2)
        case Error => Error
        case Failure => Failure
        case Ok(ps, s3) =>
        Ok([p] + ps, s3)
  }

  /** The `delimited(<spaced "{">, <pair list>, <spaced "}">)` that `read_label`
      makes optional. */
  function LabelBlock(s: string): (r: Result<LabelPairs>)
    ensures !r.Failure?
    ensures r.Ok? ==> Space0(s) != [] && Space0(s)[0] == '{' && |r.rest| < |s|
  {
    match Tag("{", Space0(s))
    case Error => Error
    case Failure => Failure
    case Ok(_, s1) =>
    match LabelPairList(s1)
    case Error => Error
    case Failure => Failure
    case Ok(pairs, s2) =>
    match Tag("}", Space0(s2))
    case Error => Error
    case Failure => Failure
    case Ok(_, s3) =>
    Ok(pairs, s3)
  }

  /** `read_label`: the label set of an optional block. It never fails: when
      there is no well-formed block it yields no labels and consumes nothing. */
  function ReadLabel(s: string): (r: Result<map<string, string>>)
    ensures r.Ok? && |r.rest| <= |s|
    ensures (Space0(s) == [] || Space0(s)[0] != '{') ==> r == Ok(map[], s)
  {
    match LabelBlock(s)
    case Ok(pairs, rest) => Ok(LabelMap(pairs), rest)
    case Error => Ok(map[], s)
    case Failure => Failure
  }

  // ---------------------------------------------------------------------------
  // Values and timestamps.

  /** `map(tag("+Inf"), |_| f64::INFINITY)` */
  function PosInfTag(s: string): Result<Value> {
    match Tag("+Inf", s)
    case Error => Error
    case Failure => Failure
    case Ok(_, rest) =>
    Ok(PosInf, rest)
  }

  /** `map(tag("-Inf"), |_| f64::NEG_INFINITY)` */
  function NegInfTag(s: string): Result<Value> {
    match Tag("-Inf", s)
    case Error => Error
    case Failure => Failure
    case Ok(_, rest) =>
    Ok(NegInf, rest)
  }

  /** `read_value`: after the blanks, `+Inf`, then `-Inf`, then a number. */
  function ReadValue(s: string): (r: Result<Value>)
    ensures Space0(s) == [] || !IsNumberStart(Space0(s)[0]) ==> r.Error?
    ensures r.Ok? ==> |r.rest| < |Space0(s)|
  {
    var t := Space0(s);
    match PosInfTag(t)
    case Error =>
      (match NegInfTag(t)
       case Error => Double(t)
       case other => other)
    case other => other
  }

  /** `map(read_double, |f: f64| f as i64)` */
  function TimestampNumber(s: string): (r: Result<int>)
    ensures r.Ok? ==> I64Min <= r.value <= I64Max && |r.rest| < |s|
    ensures r.Ok? <==> Double(s).Ok?
    ensures r.Failure? <==> Double(s).Failure?
    ensures r.Ok? ==> r.rest == Double(s).rest
    ensures r.Ok? && Double(s).value.Finite? && I64Min as real <= RealValue(Double(s).value) < I64Max as real + 1.0 ==>
              r.value == TruncateTowardZero(RealValue(Double(s).value))
  {
    match Double(s)
    case Error => Error
    case Failure => Failure
    case Ok(f, rest) =>
    Ok(AsI64(f), rest)
  }

  /** `read_timestamp`: an optional number after blanks, as an integer. No
      number is no timestamp and consumes nothing; only a malformed exponent
      (the `cut` in the number) makes it fail. */
  function ReadTimestamp(s: string): (r: Result<Option<int>>)
    ensures !r.Error?
    ensures r.Ok? && r.value.None? ==> r.rest == s
    ensures r.Ok? && r.value.Some? ==> I64Min <= r.value.value <= I64Max && |r.rest| < |Space0(s)|
    ensures Space0(s) == [] || !IsNumberStart(Space0(s)[0]) ==> r == Ok(None, s)
    ensures (r.Ok? && r.value.Some?) <==> Double(Space0(s)).Ok?
    ensures Double(Space0(s)).Error? ==> r == Ok(None, s)
    ensures r.Failure? <==> Double(Space0(s)).Failure?
    ensures r.Ok? && r.value.Some? ==>
              r.value.value == AsI64(Double(Space0(s)).value) && r.rest == Double(Space0(s)).rest
  {
    match TimestampNumber(Space0(s))
    case Ok(t, rest) => Ok(Some(t), rest)
    case Error => Ok(None, s)
    case Failure => Failure
  }

  // ---------------------------------------------------------------------------
  // Lines.

  datatype CommentType = HELP | TYPE

  /** A `# HELP` or `# TYPE` declaration: the metric it is about, which kind it
      is, and its free text. */
  datatype Comment = Comment(metric: string, kind: CommentType, desc: string)

  /** One observation of a metric. */
  datatype Sample = Sample(name: string, labels: map<string, string>, value: Value, timestamp: Option<int>)

  function HelpTag(s: string): Result<CommentType> {
    match Tag("HELP", s)
    case Error => Error
    case Failure => Failure
    case Ok(_, rest) =>
    Ok(HELP, rest)
  }

  function TypeTag(s: string): Result<CommentType> {
    match Tag("TYPE", s)
    case Error => Error
    case Failure => Failure
    case Ok(_, rest) =>
    Ok(TYPE, rest)
  }

  /** `alt((tag("HELP"), tag("TYPE")))` */
  function CommentTypeTag(s: string): (r: Result<CommentType>)
    ensures !r.Failure?
    ensures r.Ok? <==> "HELP" <= s || "TYPE" <= s
    ensures r.Ok? ==> (r.value == HELP <==> "HELP" <= s) && r.rest == s[4..]
  {
    match HelpTag(s)
    case Error => TypeTag(s)
    case other => other
  }

  /** `read_comment_line`: `#`, blanks, `HELP` or `TYPE`, the metric name and
      the rest of the line, each after optional blanks. */
  function ReadCommentLine(s: string): (r: Result<Comment>)
    ensures !r.Failure?
    ensures r.Ok? ==> s != [] && s[0] == '#' && |r.rest| < |s|
    ensures r.Ok? ==> IsName(r.value.metric)
  {
    match Tag("#", s)
    case Error => Error
    case Failure => Failure
    case Ok(_, s1) =>
    match CommentTypeTag(Space0(s1))
    case Error => Error
    case Failure => Failure
    case Ok(kind, s2) =>
    match ReadVariableName(Space0(s2))
    case Error => Error
    case Failure => Failure
    case Ok(name, s3) =>
    match NotLineEnding(Space0(s3))
    case Error => Error
    case Failure => Failure
    case Ok(desc, s4) =>
    Ok(Comment(name, kind, desc), s4)
  }

  /** The last two parts of a sample line: the value and the optional timestamp. */
  function ValueAndTimestamp(s: string): (r: Result<(Value, Option<int>)>)
    ensures r.Ok? ==> |r.rest| < |s|
    ensures r.Ok? && r.value.1.Some? ==> I64Min <= r.value.1.value <= I64Max
  {
    match ReadValue(s)
    case Error => Error
    case Failure => Failure
    case Ok(value, s1) =>
    match ReadTimestamp(s1)
    case Error => Error
    case Failure => Failure
    case Ok(timestamp, s2) =>
    Ok((value, timestamp), s2)
  }

  /** `read_sample_line`: name, optional label block, value, optional
      timestamp, in that order. */
  function ReadSampleLine(s: string): (r: Result<Sample>)
    ensures r.Ok? ==> |r.rest| < |s| && IsName(r.value.name)
    ensures r.Ok? && r.value.timestamp.Some? ==> I64Min <= r.value.timestamp.value <= I64Max
  {
    match ReadVariableName(s)
    case Error => Error
    case Failure => Failure
    case Ok(name, s1) =>
    match ReadLabel(s1)
    case Error => Error
    case Failure => Failure
    case Ok(labels, s2) =>
    match ValueAndTimestamp(s2)
    case Error => Error
    case Failure => Failure
    case Ok(reading, s3) =>
    Ok(Sample(name, labels, reading.0, reading.1), s3)
  }

  /** `try_read_sample`: the sample a line starts with, whatever follows it. */
  function TryReadSample(line: string): (r: Option<Sample>)
    ensures r.Some? <==> ReadSampleLine(line).Ok?
    ensures r.Some? ==> r.value == ReadSampleLine(line).value
  {
    match ReadSampleLine(line)
    case Ok(sample, _) => Some(sample)
    case _ => None
  }

  /** `try_read_comment`: the comment a line starts with, whatever follows it. */
  function TryReadComment(line: string): (r: Option<Comment>)
    ensures r.Some? <==> ReadCommentLine(line).Ok?
    ensures r.Some? ==> r.value == ReadCommentLine(line).value
  {
    match ReadCommentLine(line)
    case Ok(comment, _) => Some(comment)
    case _ => None
  }
}
