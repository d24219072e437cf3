# Prometheus text-exposition line parser, in Dafny

This project models the line parser of `prometheus-wire`
(`src/parser/line_parser.rs`). The parser reads one line of the Prometheus
text exposition format as one of two records:

- a **sample**: `name{label="value",...} value [timestamp]`;
- a `# HELP` / `# TYPE` **comment**: `# HELP name free text`.

Each parsing rule is a pure function. It takes the text still to be read and
returns a `Result`, mirroring nom's `IResult`:

- `Ok(value, rest)`: the rule matched, and `rest` is the unread remainder;
- `Error`: a recoverable mismatch, which `opt` and `alt` catch;
- `Failure`: an unrecoverable one, which they do not catch.

The only source of `Failure` is the `cut` inside nom's float recogniser, hit
by an exponent marker with no digits after it.

Modules:

- `Combinators`: the nom primitives the parser uses: `tag`, `tag_no_case`,
  `take_while`, `space0` and `not_line_ending`.
- `Number`: nom's `double`.
  - `recognize_float` is modelled, and so are the case-insensitive `nan`,
    `inf` and `infinity` exceptions, tried in that order.
  - A finite value is kept as its exact decimal literal: sign, mantissa,
    scale and exponent. `RealValue` gives the rational it denotes.
  - Rust's saturating `f as i64` cast becomes `AsI64`.
- `Labels`: the label set, as a map built pair by pair so that the last pair
  with a given name wins. `LabelList::get_string` becomes `GetString`.
- `LineParser`: the rules of `line_parser.rs`, one function each.
- `StringFacts`, `LabelFacts`, `ValueFacts` and `LineFacts`: what each rule
  accepts and returns, both for all inputs and on the unit-test cases.
- `Remainders`: every rule leaves a suffix of its input unread.
- `LineExamples`: the test cases and doc examples for whole lines.

Two behaviours of the code worth knowing when reading the model:

- **Blanks before a comment's free text.** The free text is read after
  `space0`, so any number of blanks may precede it, including none.
  `LineFacts.ReadCommentLineOf` states this.
- **Trailing comma in a label block.** On `{a="1",}`, the label block's
  `separated_list0` stops in front of the comma, and `tag("}")` then fails on
  the comma. `opt` catches that `Error`, so `read_label` reads no labels and
  consumes nothing. `read_value` then fails on the `{`, so the whole sample
  fails (`LabelFacts.TrailingCommaRejected`,
  `LineFacts.TrailingCommaSampleFails`).

## Model

| member | source | states |
|---|---|---|
| LineParser.IsMetricChar | src/parser/line_parser.rs:21-23 | A metric character is never a blank, `{`, `}`, `=`, `,`, `"`, `#`, `+` or `-`, so every delimiter of the line grammar ends a name. |
| LineParser.ReadVariableName | src/parser/line_parser.rs:37-39 | Never fails. The name is made only of metric characters, and the name followed by the remainder is exactly the input with leading blanks removed. The remainder cannot continue the name. |
| StringFacts.ReadVariableNameOf | src/parser/line_parser.rs:21-39 | For any blanks, any name of `is_metric_char` characters (letters, digits, `_`, `:`, `.`) and any remainder not starting with such a character, the name and that remainder are what is read. |
| StringFacts.ReadVariableNameShape | src/parser/line_parser.rs:37-39 | Conversely, the input is always skipped blanks, then the name, then the remainder. |
| StringFacts.NameOnlyExample | src/parser/line_parser.rs:152-156 | `alfa_123` is read whole; `NameBetweenBlanksExample` and `NameBeforeBraceExample` cover ` beta:456 ` and ` gama.789{`. |
| LineParser.ReadQuotedString | src/parser/line_parser.rs:25-35 | Never a `Failure`. Text not starting with `"` is an `Error`, and a success consumes at least the two quotes. |
| StringFacts.ReadQuotedStringOf | src/parser/line_parser.rs:25-35 | Any body of normal characters and escape pairs (`\"`, `\\`, `\'`, `\n`) between quotes, the empty body included, is accepted. It yields the body with only `\\` collapsed, and the text after the closing quote is left. |
| StringFacts.ReadQuotedStringShape | src/parser/line_parser.rs:25-35 | Conversely, every success is a quote, a well-formed body, a quote and the remainder, and its value is that body unescaped. |
| StringFacts.UnescapeIdentity | src/parser/line_parser.rs:29 | Text with no doubled backslash is returned unchanged. |
| LineParser.Unescape | src/parser/line_parser.rs:29 | The result is at most as long as the input and at least half as long, since each replacement turns two backslashes into one. Its first character is the input's. |
| LineParser.Escaped | src/parser/line_parser.rs:26-28 | Never a `Failure`. A success reads a well-formed body, and that body followed by the rest is the input. The rest is empty, or starts with the `"` that ends a non-empty body, so a `"` at the start is an `Error`. |
| LineParser.EscapedOrEmpty | src/parser/line_parser.rs:32 | Never fails, because `tag("")` catches every `Error` of `escaped`. What it reads is a well-formed body, and that body followed by the rest is the input. |
| StringFacts.QuotedRoundTrip | src/parser/line_parser.rs:25-35 | Doubling every backslash of a value without `"` and quoting it reads back as that value. |
| StringFacts.QuotedTwoEscapes | src/parser/line_parser.rs:26-29 | Two escape pairs in plain text: only `\\` becomes one character, and every other pair is kept as written. |
| StringFacts.UnescapeNotInjective | src/parser/line_parser.rs:29 | `"\n"` and `"\\n"` read as the same value. |
| StringFacts.QuotedEmptyInputExample | src/parser/line_parser.rs:158-178 | The empty input is an error. The other `Quoted...Example` lemmas give the five accepted cases of the test. |
| LineParser.ReadLabel | src/parser/line_parser.rs:41-55 | Never fails. When the text after blanks does not start with `{`, there are no labels and nothing is consumed. |
| LineParser.SpacedTag | src/parser/line_parser.rs:45-48 | Succeeds exactly when the token follows the blanks, never a `Failure`. It consumes the blanks, the token and the blanks after it, so the rest never starts with a blank. |
| LineParser.LabelPair | src/parser/line_parser.rs:46-50 | Never a `Failure`. A pair consumes at least one character, and its name is made of metric characters. `LabelFacts.LabelPairOf` gives its result on every written pair. |
| LineParser.LabelPairList | src/parser/line_parser.rs:44-51 | `separated_list0` with these parsers never fails and never reads past its input. `LabelFacts.LabelPairListOf` gives its result on every written list. |
| LineParser.MoreLabelPairs | src/parser/line_parser.rs:44-51 | The rounds after the first pair never fail and never read past their input. `LabelFacts.MoreLabelPairsOf` gives their result. |
| LineParser.LabelBlock | src/parser/line_parser.rs:42-53 | Never a `Failure`. A block is read only from text that, after blanks, starts with `{`, and it consumes at least that `{`. |
| LabelFacts.ReadLabelOf | src/parser/line_parser.rs:41-55 | A block of well-formed pairs, with blanks anywhere around `{`, `,`, `=` and `}`, reads as the map of its names to their unescaped values, the last pair of a name winning. The text after `}` is left. |
| LabelFacts.ReadLabelIgnoresBlanks | src/parser/line_parser.rs:41-55 | A spaced block and the same block with every blank removed read the same. |
| LabelFacts.TrailingCommaRejected | src/parser/line_parser.rs:41-55 | A comma after the last pair makes the block unreadable: no labels are read and the block is left unread. |
| LabelFacts.NoBlockExamples | src/parser/line_parser.rs:180-218 | `""` and `" "` have no labels. `EmptyBlockExamples`, `OneLabelExamples`, `TwoLabelsExamples` and `TrailingCommaExample` cover the rest of the test, including the block with every blank removed. |
| Labels.LabelMapLastWins | src/parser/line_parser.rs:54 | The value stored under a name is that of the last pair with the name. |
| LineParser.ReadValue | src/parser/line_parser.rs:57-66 | Tries `PosInfTag`, `NegInfTag` and then `double`, after blanks. Text that after blanks does not start a number is an `Error`. A success consumes at least one character. |
| ValueFacts.ReadValuePosInf | src/parser/line_parser.rs:57-66 | `+Inf` after blanks is positive infinity, whatever follows. |
| ValueFacts.NegInfOnlyFromTag | src/parser/line_parser.rs:57-66 | The value is negative infinity if and only if the text after blanks starts with `-Inf`. |
| ValueFacts.ReadValueOfLiteral | src/parser/line_parser.rs:57-66 | On a decimal literal the infinity tags are skipped and the literal is read as `recognize_float` reads it. |
| ValueFacts.ReadScientificValueOf | src/parser/line_parser.rs:57-66 | Sign, digits, point, digits and an exponent read as that exact decimal value, with the rest left. |
| ValueFacts.ReadExponentValueOf | src/parser/line_parser.rs:57-66 | Sign, digits, `e` or `E` and an exponent, with no point, read as that exact decimal value, with the rest left. |
| ValueFacts.ReadValueIntegerOf | src/parser/line_parser.rs:57-66 | The text of an integer reads as a value equal to that integer. |
| ValueFacts.PointExamples | src/parser/line_parser.rs:220-233 | ` +154.0` is 154 and `-1500.0 ` is -1500. `ScientificExamples`, `InfinityExamples` and `NoValueExamples` cover the rest of the test, and `ExponentExamples` reads `1e3` and ` -2E-5 `. |
| Number.Double | src/parser/line_parser.rs:8 | `double` fails on text that cannot start a number, never yields negative infinity, and a finite value is never followed by a digit. |
| Number.AsI64 | src/parser/line_parser.rs:69 | `f as i64`: NaN gives 0 and the result is always in the 64-bit range. An in-range value is truncated toward zero. |
| LineParser.TimestampNumber | src/parser/line_parser.rs:69 | Succeeds exactly when `double` does, and leaves what it leaves. The number is within the 64-bit range, and a finite value within that range is truncated toward zero. |
| LineParser.ReadTimestamp | src/parser/line_parser.rs:68-71 | Never an `Error`. Whenever `double` finds no number after the blanks, with a lone sign, point or word included, there is no timestamp and nothing is consumed. It is a `Failure` exactly when `double` fails outright. Otherwise the timestamp is the number `double` reads, cast by `f as i64` (`Number.AsI64`) and so within the 64-bit range. |
| ValueFacts.ReadTimestampOf | src/parser/line_parser.rs:68-71 | Any 64-bit integer written after blanks is read as that timestamp. |
| ValueFacts.ReadTimestampOfLiteral | src/parser/line_parser.rs:68-71 | Any decimal literal after blanks, with a fraction or an exponent included, is read as its value cast by `f as i64`. A value within the 64-bit range is truncated toward zero. |
| ValueFacts.ReadTimestampAbsent | src/parser/line_parser.rs:68-71 | Blanks followed by text on which `double` fails recoverably give no timestamp and leave the input as it was. This covers text that cannot start a number, and `-`, `.` or a word; `NoNumberTimestampExamples` reads ` -`, ` .` and ` note`. |
| ValueFacts.ReadTimestampCut | src/parser/line_parser.rs:68-71 | Digits followed by an `e` with no exponent are a `Failure`, which `opt` does not turn into "no timestamp". |
| ValueFacts.TimestampExamples | src/parser/line_parser.rs:235-245 | The five cases of the timestamp test. `FractionalTimestampExamples` reads ` 1.9` as 1, ` -1.9` as -1 and ` 1.5e3` as 1500. |
| LineParser.ReadCommentLine | src/parser/line_parser.rs:73-85 | A comment is read only from text starting with `#`, and its name is made of metric characters. |
| LineParser.CommentTypeTag | src/parser/line_parser.rs:75 | Tries `HelpTag`, then `TypeTag`. Succeeds exactly on text starting with `HELP` or `TYPE`, gives `HELP` exactly for the former, and consumes those four letters. |
| LineFacts.ReadCommentLineOf | src/parser/line_parser.rs:73-85 | `#`, blanks, `HELP` or `TYPE`, blanks, a name (possibly empty), blanks and free text without a line break read as that comment. The line ending after the text is left. |
| LineFacts.CommentLineShape | src/parser/line_parser.rs:73-85 | Conversely, a comment comes from a line starting with `#` and then, after blanks, the keyword of its kind; its text holds no line break. |
| LineFacts.CommentNeedsKeyword | src/parser/line_parser.rs:73-85 | Without a leading `#` followed by `HELP` or `TYPE`, the line is not a comment. |
| LineExamples.HelpExample | src/parser/line_parser.rs:247-284 | The HELP line of the test. `UnknownKeywordExample`, `BareHelpExample`, `TypeExample` and `NameOnlyHelpExample` cover the other cases. |
| LineParser.ReadSampleLine | src/parser/line_parser.rs:88-94 | A sample consumes at least one character. Its name is made of metric characters, and its timestamp is within the 64-bit range. |
| LineFacts.ReadSampleLineOf | src/parser/line_parser.rs:88-94 | A name (possibly empty), a label block, a value and a timestamp read as the sample of that name, label map, value and timestamp. Whatever follows is left. |
| LineFacts.ReadSampleLineNoLabels | src/parser/line_parser.rs:88-94 | A name directly followed by a value reads with an empty label set. The name may be empty when what follows the blanks cannot continue a name, as with `-1` or `+Inf`. |
| LineFacts.SampleNeedsValue | src/parser/line_parser.rs:88-94 | When no number follows the name and labels, the line is not a sample. |
| LineFacts.SampleLabelLookup | src/parser/line_parser.rs:88-127 | `get_string` on a parsed sample returns each label's value as written, unescaped once, unless a later pair has the same name. |
| LineFacts.TrailingCommaSampleFails | src/parser/line_parser.rs:41-94 | A trailing comma in the label block makes the whole sample line fail. |
| LineExamples.WeirdSampleExample | src/parser/line_parser.rs:286-305 | The `something_weird` line reads with its one label, positive infinity and a negative timestamp. |
| LineExamples.NoNameExample | src/parser/line_parser.rs:37-38 | `{a="1"} +Inf` is a sample with an empty name, because `take_while` may match nothing. `NoNameNoLabelsExample` reads `-Inf 7` the same way. |
| LineParser.TryReadSample | src/parser/line_parser.rs:125-127 | A sample is returned exactly when the sample rule succeeds, whatever text it leaves unread. |
| LineExamples.TryReadSampleExample | src/parser/line_parser.rs:98-123 | The documented `http_requests_total` line gives its two labels, the value 1500 and its timestamp. `get_string` finds both labels, and `CommentIsNoSampleExample` shows `# test` is not a sample. |
| LineParser.TryReadComment | src/parser/line_parser.rs:141-143 | A comment is returned exactly when the comment rule succeeds, whatever text it leaves unread. |
| LineExamples.TryReadCommentExample | src/parser/line_parser.rs:131-140 | The documented HELP line is a comment. `SampleIsNoCommentExample` shows `metric 12345` is not one. |
| Remainders.ReadSampleLineRest | src/parser/line_parser.rs:88-94 | A sample line leaves a suffix of its input unread. |
| Remainders.ReadCommentLineRest | src/parser/line_parser.rs:73-85 | A comment line leaves a suffix of its input unread. |
| Remainders.ReadLabelRest | src/parser/line_parser.rs:41-55 | The label rule leaves a suffix of its input unread. |
| Remainders.MoreLabelPairsRest | src/parser/line_parser.rs:44-51 | However many rounds of `separated_list0` run, they leave a suffix of the input unread. |
| Remainders.ReadQuotedStringRest | src/parser/line_parser.rs:25-35 | The quoted-string rule leaves a suffix of its input unread. |
| Remainders.ReadValueRest | src/parser/line_parser.rs:57-66 | The value rule leaves a suffix of its input unread. |
| Remainders.ReadTimestampRest | src/parser/line_parser.rs:68-71 | The timestamp rule leaves a suffix of its input unread. |

## Left out

- Floating point.
  - A finite value is kept as its exact decimal literal.
  - The rounding of nom's decimal-to-`f64` conversion is not modelled, so values that round to the same double are distinct here.
  - A timestamp is the truncation of the exact value, saturated to the 64-bit range, not of its nearest double.
- `Number.AsI64`: its contract promises truncation only for values inside the 64-bit range. Outside that range it states only that the result is within the range; the exact saturation is in its body.
- Unicode. `char::is_alphanumeric` is modelled as ASCII letters and digits. A non-ASCII letter, which Rust accepts in names, ends a name here.
- nom's `VerboseError` payload. Only the outcome is kept: `Ok`, a recoverable `Error` or a `Failure`.
- The no-progress check of nom's `separated_list0`, which fails the whole list with an `Error` when a separator consumes nothing. Here the separator always consumes its `,`, so that case cannot arise.
- `LabelList`, `Comment`/`CommentType` and `SampleData` are not part of this model, nor is `LabelList::get_number`. Labels are a `map<string, string>`, and comments and samples are plain datatypes.
- `HashMap` iteration order. A map has none.
- The second case of `test_read_metric_line` (source lines 307-327, the `msdos_file_access_time_seconds` line) is not reproduced as a literal example. Its parts are covered for all inputs: the line as a whole by `LineFacts.ReadSampleLineOf`; the `path` label, with its two `\\` pairs, by `StringFacts.QuotedTwoEscapes`; the `error` label, whose three escape pairs (`\n`, `\"`, `\"`) include no doubled backslash, by `StringFacts.ReadQuotedStringOf` and `StringFacts.UnescapeIdentity`; the value by `ValueFacts.ReadScientificValueOf`.
- `LineFacts.ReadCommentLineOf` covers only lines whose free text is empty, or is separated from a non-empty name by at least one blank. The model still reads the other lines, such as `# HELP a{b` (text glued to the name) or `# HELP {b` (text after an empty name), but that lemma does not state their result.
