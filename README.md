# VideoCapture core, modelled in Dafny

This project models the decision logic of VideoCapture, a macOS application
for recording video and audio from lab capture devices. The model follows the
application's source file by file:

- **Equation language.** `equation.dfy` and `equation_parser.dfy` model
  Equation.swift and EquationParser.swift:
  - the operator table (aliases, canonical spelling, precedence,
    associativity, evaluation with truth as 1.0 and falsehood as -1.0);
  - the element tree and its evaluation against a map of placeholder values;
  - the tokenizer over Swift characters, where a CR LF pair is one character;
  - the recursive parser, as written and as evidently intended.
- **Signal conditioning.** Four files:
  - `debounce_boolean.dfy`: the debouncer.
  - `schmitt_for_capture.dfy`: the frame-counting Schmitt trigger.
  - `exponential_moving_average.dfy`: the moving average.
  - `song_detector.dfy`: the format filter and the post-song hold and
    notification step of the song detector.
- **Recording latches.** `capture_control.dfy` and `video_control.dfy` model
  the start/stop request latches that a sample buffer consumes.
- **Regions of interest.** `annotations.dfy` models annotation shapes, their
  containment tests and the pixel list of a rectangle. `annotable_viewer.dfy`
  models the viewer's list edits on mouse events.
- **Session document.** `document.dfy` models the document's property-list
  dictionary.
- **Device register.** `app_delegate.dfy` models the application's register
  of devices in use and its version string.

Floating-point values of the equation evaluator are reals extended with the
two infinities and NaN (`doubles.dfy`). Coordinates and smoothing values are
reals. Stateful source classes are Dafny classes: each method's
postcondition relates the new state to a specification function of the old
one, and lemmas about those functions carry the properties.

## Model

| member | source | states |
|---|---|---|
| Equation.FromString | VideoCapture/Equation.swift:24-39 | an accepted spelling is one or two characters, all drawn from the operator symbols |
| Equation.FromStringAcceptsExactlyAliases | VideoCapture/Equation.swift:24-39 | `init?(fromString:)` yields an operator exactly for that operator's aliases (`==`/`=`, `>=`/`=>`/`≥`, `*`/`×`, …) and nil for every other string |
| Equation.DescriptionRoundTrip | VideoCapture/Equation.swift:41-57 | every canonical spelling is one of the operator's aliases and parses back to the same operator |
| Equation.Precedence | VideoCapture/Equation.swift:61-74 | precedence is 10 exactly for the boolean operators, 20 for comparisons, 30 for `+`/`-` and 40 for `*`/`/` |
| Equation.PrecedenceOrder | VideoCapture/Equation.swift:61-74 | boolean < comparison < additive < multiplicative |
| Equation.LeftAssociative | VideoCapture/Equation.swift:76-85 | true exactly for the four arithmetic operators, i.e. exactly for precedence at least 30 |
| Doubles.Add | VideoCapture/Equation.swift:89 | `left + right`: exact on finite values; NaN propagates; an infinity absorbs finite values; opposite infinities give NaN |
| Doubles.Subtract | VideoCapture/Equation.swift:96 | `left - right`: adding the negated right operand |
| Doubles.Negate | VideoCapture/Equation.swift:96 | the sign flip used by subtraction; NaN stays NaN |
| Doubles.Multiply | VideoCapture/Equation.swift:95 | `left * right`: exact on finite values; NaN propagates; an infinity times zero is NaN, otherwise the sign rule decides the infinity |
| Doubles.Sign | VideoCapture/Equation.swift:95 | the sign of a value that is not NaN, used by the infinity rules |
| Doubles.Divide | VideoCapture/Equation.swift:90-94 | `left / right` for a non-zero divisor: exact on finite values; infinity over infinity is NaN; finite over infinity is 0 |
| Doubles.Less | VideoCapture/Equation.swift:100-103 | `<`: false whenever an operand is NaN; negative infinity is below everything else and positive infinity above |
| Doubles.Equal | VideoCapture/Equation.swift:99 | `==`: NaN equals nothing, not even itself |
| Doubles.LessOrEqual | VideoCapture/Equation.swift:101-103 | `<=`: less than or equal, so false with NaN |
| Equation.Apply | VideoCapture/Equation.swift:87-105 | booleans and comparisons give only 1.0 or -1.0; `&&`/`||` are 1.0 iff both/either operand is positive; comparisons with NaN are false; division by zero is +infinity; other arithmetic on finite values is the exact operation |
| Equation.Lookup | VideoCapture/Equation.swift:168-172 | a placeholder reads its value from the map, and 0.0 when the name is absent |
| Equation.Evaluate | VideoCapture/Equation.swift:129-172 | a triplet applies its operator to the values of both sides, a number is its own value, a placeholder is looked up; its properties are `EvaluateIsSubstitution` and `EvaluateReadsOnlyItsNames` |
| Equation.Substitute | VideoCapture/Equation.swift:168-172 | a reference rewriting, not a source operation: each placeholder is replaced by the number its `evaluate` reads (the map value, or 0.0), so the result mentions no placeholder; `EvaluateIsSubstitution` relates it to `Evaluate` |
| Equation.EvaluateIsSubstitution | VideoCapture/Equation.swift:129-173 | evaluating equals evaluating the substituted tree with an empty map: an absent name acts as 0.0 and a number ignores the map |
| Equation.EvaluateReadsOnlyItsNames | VideoCapture/Equation.swift:129-173 | two maps that agree on the names an element mentions give it the same value |
| Equation.Describe | VideoCapture/Equation.swift:123-166 | a triplet prints as its two sides and operator, space-separated in one pair of parentheses; a number prints its text and a placeholder its name; `DescribeIsBalanced` states the property |
| Equation.DescribeIsBalanced | VideoCapture/Equation.swift:123-173 | every description is parenthesis-balanced, given number and placeholder texts without parentheses |
| EquationParser.ParseNumber | VideoCapture/EquationParser.swift:97-101 | `Double(s)` on number text: a value iff the text after an optional minus is a decimal with at least one digit whose magnitude is zero or lies strictly between 2^-1075 and 2^1024 - 2^970 (otherwise `Double(s)` is nil and the token invalid); a value is finite, at least 2^-1075 away from zero when non-zero, and negative only after a minus |
| EquationParser.ThresholdsArePowersOfTwo | VideoCapture/EquationParser.swift:97-101 | the overflow and underflow bounds of `Double(s)` are 2^1024 - 2^970 and 2^-1075 |
| EquationParser.NoDotAtEnd | VideoCapture/EquationParser.swift:97-101 | text of digits alone has no decimal point |
| EquationParser.ParseDigits | VideoCapture/EquationParser.swift:97-101 | digits alone read as the natural number they spell, whenever it is below the overflow bound |
| EquationParser.ParseTwo | VideoCapture/EquationParser.swift:97-101 | the text `2` reads as 2.0 |
| EquationParser.ParseNegated | VideoCapture/EquationParser.swift:97-101 | a leading minus negates the value and is refused exactly when the unsigned text is |
| EquationParser.Characters | VideoCapture/EquationParser.swift:138 | `s.characters`: the characters spell the string again, a CR directly followed by an LF being one character |
| EquationParser.CharactersKeepCrLfTogether | VideoCapture/EquationParser.swift:138 | no CR character is directly followed by an LF character: every CR LF pair of the input is one character |
| EquationParser.FromCharacter | VideoCapture/EquationParser.swift:20-29 | never nil; `(`/`)` give parenthesis tokens, `R` a placeholder, `-`/`.`/digits a number, a space, tab, lone CR or lone LF whitespace, and every other character, the CR LF pair included, an operator (the pair as the operator token `"\r\n"`); a character that is not whitespace is the token's description |
| EquationParser.Describe | VideoCapture/EquationParser.swift:30-41 | `description`: whitespace prints as one space, parentheses as themselves, the other tokens as their text |
| EquationParser.PlaceholderPrefixRejectsSeparators | VideoCapture/EquationParser.swift:60-67 | a placeholder prefix never ends in a space, a tab or a parenthesis |
| EquationParser.PlaceholderPrefixTakesFinalNewline | VideoCapture/EquationParser.swift:60-67 | because `$` matches before a final line terminator, `R` plus a newline is a valid prefix and `ROI1` plus a newline a valid name |
| EquationParser.MatchCharacter | VideoCapture/EquationParser.swift:44-91 | `matchCharacter`: the extended token when the token absorbs the character, none when the character starts a new token; `MatchCharacterMeaning` states what is absorbed |
| EquationParser.MatchCharacterMeaning | VideoCapture/EquationParser.swift:44-91 | whitespace absorbs the space, tab, lone CR and lone LF characters; a number absorbs exactly `.` and digits; a placeholder absorbs what keeps it a placeholder prefix; an operator absorbs what makes an operator spelling; parentheses absorb nothing; a CR LF pair is absorbed only by a placeholder prefix that stays one; an absorbed character extends the token's text and keeps its kind |
| EquationParser.CrLfOperatorAbsorbsNothing | VideoCapture/EquationParser.swift:68-90 | the operator token of a CR LF pair never absorbs another character, as no operator spelling starts with a CR |
| EquationParser.OperatorAbsorbsSpellings | VideoCapture/EquationParser.swift:68-90 | an operator token absorbs a character exactly when its text plus the character spells an operator, and then becomes that text |
| EquationParser.MatchCharacterKeepsShape | VideoCapture/EquationParser.swift:44-91 | absorbing keeps a token well formed and built from its text plus the new character |
| EquationParser.IsValid | VideoCapture/EquationParser.swift:93-111 | `isValid`: whitespace and parentheses are valid, a number when `Double` reads it, a placeholder when it matches `^ROI[0-9]+$`, an operator when it spells an operator |
| EquationParser.IsIgnored | VideoCapture/EquationParser.swift:113-118 | `isIgnored`: true exactly for whitespace |
| EquationParser.Tokenize | VideoCapture/EquationParser.swift:129-154 | the tokens `extractComponents` returns: the character step folded over the characters of the string, with the open token emitted at the end |
| EquationParser.ExtractComponents | VideoCapture/EquationParser.swift:129-154 | the loop over the Swift characters of the string, a CR LF pair being one character, computes `Tokenize` |
| EquationParser.TokenizeEmpty | VideoCapture/EquationParser.swift:129-154 | the empty string gives no tokens and any other string gives some |
| EquationParser.TokenizeCoversInput | VideoCapture/EquationParser.swift:129-154 | every scalar is consumed, in order, into exactly one token: the token texts concatenate to the input, each token is built from its own text, and the last open token is emitted |
| EquationParser.TokenizeWellFormed | VideoCapture/EquationParser.swift:20-91 | every token is well formed (a number is a `-`, `.` or digit followed by `.` and digits; an operator is one character, a two-character spelling or the CR LF pair) |
| EquationParser.TokenizeMergesWhitespace | VideoCapture/EquationParser.swift:46-50 | a whitespace token swallows its whole run: the next token is not whitespace, and it starts with a character that is not whitespace unless it is the operator token of a CR LF pair |
| EquationParser.CrLfBecomesOperator | VideoCapture/EquationParser.swift:129-154 | a CR LF pair that meets no open placeholder prefix becomes the token `"\r\n"` and stays in the token list |
| EquationParser.CrLfTokenIsRefused | VideoCapture/EquationParser.swift:183-204 | an equation whose tokens hold the CR LF operator token is refused with `InvalidToken` |
| EquationParser.CrLfAfterSeparatorIsRefused | VideoCapture/EquationParser.swift:129-204 | a CR LF pair at the start or after a space, tab or parenthesis (as in `ROI1 \r\n`) becomes an operator token, so the equation is refused with `InvalidToken` |
| EquationParser.CrLfInNumberIsRefused | VideoCapture/EquationParser.swift:44-59 | illustration: `1\r\n2` is refused with `InvalidToken`, where a lone CR or LF between the numbers would be whitespace |
| EquationParser.MinusIsNeverAnOperator | VideoCapture/EquationParser.swift:25-58 | no operator token contains `-`, so a minus always starts a number |
| EquationParser.Significant | VideoCapture/EquationParser.swift:185-187 | the ignored (whitespace) tokens are exactly the ones removed |
| EquationParser.SignificantDistributes | VideoCapture/EquationParser.swift:185-187 | filtering keeps the order of the tokens it keeps |
| EquationParser.Invalid | VideoCapture/EquationParser.swift:195-197 | the invalid tokens are exactly the ones kept |
| EquationParser.EnclosedInParentheses | VideoCapture/EquationParser.swift:157-181 | true iff there are at least two tokens, the first is `(`, the last is `)` and the nesting count over the interior never goes negative |
| EquationParser.SeparateGroupsAreNotEnclosed | VideoCapture/EquationParser.swift:157-181 | a group that closes before the end (`(a)+(b)`) is not one enclosing group |
| EquationParser.Classify | VideoCapture/EquationParser.swift:206-225 | what the as-written parser does with a list that is not one enclosed group: `MissingToken` when empty; a lone number gives its value or `InvalidToken`, a lone placeholder its name, any other lone token `UnexpectedToken`; a longer list its first unmatched `)` or top-level operator as an error, else `NoOperator`; `ClassifyOk` states when it succeeds |
| EquationParser.ParseTokens | VideoCapture/EquationParser.swift:206-276 | the parser as written: strip enclosing groups, then an empty list is `MissingToken`, a lone number or placeholder parses, another lone token is `UnexpectedToken`, and a longer list fails with the scan's first error (`)` unmatched, or any top-level operator) or `NoOperator` |
| EquationParser.Parse | VideoCapture/EquationParser.swift:183-204 | `EmptyEquation` without significant tokens, else `InvalidToken` of the first invalid token, else the token parse |
| EquationParser.ParseSpec | VideoCapture/EquationParser.swift:183-204 | what `equationParse` returns or throws: `EmptyEquation`, else the first invalid token, else the token parse; `ParseSucceedsOnlyOnWrappedAtoms` and `CrLfTokenIsRefused` state its outcomes |
| EquationParser.ClassifyOk | VideoCapture/EquationParser.swift:206-225 | a list not enclosed parses iff it is one number that reads as a Double or one placeholder, to that atom |
| EquationParser.StripMatchesPeel | VideoCapture/EquationParser.swift:228-230 | stripping enclosing groups leaves one atom exactly when peeling every outer pair does, and then both agree |
| EquationParser.ParseTokensSucceedsOnlyOnWrappedAtoms | VideoCapture/EquationParser.swift:206-265 | as written, a token list parses iff it is one atom in zero or more pairs of parentheses; it never yields a triplet |
| EquationParser.ParseSucceedsOnlyOnWrappedAtoms | VideoCapture/EquationParser.swift:183-265 | as written, an equation parses iff its significant tokens are one valid atom wrapped in parentheses |
| EquationParser.WrappedAtomValidity | VideoCapture/EquationParser.swift:195-200 | parentheses around an atom are valid, so the validity check rests on the atom alone |
| EquationParser.BinaryEquationsAreRefused | VideoCapture/EquationParser.swift:246-255 | `ROI1 + ROI2` and `(ROI1) * (2)` are refused with `InvalidToken` at the operator |
| EquationParser.AsWrittenRefusesBinary | VideoCapture/EquationParser.swift:246-255 | any two atoms joined by an operator are refused with `InvalidToken` of that operator |
| EquationParser.LowestOperator | VideoCapture/EquationParser.swift:233-258 | the intended scan, started at the first token, returns the first top-level operator of lowest precedence: every known operator outside parentheses has at least its precedence and every one before it strictly higher; None means there is no top-level operator |
| EquationParser.IntendedParseTokens | VideoCapture/EquationParser.swift:233-276 | `equationParseTokens` with the throw in the `else`: strip an enclosing group, then split at the lowest-precedence top-level operator and parse both sides; `IntendedParsesBinary` and `IntendedAgreesWhereAsWrittenSucceeds` state its properties |
| EquationParser.IntendedParsesBinary | VideoCapture/EquationParser.swift:233-276 | with the throw in the `else`, two atoms joined by a known operator parse to their triplet |
| EquationParser.IntendedRespectsPrecedence | VideoCapture/EquationParser.swift:233-276 | illustration: `ROI1 + ROI2 * 2` parses as `ROI1 + (ROI2 * 2)` |
| EquationParser.IntendedAgreesWhereAsWrittenSucceeds | VideoCapture/EquationParser.swift:206-276 | the intended parser gives the same element wherever the as-written one succeeds |
| EquationParser.IntendedNamesComeFromTokens | VideoCapture/EquationParser.swift:206-276 | every placeholder of an intended parse is a placeholder token of the input |
| DebounceBoolean.Next | VideoCapture/SongDetection/DebounceBoolean.swift:31-46 | an equal input resets the count; a differing one flips the value iff the count reaches `checks`; a flip resets the count; the count never goes negative |
| DebounceBoolean.Run | VideoCapture/SongDetection/DebounceBoolean.swift:31-46 | the state after `debounce` is called once per input, in order; `SteadyRun`, `DifferingRun` and `ShortRunsNeverFlip` state its properties |
| DebounceBoolean.CountStaysBelowChecks | VideoCapture/SongDetection/DebounceBoolean.swift:39-43 | with `checks >= 1` the count stays in `[0, checks)` |
| DebounceBoolean.SmallChecksFollowAtOnce | VideoCapture/SongDetection/DebounceBoolean.swift:39-43 | with `checks <= 1` a differing input is taken at once |
| DebounceBoolean.SteadyRun | VideoCapture/SongDetection/DebounceBoolean.swift:33-36 | a settled value is kept by any number of equal inputs |
| DebounceBoolean.DifferingRun | VideoCapture/SongDetection/DebounceBoolean.swift:33-45 | `n` differing inputs flip the value exactly when the pending count plus `n` reaches `checks` |
| DebounceBoolean.ShortRunsNeverFlip | VideoCapture/SongDetection/DebounceBoolean.swift:33-45 | fewer inputs than the calls still missing never change the value, whatever they are |
| DebounceBoolean.DebounceBoolean.constructor | VideoCapture/SongDetection/DebounceBoolean.swift:24-29 | starts at the initial value, `false` when none is given, with count 0 |
| DebounceBoolean.DefaultStartsFalse | VideoCapture/SongDetection/DebounceBoolean.swift:24-46 | a debouncer made without an initial value reads `false` and keeps it on a `false` input |
| DebounceBoolean.DebounceBoolean.Debounce | VideoCapture/SongDetection/DebounceBoolean.swift:31-46 | the new state is `Next` of the old one, and the result is `lastValue` after the call |
| SchmittForCapture.IsTrigger | VideoCapture/SongDetection/SchmittForCapture.swift:85-92 | the falling-edge trigger fires iff the input is false after a true one |
| SchmittForCapture.Step | VideoCapture/SongDetection/SchmittForCapture.swift:62-103 | one `processFrame` on the frame state, with the count loaded on a trigger as a parameter; `HighCountsDown`, `LowCountsDown`, `LowPhaseEndsArmed` and `FallingEdgeTriggers` state its cases |
| SchmittForCapture.Output | VideoCapture/SongDetection/SchmittForCapture.swift:37-44 | `lastOutput`: high exactly in the High state |
| SchmittForCapture.Run | VideoCapture/SongDetection/SchmittForCapture.swift:62-103 | the frame state after one `processFrame` per input, in order; `RunSplits` states its property |
| SchmittForCapture.AsWrittenStep | VideoCapture/SongDetection/SchmittForCapture.swift:96-100 | the step as written: a trigger loads `framesLow` |
| SchmittForCapture.IntendedStep | VideoCapture/SongDetection/SchmittForCapture.swift:96-100 | the corrected step: a trigger loads `framesHigh` |
| SchmittForCapture.HighCountsDown | VideoCapture/SongDetection/SchmittForCapture.swift:73-81 | in High each frame counts down with the output high and `lastInput` untouched |
| SchmittForCapture.LowCountsDown | VideoCapture/SongDetection/SchmittForCapture.swift:65-72 | in Low each frame counts down with the output low and `lastInput` untouched |
| SchmittForCapture.LowPhaseEndsArmed | VideoCapture/SongDetection/SchmittForCapture.swift:65-100 | the last Low frame goes Idle and runs the trigger check on the same frame |
| SchmittForCapture.FallingEdgeTriggers | VideoCapture/SongDetection/SchmittForCapture.swift:85-100 | an idle frame goes high exactly on a falling edge and always records the input |
| SchmittForCapture.HighPhaseLength | VideoCapture/SongDetection/SchmittForCapture.swift:73-81 | a high phase entered with count `c` gives `c - 1` high outputs, then a low one, and loads `framesLow` |
| SchmittForCapture.RunSplits | VideoCapture/SongDetection/SchmittForCapture.swift:62-103 | running two input sequences one after the other is running their concatenation |
| SchmittForCapture.AsWrittenHighPhaseLastsFramesLow | VideoCapture/SongDetection/SchmittForCapture.swift:96-100 | as written, a trigger loads `framesLow`, so the output is high for `framesLow` frames |
| SchmittForCapture.AsWrittenIgnoresFramesHigh | VideoCapture/SongDetection/SchmittForCapture.swift:96-100 | with `framesHigh` 3 and `framesLow` 1 the output is high for one frame only |
| SchmittForCapture.IntendedHighPhaseLastsFramesHigh | VideoCapture/SongDetection/SchmittForCapture.swift:96-100 | with `framesHigh` loaded, the output is high for `framesHigh` frames |
| SchmittForCapture.SchmittForCapture.constructor | VideoCapture/SongDetection/SchmittForCapture.swift:51-54 | falling-edge trigger, Idle, count 0, `lastInput` false |
| SchmittForCapture.SchmittForCapture.Reset | VideoCapture/SongDetection/SchmittForCapture.swift:56-60 | Idle, `lastInput` false, count 0 |
| SchmittForCapture.SchmittForCapture.ProcessFrame | VideoCapture/SongDetection/SchmittForCapture.swift:62-103 | the new frame state is the as-written step of the old one, and the result is `lastOutput` after the call |
| ExponentialMovingAverage.Blend | VideoCapture/SongDetection/ExponentialMovingAverage.swift:33-36 | a later sample weighs the new value by `1 - k` and the previous average by `k`; `BlendBetween` and `SteadyInputConverges` state its properties |
| ExponentialMovingAverage.BlendBetween | VideoCapture/SongDetection/ExponentialMovingAverage.swift:33-36 | with `k` in [0, 1] each later value lies between the input and the previous value |
| ExponentialMovingAverage.SteadyInputConverges | VideoCapture/SongDetection/ExponentialMovingAverage.swift:28-37 | under a steady input the distance to it shrinks by the factor `k` every sample |
| ExponentialMovingAverage.ExponentialMovingAverage.constructor | VideoCapture/SongDetection/ExponentialMovingAverage.swift:23-26 | before any ingest the value is `initial`, 0.0 when none is given |
| ExponentialMovingAverage.DefaultStartsAtZero | VideoCapture/SongDetection/ExponentialMovingAverage.swift:23-37 | an average made without an initial value reads 0.0, and its first sample is returned as it is |
| ExponentialMovingAverage.ExponentialMovingAverage.Ingest | VideoCapture/SongDetection/ExponentialMovingAverage.swift:28-37 | the first sample is taken as is; every later one is `(1-k)*val + k*last`; the result is `lastValue` |
| SongDetector.SupportsFormat | VideoCapture/SongDetection/SongDetector.swift:130-146 | linear PCM only; 32-bit float or integer, 16- and 8-bit only as integer; everything else refused |
| SongDetector.Hold | VideoCapture/SongDetection/SongDetector.swift:327-337 | the post-song hold: a fall of the debounced value loads the hold length and keeps the report high; a quiet step counts the hold down and reports the fall when it reaches 0; `FallStartsHold` and `HoldCountsDown` state its cases |
| SongDetector.LastDetected | VideoCapture/SongDetection/SongDetector.swift:79-83 | `lastDetected`: the debounced value, or a hold still running |
| SongDetector.Step | VideoCapture/SongDetection/SongDetector.swift:324-342 | one analysed segment: debounce, then hold, then a notification when the reported value changes |
| SongDetector.Run | VideoCapture/SongDetection/SongDetector.swift:289-292 | one `Step` per analysed segment, in order |
| SongDetector.Notification | VideoCapture/SongDetection/SongDetector.swift:339-342 | the delegate is told the new value exactly when old and new differ |
| SongDetector.FallStartsHold | VideoCapture/SongDetection/SongDetector.swift:327-331 | a fall of the debounced value loads the hold and keeps the report high, with no notification |
| SongDetector.HoldCountsDown | VideoCapture/SongDetection/SongDetector.swift:332-337 | each quiet step counts the hold down; the step that reaches 0 reports the fall |
| SongDetector.ReportedChangeIsNotified | VideoCapture/SongDetection/SongDetector.swift:79-83 | whenever `lastDetected` changes, the delegate is told its new value |
| SongDetector.NotifiedValueIsReported | VideoCapture/SongDetection/SongDetector.swift:324-342 | with a positive hold length, whatever the delegate is told is the new `lastDetected` |
| SongDetector.ResumingDuringHoldRenotifies | VideoCapture/SongDetection/SongDetector.swift:324-342 | whenever the debounced value rises while a hold is running, the report was already true and stays true, yet the delegate is told `true` again |
| SongDetector.NotificationsAtMostOnePerSegment | VideoCapture/SongDetection/SongDetector.swift:289-345 | notifications are only appended, at most one per segment |
| SongDetector.SongDetector.constructor | VideoCapture/SongDetection/SongDetector.swift:103-127 | a fresh detector has a debouncer built with the default initial value (false) and count 0, no hold, nothing waiting and nothing notified |
| SongDetector.SongDetector.ProcessNewValue | VideoCapture/SongDetection/SongDetector.swift:294-345 | false with nothing changed when no segment waits; otherwise the first waiting segment is consumed and the state is one `Step` further |
| SongDetector.SongDetector.ProcessNewValues | VideoCapture/SongDetection/SongDetector.swift:289-292 | every waiting segment is consumed and the state is the `Run` over them, in order |
| CaptureControl.OnSample | VideoCapture/CaptureControl.swift:52-73 | a start happens iff a start is pending and nothing records, to the stored file, with the configured type iff the output is audio; a stop iff a stop is pending while recording; a carried-out request resets status (and a start the file); otherwise nothing changes |
| CaptureControl.RequestsAreOneShot | VideoCapture/CaptureControl.swift:52-73 | after a request is carried out, the next sample does nothing |
| CaptureControl.StartWaitsForStop | VideoCapture/CaptureControl.swift:59-67 | a start pending while recording waits and is carried out once recording has stopped |
| CaptureControl.CaptureControl.constructor | VideoCapture/CaptureControl.swift:24-27 | no request, no file, the given output file type, `.m4a` when none is given |
| CaptureControl.CaptureControl.ShouldStart | VideoCapture/CaptureControl.swift:29-37 | a start is pending for the given file, replacing any earlier request |
| CaptureControl.CaptureControl.ShouldStop | VideoCapture/CaptureControl.swift:39-46 | a stop is pending and the stored file is untouched |
| CaptureControl.CaptureControl.ShouldProvideSampleAccurateRecordingStart | VideoCapture/CaptureControl.swift:48-50 | always true |
| CaptureControl.CaptureControl.FileOutput | VideoCapture/CaptureControl.swift:52-73 | action and new latch are `OnSample` of the old latch |
| CaptureControl.LaterStartWins | VideoCapture/CaptureControl.swift:29-67 | illustration: of two start requests before a sample, the second file is recorded |
| CaptureControl.DefaultRecordsM4a | VideoCapture/CaptureControl.swift:24-67 | a control made without a file type tells an audio file output to record `.m4a` |
| VideoControl.OnSample | VideoCapture/VideoControl.swift:50-66 | a start iff a start is pending and nothing records, to the stored file; a stop iff a stop is pending while recording; otherwise nothing changes |
| VideoControl.RequestsAreOneShot | VideoCapture/VideoControl.swift:50-66 | after a request is carried out, the next sample does nothing |
| VideoControl.StopWaitsForRecording | VideoCapture/VideoControl.swift:61-64 | a stop pending while not recording waits and is carried out on a recording sample |
| VideoControl.VideoControl.constructor | VideoCapture/VideoControl.swift:19-25 | no request and no file |
| VideoControl.VideoControl.ShouldStart | VideoCapture/VideoControl.swift:27-35 | a start is pending for the given file |
| VideoControl.VideoControl.ShouldStop | VideoCapture/VideoControl.swift:37-44 | a stop is pending and the stored file is untouched |
| VideoControl.VideoControl.ShouldProvideSampleAccurateRecordingStart | VideoCapture/VideoControl.swift:46-48 | always true |
| VideoControl.VideoControl.CaptureOutput | VideoCapture/VideoControl.swift:50-66 | action and new latch are `OnSample` of the old latch |
| Annotations.InBox | VideoCapture/Annotations.swift:236-239 | the rectangle's test: the offset from the origin is non-negative and at most the size |
| Annotations.InEllipse | VideoCapture/Annotations.swift:163-168 | a flat ellipse contains nothing; otherwise the normalised squared offset from the centre is at most 1 |
| Annotations.ContainsPoint | VideoCapture/Annotations.swift:92-93 | a circle contains the points within its radius, an ellipse and a rectangle the points `InEllipse` and `InBox` accept |
| Annotations.Span | VideoCapture/Annotations.swift:139-144 | the box of two drag points has non-negative size, holds both points and has its corners at their coordinates |
| Annotations.SpanIsSymmetric | VideoCapture/Annotations.swift:215-220 | the order of the drag points does not matter |
| Annotations.Make | VideoCapture/Annotations.swift:59-66 | each initialiser keeps its id and colour and builds the chosen kind |
| Annotations.CircleHoldsDragPoints | VideoCapture/Annotations.swift:59-94 | the radius is non-negative, the end point is on the rim and both drag points are inside |
| Annotations.RectangleHoldsDragPoints | VideoCapture/Annotations.swift:215-239 | a rectangle contains both drag points and does not depend on their order |
| Annotations.EllipseInsideItsBox | VideoCapture/Annotations.swift:139-168 | every point of an ellipse lies in the box of its drag points |
| Annotations.EllipseHoldsItsCentre | VideoCapture/Annotations.swift:163-168 | a non-flat ellipse contains its centre |
| Annotations.Truncate | VideoCapture/Annotations.swift:244-245 | `Int(_:)` truncates toward zero: within one below a non-negative value, within one above a negative one |
| Annotations.ImageBox | VideoCapture/Annotations.swift:241-246 | the pixel box of a rectangle: origin and size scaled by the larger side of the image, the origin shifted by the image's origin, each truncated toward zero |
| Annotations.Grid | VideoCapture/Annotations.swift:241-254 | the pixel list of a box, x-major then y; `GridLength`, `GridOrder` and `GridMembership` state its properties |
| Annotations.GridLength | VideoCapture/Annotations.swift:241-254 | the pixel list has `w * h` entries |
| Annotations.GridOrder | VideoCapture/Annotations.swift:241-254 | entry `i * h + j` is `(x0 + i, y0 + j)`: x-major, then y |
| Annotations.GridMembership | VideoCapture/Annotations.swift:241-254 | a pixel is listed iff it lies in `[x0, x0+w) × [y0, y0+h)` |
| Annotations.GenerateImageCoordinates | VideoCapture/Annotations.swift:241-254 | the nested loops produce exactly the grid of the rectangle's pixel box, and nothing when the pixel width is 0 (the inner range is then never formed) |
| Annotations.IdCounter.constructor | VideoCapture/AnnotableViewer.swift:12 | the counter starts at 1 |
| Annotations.IdCounter.Allocate | VideoCapture/Annotations.swift:60 | `++nextId`: the id is the incremented counter |
| Annotations.New | VideoCapture/Annotations.swift:59-66 | an initialiser takes the next id and builds the annotation with it |
| Annotations.FirstIds | VideoCapture/Annotations.swift:59-61 | illustration: the first two annotations get ids 2 and 3 |
| AnnotableViewer.LongEnough | VideoCapture/AnnotableViewer.swift:154 | a drag counts when its length is at least `10 / max(width, height)`, compared squared |
| AnnotableViewer.Advance | VideoCapture/AnnotableViewer.swift:119-122 | `++index` wrapping to 0 at the count, staying in range |
| AnnotableViewer.ShapesCycle | VideoCapture/AnnotableViewer.swift:119-122 | three misses in a row bring the same shape back |
| AnnotableViewer.TopmostHit | VideoCapture/AnnotableViewer.swift:101-117 | the index found is the highest one containing the point; none is found iff no annotation contains it |
| AnnotableViewer.RemoveAt | VideoCapture/AnnotableViewer.swift:104 | removing one index keeps the others in order |
| AnnotableViewer.AnnotableViewer.constructor | VideoCapture/AnnotableViewer.swift:27-56 | no annotations, enabled, first colour and shape, no drag |
| AnnotableViewer.AnnotableViewer.SetEnabled | VideoCapture/AnnotableViewer.swift:40-45 | setting `enabled` clears the drag start and the annotation in progress |
| AnnotableViewer.AnnotableViewer.MouseDown | VideoCapture/AnnotableViewer.swift:80-90 | when enabled, remembers the drag start; nothing else changes |
| AnnotableViewer.AnnotableViewer.RightMouseUp | VideoCapture/AnnotableViewer.swift:92-123 | a single enabled click removes the topmost annotation under the point and notifies, or advances the shape on a miss; otherwise nothing changes |
| AnnotableViewer.AnnotableViewer.MouseDragged | VideoCapture/AnnotableViewer.swift:125-139 | with a drag start, shows the annotation of the current shape and colour, taking a fresh id; otherwise nothing changes |
| AnnotableViewer.AnnotableViewer.MouseUp | VideoCapture/AnnotableViewer.swift:141-171 | a drag at least `10 / max(width, height)` long appends one annotation, notifies and advances the colour; an enabled release always ends the drag |
| Document.Encode | VideoCapture/Document.swift:62-69 | the written dictionary holds exactly `Version` 1, the name, device, directory (under `OuputDirectory`) and brightness keys |
| Document.EncodeCorrected | VideoCapture/Document.swift:62-69 | the same dictionary with the directory under `OutputDirectory` |
| Document.Decode | VideoCapture/Document.swift:99-117 | anything but a dictionary with `Version` 1 is a read error; every field falls back to `"Capture Session"`, `""` or 0; a brightness outside 0...255 traps |
| Document.EmptyReadsAsDefault | VideoCapture/Document.swift:112-117 | illustration: a dictionary with only `Version` 1 reads as a fresh session |
| Document.RoundTripLosesOutputDirectory | VideoCapture/Document.swift:62-117 | saving and reopening keeps every field but the output directory, which comes back empty |
| Document.RoundTripCounterexample | VideoCapture/Document.swift:68 | a session with directory `/data` does not survive saving and reopening |
| Document.CorrectedRoundTrip | VideoCapture/Document.swift:112-117 | with the key spelt as reading expects, saving and reopening is the identity |
| Document.WideBrightnessTraps | VideoCapture/Document.swift:117 | a brightness outside 0...255 traps whatever else the dictionary holds |
| Document.Document.constructor | VideoCapture/Document.swift:13-32 | the default session |
| Document.Document.DataOfType | VideoCapture/Document.swift:56-79 | the session type gives the encoded dictionary; any other type a write error |
| Document.Document.ReadFromData | VideoCapture/Document.swift:81-118 | another type or undecodable data is a read error and changes nothing; otherwise the session becomes `Decode` of the dictionary, or the error is returned |
| Document.SaveAndReopen | VideoCapture/Document.swift:56-118 | reading what a document wrote copies it except for the output directory |
| AppDelegate.StringEntry | VideoCapture/AppDelegate.swift:22-35 | an info entry is used only when it is present and a string |
| AppDelegate.Version | VideoCapture/AppDelegate.swift:18-42 | `"Unknown"` without an info dictionary; otherwise a string ending in `)` |
| AppDelegate.VersionParts | VideoCapture/AppDelegate.swift:18-42 | with both entries present as strings the string is `"<short> (<build>)"`; a missing or non-string short version shows `?.?.?` and a missing or non-string build shows `??`, each independently of the other |
| AppDelegate.NonStringVersionIsPlaceholder | VideoCapture/AppDelegate.swift:18-42 | a short version stored as a number, not a string, reads as missing |
| AppDelegate.UnknownOnlyWithoutInfo | VideoCapture/AppDelegate.swift:18-42 | the string is `"Unknown"` exactly when there is no info dictionary |
| AppDelegate.Without | VideoCapture/AppDelegate.swift:55-57 | every occurrence of the device is removed and every other device keeps its count |
| AppDelegate.WithoutConcat | VideoCapture/AppDelegate.swift:55-57 | removal distributes over concatenation, so the kept devices stay in order |
| AppDelegate.WithoutAbsent | VideoCapture/AppDelegate.swift:55-57 | removing an absent device changes nothing |
| AppDelegate.AppDelegate.constructor | VideoCapture/AppDelegate.swift:46 | no device in use |
| AppDelegate.AppDelegate.StartUsingDevice | VideoCapture/AppDelegate.swift:51-53 | appends, so a device started twice is listed twice |
| AppDelegate.AppDelegate.StopUsingDevice | VideoCapture/AppDelegate.swift:55-57 | the list becomes `Without` of the old one |
| AppDelegate.AppDelegate.IsUsingDevice | VideoCapture/AppDelegate.swift:59-61 | list membership |
| AppDelegate.StartThenStop | VideoCapture/AppDelegate.swift:51-61 | illustration: a device is in use right after a start and not right after a stop, and other devices are unaffected |

## Left out

- VideoCapture/UVCCameraControl/UVCCameraControl.h is not part of this model: it declares USB Video Class requests, but the implementation is not present.
- Locking (`objc_sync_enter`/`objc_sync_exit`) in the recording latches: calls are taken one at a time. The AVFoundation output calls become the returned `Action`.
- Swift `Double` rounding, signed zero and the exact text of `String(value)`: the evaluator works on reals extended with the infinities and NaN, and a number's text is a parameter of `Equation.Describe`.
- `Double(s)` is modelled on the forms a number token can hold (an optional minus and digits with at most one point); exponent and hexadecimal forms cannot occur in a number token. A literal whose magnitude overflows to infinity or underflows to zero is refused, as the nil result of `Double(s)`; the value of an accepted literal is the exact decimal, not its rounding to a `Double`.
- AppDelegate.Without, AppDelegate.AppDelegate.StopUsingDevice and AppDelegate.AppDelegate.IsUsingDevice: device identifiers are compared scalar by scalar, whereas Swift `String` equality is canonical equivalence, so two differently composed spellings of one identifier count as different devices here.
- The regular expressions behind VideoCapture/Regex.swift are written out as predicates for `^R(|O(|I[0-9]*))$` and `^ROI[0-9]+$`, case-insensitive, with `$` also matching before a final line terminator or a final CR LF pair.
- EquationParser.Characters: of Swift's grapheme clusters only the CR LF pair is one character; other clusters of several scalars (a character followed by a combining mark, emoji sequences) are taken scalar by scalar, so a digit or `R` carrying a combining mark starts a different token than in the source.
- The evaluator's lower-casing in `init?(fromString:)`: no operator spelling has a cased letter, so it cannot change the outcome.
- The signal processing of the song detector (vDSP conversions, the STFT, decibels, the millisecond-to-segment conversions): each analysed segment arrives as one detected boolean.
- SongDetector.SongDetector: `debounceDetection` is a constant; the source replaces the debouncer when `debounceMS` changes, which is a time conversion outside the model.
- ExponentialMovingAverage: `k` is a given real; `exp(-2π/tau)` is floating-point maths.
- SchmittForCapture: the frame counts are given integers; `init(timeHigh:timeLow:frameRate:)` converts times with floating point.
- Annotations.Annotation: a circle keeps the square of its radius because `sqrt` is not available on reals; `distance <= radius` holds exactly when the squared distance is at most the squared radius.
- AnnotableViewer.LongEnough: the drag length is compared squared against the squared threshold; when the threshold is not positive the comparison is decided by its sign, as the square root never is negative.
- Circle and ellipse `generateImageCoordinates` and every `generateImageDescription`: their pixel tests are floating-point thresholds.
- Annotations.GenerateImageCoordinates: a negative pixel width, or a negative pixel height under a positive width, makes a Swift range whose end is below its start, which traps; the method requires neither to happen, so the trap itself is not modelled.
- Drawing, `needsDisplay`, `setDisplayName`, window controllers and the conversion of window points into the view's relative coordinates: user interface.
- The binary property-list encoding and `NSError` construction of the document: the document is modelled at the level of its dictionary, and errors are named (`ReadErr`, `WriteErr`, `Trap`).
- NSNumber bridging: a property-list value is an integer, a string, a dictionary or something else, so an integer stored as a real or a boolean is not read as `Int`.
- The `delegate` callbacks are modelled as lists of the values passed (`changes`, `notifications`); a missing delegate is not modelled.
- Swift `Int` overflow: integers are unbounded.
- Crash reporting, network posts, save panels and file writes in VideoCapture/AppDelegate.swift: input and output.

## Findings

| source | as written | input that shows it | evidently intended | confidence | as-written member | corrected member |
|---|---|---|---|---|---|---|
| VideoCapture/SongDetection/SchmittForCapture.swift:98 | entering High loads `count = framesLow`, so `framesHigh` is never read | `init(framesHigh: 3, framesLow: 1)`, inputs `true, false, false`: high on the second frame only | load `framesHigh`, so the output stays high for `framesHigh` frames | not executed | SchmittForCapture.AsWrittenIgnoresFramesHigh | SchmittForCapture.IntendedHighPhaseLastsFramesHigh |
| VideoCapture/Document.swift:68 | the output directory is written under `OuputDirectory` but read from `OutputDirectory` (line 116) | a session with output directory `/data`, saved and reopened: the directory comes back empty | write it under `OutputDirectory`, so saving and reopening gives the same session | not executed | Document.RoundTripCounterexample | Document.CorrectedRoundTrip |
| VideoCapture/EquationParser.swift:255 | the `throw InvalidToken` follows the `if let` instead of being its `else`, so every top-level operator aborts the parse | `ROI1 + ROI2` throws `InvalidToken("+")` | remember the lowest-precedence operator and split there, throwing only for an unknown operator | not executed | EquationParser.AsWrittenRefusesBinary | EquationParser.IntendedParsesBinary |

The model's classes keep the source's behaviour as written. The corrected definitions are `SchmittForCapture.IntendedStep`, `Document.EncodeCorrected` and `EquationParser.IntendedParseTokens`, and the properties the authors evidently meant are proved about them.
