/**
 * The equation tokenizer and parser of VideoCapture/EquationParser.swift.
 *
 * Characters are grouped into tokens that grow one character at a time;
 * whitespace tokens are dropped, every remaining token must be valid, and the
 * token list is parsed by stripping enclosing parentheses and scanning for a
 * top-level operator.  The parser is modelled as written: the scan throws on
 * every top-level operator, so only a single number or placeholder, wrapped
 * in any number of parenthesis pairs, parses.
 */
module EquationParser {
  import opened Wrappers
  import opened Doubles
  import E = Equation

  datatype Token =
    | Whitespace
    | ParenthesisOpen
    | ParenthesisClose
    | Number(s: string)
    | Placeholder(s: string)
    | Operator(s: string)

  datatype EquationError =
    | EmptyEquation
    | MissingToken
    | InvalidToken(token: string)
    | UnexpectedToken(token: string)
    | NoOperator(phrase: string)

  // ---------------------------------------------------------------------------
  // Character classes and the two placeholder regular expressions

  /** The characters a whitespace token is made of. */
  predicate IsTokenSpace(c: char)
  {
    c == ' ' || c == '\t' || c == '\r' || c == '\n'
  }

  predicate IsDigit(c: char)
  {
    '0' <= c <= '9'
  }

  predicate StartsNumber(c: char)
  {
    c == '-' || c == '.' || IsDigit(c)
  }

  /** Characters that start an operator token: everything not claimed by another token kind. */
  predicate StartsOperator(c: char)
  {
    c != '(' && c != ')' && c != 'R' && !StartsNumber(c) && !IsTokenSpace(c)
  }

  /** Foundation's `whitespaceCharacterSet`: tab and the Unicode space separators; no line breaks. */
  predicate IsFoundationWhitespace(c: char)
  {
    c == '\t' || c == ' ' || c == '\U{00A0}' || c == '\U{1680}' || ('\U{2000}' <= c <= '\U{200A}')
    || c == '\U{202F}' || c == '\U{205F}' || c == '\U{3000}'
  }

  /** The line terminators of the regular-expression engine behind NSRegularExpression. */
  predicate IsLineTerminator(c: char)
  {
    ('\n' <= c <= '\r') || c == '\U{0085}' || c == '\U{2028}' || c == '\U{2029}'
  }

  predicate AllDigits(s: string)
  {
    forall i :: 0 <= i < |s| ==> IsDigit(s[i])
  }

  /** The body of `^R(|O(|I[0-9]*))$`, matched case-insensitively. */
  predicate PrefixBody(s: string)
  {
    |s| >= 1 && (s[0] == 'R' || s[0] == 'r')
    && (|s| == 1 || ((s[1] == 'O' || s[1] == 'o')
        && (|s| == 2 || ((s[2] == 'I' || s[2] == 'i') && AllDigits(s[3..])))))
  }

  /** The body of `^ROI[0-9]+$`, matched case-insensitively. */
  predicate NameBody(s: string)
  {
    |s| >= 4 && (s[0] == 'R' || s[0] == 'r') && (s[1] == 'O' || s[1] == 'o')
    && (s[2] == 'I' || s[2] == 'i') && AllDigits(s[3..])
  }

  predicate EndsWithCrLf(s: string)
  {
    |s| >= 2 && s[|s| - 2] == '\r' && s[|s| - 1] == '\n'
  }

  /** Whether `s` ends in a line terminator that `$` may stand before: a final one, or a final CR LF pair (but not between its CR and LF). */
  predicate EndsWithLineTerminator(s: string)
  {
    |s| >= 1 && IsLineTerminator(s[|s| - 1]) && !EndsWithCrLf(s)
  }

  /**
   * Whether `^R(|O(|I[0-9]*))$` matches all of `s`.  Without the multi-line
   * option, `$` matches at the end of the input and also just before a line
   * terminator, or a CR LF pair, that ends the input.
   */
  predicate IsPlaceholderPrefix(s: string)
  {
    PrefixBody(s)
    || (EndsWithLineTerminator(s) && PrefixBody(s[..|s| - 1]))
    || (EndsWithCrLf(s) && PrefixBody(s[..|s| - 2]))
  }

  /** Whether `^ROI[0-9]+$` matches all of `s`, with `$` as above. */
  predicate IsPlaceholderName(s: string)
  {
    NameBody(s)
    || (EndsWithLineTerminator(s) && NameBody(s[..|s| - 1]))
    || (EndsWithCrLf(s) && NameBody(s[..|s| - 2]))
  }

  /** A space, a tab or a parenthesis never extends a placeholder prefix. */
  lemma PlaceholderPrefixRejectsSeparators(s: string)
    requires s != [] && (s[|s| - 1] == ' ' || s[|s| - 1] == '\t' || s[|s| - 1] == '(' || s[|s| - 1] == ')')
    ensures !IsPlaceholderPrefix(s)
  {
  }

  /** Line breaks do extend one: `$` matches before a final line terminator or CR LF pair, so `R` followed by a newline is a placeholder prefix. */
  lemma PlaceholderPrefixTakesFinalNewline()
    ensures IsPlaceholderPrefix("R\n") && IsPlaceholderName("ROI1\n") && !IsPlaceholderName("ROI1\n\n")
    ensures IsPlaceholderName("ROI1\r\n")
  {
    assert "ROI1\r\n"[..4] == "ROI1";
    assert "R\n"[..1] == "R";
    assert "ROI1\n"[..4] == "ROI1";
    assert "ROI1\n"[..4][3..] == "1";
    var s := "ROI1\n\n";
    assert s[|s| - 1] == '\n' && s[|s| - 2] == '\n';
    assert s[..|s| - 1] == "ROI1\n";
    assert !IsDigit(s[..|s| - 1][4]);
    assert s[3..][1] == '\n';
    assert s[..|s| - 1][3..][1] == '\n';
  }

  // ---------------------------------------------------------------------------
  // Number text: `Double(s)`

  function DigitValue(c: char): nat
    requires IsDigit(c)
  {
    c as int - '0' as int
  }

  function NaturalValue(ds: string): nat
    requires AllDigits(ds)
  {
    if ds == [] then 0 else 10 * NaturalValue(ds[..|ds| - 1]) + DigitValue(ds[|ds| - 1])
  }

  function Pow10(n: nat): (p: nat)
    ensures p >= 1
  {
    if n == 0 then 1 else 10 * Pow10(n - 1)
  }

  /** Position of the first '.', or |s| when there is none. */
  function DotIndex(s: string): (k: nat)
    ensures k <= |s|
    ensures k < |s| ==> s[k] == '.'
    ensures forall i :: 0 <= i < k ==> s[i] != '.'
  {
    if s == [] then 0 else if s[0] == '.' then 0 else 1 + DotIndex(s[1..])
  }

  /** Digits with at most one decimal point and at least one digit. */
  predicate IsDecimal(s: string)
  {
    && (exists i :: 0 <= i < |s| && IsDigit(s[i]))
    && (forall i :: 0 <= i < |s| ==> s[i] == '.' || IsDigit(s[i]))
    && (forall i, j :: 0 <= i < j < |s| && s[i] == '.' ==> s[j] != '.')
  }

  function DecimalValue(s: string): (m: real)
    requires IsDecimal(s)
    ensures m >= 0.0
  {
    var k := DotIndex(s);
    if k == |s| then NaturalValue(s) as real
    else
      var digits := s[..k] + s[k + 1..];
      assert AllDigits(digits) by {
        forall i | 0 <= i < |digits| ensures IsDigit(digits[i]) {
          if i < k { assert digits[i] == s[i]; }
          else { assert digits[i] == s[i + 1]; }
        }
      }
      (NaturalValue(digits) as real) / (Pow10(|s| - k - 1) as real)
  }

  /** 2^n, by repeated squaring. */
  function Pow2(n: nat): (p: nat)
    ensures p >= 1
  {
    if n == 0 then 1
    else if n % 2 == 0 then var h := Pow2(n / 2); h * h
    else 2 * Pow2(n - 1)
  }

  /**
   * 2^1024 - 2^970, half an ulp above the greatest finite `Double`: the
   * least magnitude that rounds to infinity.
   */
  const OverflowThreshold: real := 179769313486231580793728971405303415079934132710037826936173778980444968292764750946649017977587207096330286416692887910946555547851940402630657488671505820681908902000708383676273854845817711531764475730270069855571366959622842914819860834936475292719074168444365510704342711559699508093042880177904174497792.0

  /** 2^-1075, half the least subnormal `Double`: the greatest non-zero magnitude that rounds to zero. */
  const UnderflowThreshold: real := 1.0 / 404804506614621236704990693437834614099113299528284236713802716054860679135990693783920767402874248990374155728633623822779617474771586953734026799881477019843034848553132722728933815484186432682479535356945490137124014966849385397236206711298319112681620113024717539104666829230461005064372655017292012526615415482186989568.0

  /** The thresholds are the powers of two they are documented as. */
  lemma ThresholdsArePowersOfTwo()
    ensures OverflowThreshold == (Pow2(1024) - Pow2(970)) as real
    ensures UnderflowThreshold == 1.0 / (Pow2(1075) as real)
  {
    assert Pow2(1) == 2;
    assert Pow2(2) == 4;
    assert Pow2(3) == 8;
    assert Pow2(4) == 16;
    assert Pow2(6) == 64;
    assert Pow2(7) == 128;
    assert Pow2(8) == 256;
    assert Pow2(14) == 16384;
    assert Pow2(15) == 32768;
    assert Pow2(16) == 65536;
    assert Pow2(30) == 1073741824;
    assert Pow2(32) == 4294967296;
    assert Pow2(33) == 8589934592;
    assert Pow2(60) == 1152921504606846976;
    assert Pow2(64) == 18446744073709551616;
    assert Pow2(66) == 73786976294838206464;
    assert Pow2(67) == 147573952589676412928;
    assert Pow2(120) == 1329227995784915872903807060280344576;
    assert Pow2(121) == 2658455991569831745807614120560689152;
    assert Pow2(128) == 340282366920938463463374607431768211456;
    assert Pow2(134) == 21778071482940061661655974875633165533184;
    assert Pow2(242) == 7067388259113537318333190002971674063309935587502475832486424805170479104;
    assert Pow2(256) == 115792089237316195423570985008687907853269984665640564039457584007913129639936;
    assert Pow2(268) == 474284397516047136454946754595585670566993857190463750305618264096412179005177856;
    assert Pow2(484) == 49947976805055875702105555676690660891977570282639538413746511354005947821116249921924897649015871538557230897942505966327167610868612564900642816;
    assert Pow2(485) == 99895953610111751404211111353381321783955140565279076827493022708011895642232499843849795298031743077114461795885011932654335221737225129801285632;
    assert Pow2(512) == 13407807929942597099574024998205846127479365820592393377723561443721764030073546976801874298166903427690031858186486050853753882811946569946433649006084096;
    assert Pow2(536) == 224945689727159819140526925384299092943484855915095831655037778630591879033574393515952034305194542857496045531676044756160413302774714984450425759043258192756736;
    assert Pow2(537) == 449891379454319638281053850768598185886969711830191663310075557261183758067148787031904068610389085714992091063352089512320826605549429968900851518086516385513472;
    assert Pow2(970) == 9979201547673599058281863565184192830337256302177287707512736212186059459344820328924789827463178505446712234220962476219862189941967968303695858991424157101600028364755428382587688607221814935913266783722719619966654052275604351944444276342240220787535604534378780208211792476151720049639424;
    assert Pow2(1024) == 179769313486231590772930519078902473361797697894230657273430081157732675805500963132708477322407536021120113879871393357658789768814416622492847430639474124377767893424865485276302219601246094119453082952085005768838150682342462881473913110540827237163350510684586298239947245938479716304835356329624224137216;
    assert Pow2(1074) == 202402253307310618352495346718917307049556649764142118356901358027430339567995346891960383701437124495187077864316811911389808737385793476867013399940738509921517424276566361364466907742093216341239767678472745068562007483424692698618103355649159556340810056512358769552333414615230502532186327508646006263307707741093494784;
    assert Pow2(1075) == 404804506614621236704990693437834614099113299528284236713802716054860679135990693783920767402874248990374155728633623822779617474771586953734026799881477019843034848553132722728933815484186432682479535356945490137124014966849385397236206711298319112681620113024717539104666829230461005064372655017292012526615415482186989568;
  }

  /**
   * A magnitude `Double(s)` reads without a range error: zero, or rounded
   * to neither infinity nor zero.
   */
  predicate InDoubleRange(m: real)
  {
    m == 0.0 || (UnderflowThreshold < m < OverflowThreshold)
  }

  /** The text after an optional leading minus sign. */
  function Unsigned(s: string): string
  {
    if |s| > 0 && s[0] == '-' then s[1..] else s
  }

  /**
   * `Double(s)` on the characters a number token can hold: an optional
   * leading minus sign followed by a decimal with at least one digit, whose
   * magnitude neither overflows nor underflows to zero.
   */
  function ParseNumber(s: string): (v: Option<real>)
    ensures v.Some? <==> IsDecimal(Unsigned(s)) && InDoubleRange(DecimalValue(Unsigned(s)))
    ensures v.Some? ==> exists i :: 0 <= i < |s| && IsDigit(s[i])
  {
    var negative := |s| > 0 && s[0] == '-';
    var body := Unsigned(s);
    if !IsDecimal(body) then None
    else
      var magnitude := DecimalValue(body);
      if !InDoubleRange(magnitude) then None
      else
        assert exists i :: 0 <= i < |s| && IsDigit(s[i]) by {
          var j :| 0 <= j < |body| && IsDigit(body[j]);
          assert IsDigit(s[if negative then j + 1 else j]);
        }
        Some(if negative then -magnitude else magnitude)
  }

  /** A value read is finite, at least 2^-1075 away from zero unless zero, and negative only after a minus sign. */
  lemma ParsedValueBounds(s: string)
    ensures ParseNumber(s).Some? ==> -OverflowThreshold < ParseNumber(s).value < OverflowThreshold
    ensures ParseNumber(s).Some? && ParseNumber(s).value != 0.0 ==>
      ParseNumber(s).value < -UnderflowThreshold || UnderflowThreshold < ParseNumber(s).value
    ensures ParseNumber(s).Some? && ParseNumber(s).value < 0.0 ==> s[0] == '-'
  {
  }

  /** Text without a decimal point has its dot index at the end. */
  lemma {:induction false} NoDotAtEnd(s: string)
    requires AllDigits(s)
    ensures DotIndex(s) == |s|
  {
    if s != [] {
      assert AllDigits(s[1..]) by {
        forall i | 0 <= i < |s[1..]| ensures IsDigit(s[1..][i]) {
          assert s[1..][i] == s[i + 1];
        }
      }
      NoDotAtEnd(s[1..]);
    }
  }

  /** Digits alone read as the natural number they spell, as long as it is finite as a `Double`. */
  lemma ParseDigits(ds: string)
    requires |ds| >= 1 && AllDigits(ds)
    requires (NaturalValue(ds) as real) < OverflowThreshold
    ensures ParseNumber(ds) == Some(NaturalValue(ds) as real)
  {
    assert IsDigit(ds[0]);
    assert Unsigned(ds) == ds;
    assert IsDecimal(ds);
    NoDotAtEnd(ds);
    assert DecimalValue(ds) == NaturalValue(ds) as real;
    assert InDoubleRange(NaturalValue(ds) as real) by {
      assert NaturalValue(ds) == 0 || NaturalValue(ds) >= 1;
    }
  }

  lemma ParseTwo()
    ensures ParseNumber("2") == Some(2.0)
  {
    assert NaturalValue("2") == 2 by {
      assert "2"[..0] == [];
    }
    ParseDigits("2");
  }

  /** A leading minus sign negates the value and is refused exactly where the unsigned text is. */
  lemma ParseNegated(s: string)
    requires |s| == 0 || s[0] != '-'
    ensures ParseNumber(['-'] + s) == if ParseNumber(s).Some? then Some(-ParseNumber(s).value) else None
  {
    assert Unsigned(['-'] + s) == s;
    assert Unsigned(s) == s;
  }

  // ---------------------------------------------------------------------------
  // Characters: `s.characters`

  /**
   * A `Character` of Swift's `characters` view, as far as the tokenizer can
   * tell them apart: a single scalar, or the CR LF pair, which Swift reads as
   * one character equal to neither "\r" nor "\n".
   */
  datatype Character = Scalar(c: char) | CrLf

  /** `String(c)`: the scalars a character is made of. */
  function Text(ch: Character): string
  {
    match ch
    case Scalar(c) => [c]
    case CrLf => "\r\n"
  }

  /** The scalars of a sequence of characters, in order. */
  function Flatten(cs: seq<Character>): string
  {
    if cs == [] then [] else Flatten(cs[..|cs| - 1]) + Text(cs[|cs| - 1])
  }

  lemma {:induction false} FlattenCons(ch: Character, cs: seq<Character>)
    ensures Flatten([ch] + cs) == Text(ch) + Flatten(cs)
    decreases |cs|
  {
    var xs := [ch] + cs;
    if cs == [] {
      assert xs[..0] == [];
    } else {
      var init := cs[..|cs| - 1];
      assert xs[..|cs|] == [ch] + init;
      assert xs[|cs|] == cs[|cs| - 1];
      FlattenCons(ch, init);
      calc {
        Flatten(xs);
        Flatten([ch] + init) + Text(cs[|cs| - 1]);
        (Text(ch) + Flatten(init)) + Text(cs[|cs| - 1]);
        Text(ch) + (Flatten(init) + Text(cs[|cs| - 1]));
        Text(ch) + Flatten(cs);
      }
    }
  }

  /**
   * `s.characters`, as far as the tokenizer can tell: a CR directly followed
   * by an LF is one character, every other scalar is a character of its own.
   * The characters spell `s` again.
   */
  function Characters(s: string): (cs: seq<Character>)
    ensures Flatten(cs) == s
    ensures s != [] ==> cs != [] && Text(cs[0])[0] == s[0]
    decreases |s|
  {
    if s == [] then []
    else if |s| >= 2 && s[0] == '\r' && s[1] == '\n' then
      var rest := Characters(s[2..]);
      FlattenCons(CrLf, rest);
      assert s == "\r\n" + s[2..];
      [CrLf] + rest
    else
      var rest := Characters(s[1..]);
      FlattenCons(Scalar(s[0]), rest);
      assert s == [s[0]] + s[1..];
      [Scalar(s[0])] + rest
  }

  /** Whether no CR character is directly followed by an LF character. */
  predicate CrLfKept(cs: seq<Character>)
  {
    forall i :: 0 <= i < |cs| - 1 ==> !(cs[i] == Scalar('\r') && cs[i + 1] == Scalar('\n'))
  }

  /** A character in front of a sequence that keeps CR LF pairs together keeps them together too, unless it is a CR before an LF. */
  lemma CrLfKeptCons(ch: Character, rest: seq<Character>)
    requires CrLfKept(rest)
    requires rest != [] && ch == Scalar('\r') ==> rest[0] != Scalar('\n')
    ensures CrLfKept([ch] + rest)
  {
    var cs := [ch] + rest;
    forall i | 0 <= i < |cs| - 1
      ensures !(cs[i] == Scalar('\r') && cs[i + 1] == Scalar('\n'))
    {
      if i > 0 {
        assert cs[i] == rest[i - 1] && cs[i + 1] == rest[i];
      }
    }
  }

  /** No CR and LF of the input stay apart as two characters. */
  lemma {:induction false} CharactersKeepCrLfTogether(s: string)
    ensures CrLfKept(Characters(s))
    decreases |s|
  {
    if s == [] {
    } else if |s| >= 2 && s[0] == '\r' && s[1] == '\n' {
      CharactersKeepCrLfTogether(s[2..]);
      CrLfKeptCons(CrLf, Characters(s[2..]));
    } else {
      var rest := Characters(s[1..]);
      CharactersKeepCrLfTogether(s[1..]);
      if |s| >= 2 {
        assert Text(rest[0])[0] == s[1];
      }
      CrLfKeptCons(Scalar(s[0]), rest);
    }
  }

  /** Whether a character is one of the scalars a whitespace token is made of. */
  predicate IsSpaceCharacter(ch: Character)
  {
    ch.Scalar? && IsTokenSpace(ch.c)
  }

  // ---------------------------------------------------------------------------
  // Tokens

  /** `init?(fromCharacter:)`; it never fails.  The CR LF pair matches no case and becomes an operator. */
  function FromCharacter(ch: Character): (t: Option<Token>)
    ensures t.Some?
    ensures t.value.ParenthesisOpen? <==> ch == Scalar('(')
    ensures t.value.ParenthesisClose? <==> ch == Scalar(')')
    ensures t.value.Placeholder? <==> ch == Scalar('R')
    ensures t.value.Whitespace? <==> IsSpaceCharacter(ch)
    ensures t.value.Number? <==> ch.Scalar? && StartsNumber(ch.c)
    ensures t.value.Operator? <==> ch == CrLf || (ch.Scalar? && StartsOperator(ch.c))
    ensures ch == CrLf ==> t.value == Operator("\r\n")
    ensures !IsSpaceCharacter(ch) ==> Describe(t.value) == Text(ch)
  {
    match ch
    case CrLf => Some(Operator(Text(ch)))
    case Scalar(c) =>
      if c == '(' then Some(ParenthesisOpen)
      else if c == ')' then Some(ParenthesisClose)
      else if c == 'R' then Some(Placeholder([c]))
      else if StartsNumber(c) then Some(Number([c]))
      else if IsTokenSpace(c) then Some(Whitespace)
      else Some(Operator([c]))
  }

  /** `description`. */
  function Describe(t: Token): string
  {
    match t
    case Whitespace => " "
    case ParenthesisOpen => "("
    case ParenthesisClose => ")"
    case Number(s) => s
    case Placeholder(s) => s
    case Operator(s) => s
  }

  /** No operator spelling starts with a CR. */
  lemma NoOperatorStartsWithCr(s: string)
    requires s != [] && s[0] == '\r'
    ensures E.FromString(s).None?
  {
    assert '\r' !in E.OperatorSymbols;
  }

  /**
   * `matchCharacter`: the token extended by `ch` when it absorbs `ch`, None
   * when `ch` must start a new token.  (The source mutates the token in place
   * and returns whether it did.)  The whitespace test of the operator case
   * looks at the character's first UTF-16 unit.
   */
  function MatchCharacter(t: Token, ch: Character): Option<Token>
  {
    match t
    case Whitespace => if IsSpaceCharacter(ch) then Some(Whitespace) else None
    case ParenthesisOpen => None
    case ParenthesisClose => None
    case Number(cur) =>
      if ch == Scalar('.') || (ch.Scalar? && IsDigit(ch.c)) then Some(Number(cur + Text(ch))) else None
    case Placeholder(cur) =>
      if IsPlaceholderPrefix(cur + Text(ch)) then Some(Placeholder(cur + Text(ch))) else None
    case Operator(cur) =>
      var extended := cur + Text(ch);
      if IsFoundationWhitespace(Text(ch)[0]) then None
      else if E.FromString(extended).Some? then Some(Operator(extended))
      else if FromCharacter(ch).Some? then None
      else Some(Operator(extended))
  }

  /**
   * What `matchCharacter` accepts: a whitespace token takes more whitespace
   * scalars, a number takes `.` and digits, a placeholder takes what keeps it
   * a prefix of a placeholder name, an operator takes what makes it an
   * operator spelling, and parentheses take nothing.  So a CR LF pair ends
   * every token but a placeholder prefix.  An accepted character extends the
   * token's text and keeps its kind.
   */
  lemma MatchCharacterMeaning(t: Token, ch: Character)
    ensures var r := MatchCharacter(t, ch);
      && (r.Some? ==> (if t.Whitespace? then r.value == Whitespace && IsSpaceCharacter(ch)
                       else Describe(r.value) == Describe(t) + Text(ch)))
      && (r.Some? ==> (r.value.Whitespace? <==> t.Whitespace?) && (r.value.Number? <==> t.Number?)
                      && (r.value.Placeholder? <==> t.Placeholder?) && (r.value.Operator? <==> t.Operator?))
      && (IsSpaceCharacter(ch) && !t.Placeholder? ==> (r.Some? <==> t.Whitespace?))
      && ((ch == Scalar(' ') || ch == Scalar('\t')) ==> (r.Some? <==> t.Whitespace?))
      && (ch == CrLf ==> (r.Some? <==> t.Placeholder? && IsPlaceholderPrefix(t.s + "\r\n")))
      && (t.Number? ==> (r.Some? <==> ch == Scalar('.') || (ch.Scalar? && IsDigit(ch.c))))
      && (t.Placeholder? ==> (r.Some? <==> IsPlaceholderPrefix(t.s + Text(ch))))
      && (t.Operator? ==> (r.Some? <==> E.FromString(t.s + Text(ch)).Some?))
  {
    match t
    case Placeholder(cur) =>
      var extended := cur + Text(ch);
      if ch == Scalar(' ') || ch == Scalar('\t') {
        assert extended[|extended| - 1] == ch.c;
        PlaceholderPrefixRejectsSeparators(extended);
      }
    case Operator(cur) =>
      OperatorAbsorbsSpellings(cur, ch);
      if IsSpaceCharacter(ch) || ch == CrLf {
        var extended := cur + Text(ch);
        assert extended[|cur|] == Text(ch)[0] && extended[|cur|] !in E.OperatorSymbols;
      }
    case _ =>
  }

  /** An operator token absorbs exactly the characters that make its text an operator spelling. */
  lemma OperatorAbsorbsSpellings(cur: string, ch: Character)
    ensures MatchCharacter(Operator(cur), ch) ==
      if E.FromString(cur + Text(ch)).Some? then Some(Operator(cur + Text(ch))) else None
  {
    if IsFoundationWhitespace(Text(ch)[0]) {
      NoOperatorAfterWhitespace(cur, ch);
    }
  }

  /** No operator spelling holds a whitespace character. */
  lemma NoOperatorAfterWhitespace(cur: string, ch: Character)
    requires IsFoundationWhitespace(Text(ch)[0])
    ensures E.FromString(cur + Text(ch)) == None
  {
    var extended := cur + Text(ch);
    assert extended[|cur|] == Text(ch)[0];
    assert Text(ch)[0] !in E.OperatorSymbols;
  }

  /** The operator token of a CR LF pair never grows. */
  lemma CrLfOperatorAbsorbsNothing(ch: Character)
    ensures MatchCharacter(Operator("\r\n"), ch).None?
  {
    MatchCharacterMeaning(Operator("\r\n"), ch);
    NoOperatorStartsWithCr("\r\n" + Text(ch));
  }

  function IsValid(t: Token): bool
  {
    match t
    case Whitespace => true
    case ParenthesisOpen => true
    case ParenthesisClose => true
    case Number(s) => ParseNumber(s).Some?
    case Placeholder(s) => IsPlaceholderName(s)
    case Operator(s) => E.FromString(s).Some?
  }

  function IsIgnored(t: Token): bool
  {
    t.Whitespace?
  }

  /** What a token produced by the tokenizer looks like. */
  predicate WellFormed(t: Token)
  {
    match t
    case Number(s) =>
      s != [] && StartsNumber(s[0]) && forall i :: 1 <= i < |s| ==> s[i] == '.' || IsDigit(s[i])
    case Placeholder(s) => s != [] && s[0] == 'R' && IsPlaceholderPrefix(s)
    case Operator(s) => s == "\r\n" || (s != [] && StartsOperator(s[0]) && (|s| == 1 || E.FromString(s).Some?))
    case _ => true
  }

  /** A token was built from the scalars `text`: a whitespace token from a run of whitespace, any other from its own description. */
  predicate Reads(t: Token, text: string)
  {
    text != []
    && if t.Whitespace? then forall i :: 0 <= i < |text| ==> IsTokenSpace(text[i])
       else Describe(t) == text
  }

  lemma MatchCharacterKeepsShape(t: Token, ch: Character, text: string)
    requires WellFormed(t) && Reads(t, text)
    requires MatchCharacter(t, ch).Some?
    ensures WellFormed(MatchCharacter(t, ch).value)
    ensures Reads(MatchCharacter(t, ch).value, text + Text(ch))
  {
    MatchCharacterMeaning(t, ch);
    var t' := MatchCharacter(t, ch).value;
    if t.Number? {
      assert t'.s == t.s + Text(ch);
      forall i | 1 <= i < |t'.s| ensures t'.s[i] == '.' || IsDigit(t'.s[i]) {
        if i < |t.s| { assert t'.s[i] == t.s[i]; }
      }
    } else if t.Placeholder? {
      assert t'.s == t.s + Text(ch);
    } else if t.Operator? {
      assert t'.s == t.s + Text(ch);
    }
    if t.Whitespace? {
      forall i | 0 <= i < |text + Text(ch)| ensures IsTokenSpace((text + Text(ch))[i]) {
        if i < |text| { assert (text + Text(ch))[i] == text[i]; }
      }
    }
  }

  lemma FromCharacterShape(ch: Character)
    ensures WellFormed(FromCharacter(ch).value)
    ensures Reads(FromCharacter(ch).value, Text(ch))
  {
  }

  // ---------------------------------------------------------------------------
  // The tokenizer: `extractComponents`

  /** The loop state of `extractComponents`: the tokens emitted so far and the open token. */
  datatype ScanState = ScanState(done: seq<Token>, cur: Option<Token>)

  /** One iteration of the loop, for the character `ch`. */
  function Feed(st: ScanState, ch: Character): ScanState
  {
    match st.cur
    case None => ScanState(st.done, FromCharacter(ch))
    case Some(t) =>
      match MatchCharacter(t, ch)
      case Some(t') => ScanState(st.done, Some(t'))
      case None => ScanState(st.done + [t], FromCharacter(ch))
  }

  /** The loop run over the first `n` characters of `cs`. */
  function Scan(cs: seq<Character>, n: nat): ScanState
    requires n <= |cs|
  {
    if n == 0 then ScanState([], None) else Feed(Scan(cs, n - 1), cs[n - 1])
  }

  /** The emitted tokens followed by the open one, if any. */
  function Flush(st: ScanState): seq<Token>
  {
    st.done + (if st.cur.Some? then [st.cur.value] else [])
  }

  /** The result of `extractComponents(s)`. */
  function Tokenize(s: string): seq<Token>
  {
    var cs := Characters(s);
    if cs == [] then [] else Flush(Scan(cs, |cs|))
  }

  /** `extractComponents`. */
  method ExtractComponents(s: string) returns (ret: seq<Token>)
    ensures ret == Tokenize(s)
  {
    if |s| == 0 {
      return [];
    }
    var cs := Characters(s);
    ret := [];
    var cur: Option<Token> := None;
    var i := 0;
    while i < |cs|
      invariant 0 <= i <= |cs|
      invariant Scan(cs, i) == ScanState(ret, cur)
    {
      var ch := cs[i];
      assert Scan(cs, i + 1) == Feed(ScanState(ret, cur), ch);
      if cur.None? {
        cur := FromCharacter(ch);
      } else {
        var next := MatchCharacter(cur.value, ch);
        if next.None? {
          ret := ret + [cur.value];
          cur := FromCharacter(ch);
        } else {
          cur := next;
        }
      }
      i := i + 1;
    }
    if cur.Some? {
      ret := ret + [cur.value];
    }
  }

  /** Concatenation of strings. */
  function Concat(parts: seq<string>): string
  {
    if parts == [] then [] else Concat(parts[..|parts| - 1]) + parts[|parts| - 1]
  }

  /** Whether the loop, in state `st`, adds `ch` to the open token. */
  predicate Absorbs(st: ScanState, ch: Character)
  {
    st.cur.Some? && MatchCharacter(st.cur.value, ch).Some?
  }

  /** The texts of the tokens after the loop reads a character spelt `x`, given those before: `x` joins the last text or starts a new one. */
  ghost function NextTexts(texts: seq<string>, x: string, absorbed: bool): seq<string>
  {
    if absorbed && texts != [] then texts[..|texts| - 1] + [texts[|texts| - 1] + x] else texts + [x]
  }

  /** The scalars each token of `Flush(Scan(cs, n))` was built from. */
  ghost function TokenTexts(cs: seq<Character>, n: nat): seq<string>
    requires n <= |cs|
  {
    if n == 0 then [] else NextTexts(TokenTexts(cs, n - 1), Text(cs[n - 1]), Absorbs(Scan(cs, n - 1), cs[n - 1]))
  }

  /**
   * Tokens and their texts: each token reads its own text, and a whitespace
   * token is followed by a token that is not whitespace and starts with a
   * scalar that is not whitespace, unless it is the CR LF operator.
   */
  ghost predicate Partition(toks: seq<Token>, texts: seq<string>)
  {
    && |texts| == |toks|
    && (forall i :: 0 <= i < |toks| ==> Reads(toks[i], texts[i]) && WellFormed(toks[i]))
    && (forall i :: 0 <= i < |toks| - 1 && toks[i].Whitespace? ==>
          !toks[i + 1].Whitespace? && (IsTokenSpace(texts[i + 1][0]) ==> toks[i + 1] == Operator("\r\n")))
  }

  lemma AbsorbKeepsPartition(toks: seq<Token>, texts: seq<string>, t: Token, x: string)
    requires Partition(toks, texts) && toks != []
    requires WellFormed(t) && Reads(t, texts[|texts| - 1] + x)
    requires t.Whitespace? <==> toks[|toks| - 1].Whitespace?
    requires toks[|toks| - 1] != Operator("\r\n")
    ensures Partition(toks[..|toks| - 1] + [t], texts[..|texts| - 1] + [texts[|texts| - 1] + x])
  {
    var n := |toks|;
    var toks', texts' := toks[..n - 1] + [t], texts[..n - 1] + [texts[n - 1] + x];
    forall i | 0 <= i < n ensures Reads(toks'[i], texts'[i]) && WellFormed(toks'[i]) {
      if i < n - 1 {
        assert toks'[i] == toks[i] && texts'[i] == texts[i];
      }
    }
    forall i | 0 <= i < n - 1 && toks'[i].Whitespace?
      ensures !toks'[i + 1].Whitespace? && (IsTokenSpace(texts'[i + 1][0]) ==> toks'[i + 1] == Operator("\r\n"))
    {
      assert toks'[i] == toks[i];
      assert texts'[i + 1][0] == texts[i + 1][0];
    }
  }

  lemma EmitKeepsPartition(toks: seq<Token>, texts: seq<string>, ch: Character)
    requires Partition(toks, texts)
    requires toks != [] && toks[|toks| - 1].Whitespace? ==> !IsSpaceCharacter(ch)
    ensures Partition(toks + [FromCharacter(ch).value], texts + [Text(ch)])
  {
    var n := |toks|;
    var toks', texts' := toks + [FromCharacter(ch).value], texts + [Text(ch)];
    FromCharacterShape(ch);
    forall i | 0 <= i < n + 1 ensures Reads(toks'[i], texts'[i]) && WellFormed(toks'[i]) {
      if i < n {
        assert toks'[i] == toks[i] && texts'[i] == texts[i];
      }
    }
    forall i | 0 <= i < n && toks'[i].Whitespace?
      ensures !toks'[i + 1].Whitespace? && (IsTokenSpace(texts'[i + 1][0]) ==> toks'[i + 1] == Operator("\r\n"))
    {
      assert toks'[i] == toks[i];
      if i < n - 1 {
        assert texts'[i + 1] == texts[i + 1] && toks'[i + 1] == toks[i + 1];
      }
    }
  }

  /** One iteration of the loop keeps the partition. */
  lemma FeedKeepsPartition(st: ScanState, texts: seq<string>, ch: Character)
    requires st.cur.None? ==> st.done == [] && texts == []
    requires Partition(Flush(st), texts)
    ensures Partition(Flush(Feed(st, ch)), NextTexts(texts, Text(ch), Absorbs(st, ch)))
  {
    var toks := Flush(st);
    if st.cur.None? {
      FromCharacterShape(ch);
    } else {
      assert toks[|toks| - 1] == st.cur.value;
      var next := MatchCharacter(st.cur.value, ch);
      MatchCharacterMeaning(st.cur.value, ch);
      if next.Some? {
        MatchCharacterKeepsShape(st.cur.value, ch, texts[|texts| - 1]);
        CrLfOperatorAbsorbsNothing(ch);
        AbsorbKeepsPartition(toks, texts, next.value, Text(ch));
        assert Flush(Feed(st, ch)) == toks[..|toks| - 1] + [next.value];
      } else {
        EmitKeepsPartition(toks, texts, ch);
        assert Flush(Feed(st, ch)) == toks + [FromCharacter(ch).value];
      }
    }
  }

  /** The loop holds an open token exactly once it has read a character. */
  lemma ScanHoldsOpenToken(cs: seq<Character>, n: nat)
    requires n <= |cs|
    ensures Scan(cs, n).cur.None? <==> n == 0
    ensures Scan(cs, n).cur.None? ==> Scan(cs, n).done == []
  {
  }

  lemma {:induction false} ScanKeepsPartition(cs: seq<Character>, n: nat)
    requires n <= |cs|
    ensures Partition(Flush(Scan(cs, n)), TokenTexts(cs, n))
  {
    if n > 0 {
      ScanKeepsPartition(cs, n - 1);
      PartitionOneMore(cs, n);
    }
  }

  lemma PartitionOneMore(cs: seq<Character>, n: nat)
    requires 0 < n <= |cs|
    requires Partition(Flush(Scan(cs, n - 1)), TokenTexts(cs, n - 1))
    ensures Partition(Flush(Scan(cs, n)), TokenTexts(cs, n))
  {
    ScanHoldsOpenToken(cs, n - 1);
    FeedKeepsPartition(Scan(cs, n - 1), TokenTexts(cs, n - 1), cs[n - 1]);
  }

  lemma ConcatSnoc(parts: seq<string>, x: string)
    ensures Concat(parts + [x]) == Concat(parts) + x
  {
    assert (parts + [x])[..|parts|] == parts;
  }

  lemma StringAppendAssociates(a: string, b: string, c: string)
    ensures a + (b + c) == (a + b) + c
  {
  }

  lemma ExtendLastSpells(texts: seq<string>, p: string, x: string)
    requires texts != [] && Concat(texts) == p
    ensures Concat(texts[..|texts| - 1] + [texts[|texts| - 1] + x]) == p + x
  {
    var front, last := texts[..|texts| - 1], texts[|texts| - 1];
    ConcatSnoc(front, last + x);
    StringAppendAssociates(Concat(front), last, x);
  }

  lemma NextTextsSpell(texts: seq<string>, p: string, x: string, absorbed: bool)
    requires Concat(texts) == p
    ensures Concat(NextTexts(texts, x, absorbed)) == p + x
  {
    if absorbed && texts != [] {
      ExtendLastSpells(texts, p, x);
    } else {
      ConcatSnoc(texts, x);
    }
  }

  /** One more character of input, absorbed or not, is one more character of spelling. */
  lemma SpellStep(cs: seq<Character>, n: nat, texts: seq<string>, absorbed: bool)
    requires 0 < n <= |cs|
    requires Concat(texts) == Flatten(cs[..n - 1])
    ensures Concat(NextTexts(texts, Text(cs[n - 1]), absorbed)) == Flatten(cs[..n])
  {
    NextTextsSpell(texts, Flatten(cs[..n - 1]), Text(cs[n - 1]), absorbed);
    assert cs[..n][..n - 1] == cs[..n - 1];
  }

  lemma {:induction false} ScanSpellsInput(cs: seq<Character>, n: nat)
    requires n <= |cs|
    ensures Concat(TokenTexts(cs, n)) == Flatten(cs[..n])
  {
    if n > 0 {
      ScanSpellsInput(cs, n - 1);
      SpellsOneMore(cs, n);
    } else {
      assert cs[..0] == [];
    }
  }

  lemma SpellsOneMore(cs: seq<Character>, n: nat)
    requires 0 < n <= |cs|
    requires Concat(TokenTexts(cs, n - 1)) == Flatten(cs[..n - 1])
    ensures Concat(TokenTexts(cs, n)) == Flatten(cs[..n])
  {
    SpellStep(cs, n, TokenTexts(cs, n - 1), Absorbs(Scan(cs, n - 1), cs[n - 1]));
  }

  /** No input is lost and none is invented: the empty text gives no tokens, any other text gives some. */
  lemma TokenizeEmpty(s: string)
    ensures Tokenize(s) == [] <==> s == []
  {
    var cs := Characters(s);
    ScanHoldsOpenToken(cs, |cs|);
  }

  /** The scalars each token of `Tokenize(s)` was built from. */
  ghost function Texts(s: string): seq<string>
  {
    TokenTexts(Characters(s), |Characters(s)|)
  }

  /**
   * Every scalar is consumed, in order, into exactly one token: the texts
   * of the tokens concatenate to the input, each token reads its own text,
   * and the last open token is emitted too.
   */
  lemma TokenizeCoversInput(s: string)
    ensures |Texts(s)| == |Tokenize(s)|
    ensures Concat(Texts(s)) == s
    ensures forall i :: 0 <= i < |Tokenize(s)| ==> Reads(Tokenize(s)[i], Texts(s)[i])
  {
    var cs := Characters(s);
    ScanKeepsPartition(cs, |cs|);
    ScanSpellsInput(cs, |cs|);
    assert cs[..|cs|] == cs;
  }

  /**
   * A number token is a `-`, `.` or digit followed only by `.` and digits, so
   * a `-` never continues a number; placeholders start with `R`; operator
   * tokens are one character, a two-character operator spelling or the CR LF
   * pair.
   */
  lemma TokenizeWellFormed(s: string)
    ensures forall i :: 0 <= i < |Tokenize(s)| ==> WellFormed(Tokenize(s)[i])
  {
    var cs := Characters(s);
    ScanKeepsPartition(cs, |cs|);
  }

  /**
   * A whitespace token swallows the whole run of whitespace scalars: the
   * token after it is not whitespace, and it starts with a scalar that is not
   * whitespace unless it is the operator token of a CR LF pair.
   */
  lemma TokenizeMergesWhitespace(s: string)
    ensures |Texts(s)| == |Tokenize(s)|
    ensures forall i :: 0 <= i < |Texts(s)| ==> Texts(s)[i] != []
    ensures forall i :: 0 <= i < |Tokenize(s)| - 1 && Tokenize(s)[i].Whitespace?
                        ==> !Tokenize(s)[i + 1].Whitespace?
                            && (IsTokenSpace(Texts(s)[i + 1][0]) ==> Tokenize(s)[i + 1] == Operator("\r\n"))
  {
    var cs := Characters(s);
    ScanKeepsPartition(cs, |cs|);
  }

  lemma OperatorTokenHasNoMinus(t: Token)
    requires t.Operator? && WellFormed(t)
    ensures '-' !in t.s
  {
    if |t.s| == 2 {
      assert t.s[0] != '-' && t.s[1] != '-';
    }
  }

  /** A minus sign is never part of an operator token. */
  lemma MinusIsNeverAnOperator(s: string)
    ensures forall i :: 0 <= i < |Tokenize(s)| && Tokenize(s)[i].Operator? ==> '-' !in Tokenize(s)[i].s
  {
    var toks := Tokenize(s);
    TokenizeWellFormed(s);
    forall i | 0 <= i < |toks| && toks[i].Operator? ensures '-' !in toks[i].s {
      OperatorTokenHasNoMinus(toks[i]);
    }
  }

  // ---------------------------------------------------------------------------
  // Filters

  /** `filter { !$0.isIgnored() }`. */
  function Significant(ts: seq<Token>): (r: seq<Token>)
    ensures forall t :: t in r <==> t in ts && !IsIgnored(t)
  {
    if ts == [] then [] else (if IsIgnored(ts[0]) then [] else [ts[0]]) + Significant(ts[1..])
  }

  /** Filtering keeps the order of what it keeps. */
  lemma {:induction false} SignificantDistributes(a: seq<Token>, b: seq<Token>)
    ensures Significant(a + b) == Significant(a) + Significant(b)
  {
    if a == [] {
      assert a + b == b;
    } else {
      assert (a + b)[0] == a[0] && (a + b)[1..] == a[1..] + b;
      SignificantDistributes(a[1..], b);
    }
  }

  /** `filter { !$0.isValid() }`. */
  function Invalid(ts: seq<Token>): (r: seq<Token>)
    ensures forall t :: t in r <==> t in ts && !IsValid(t)
  {
    if ts == [] then [] else (if IsValid(ts[0]) then [] else [ts[0]]) + Invalid(ts[1..])
  }

  lemma {:induction false} AllValidMeansNoneInvalid(ts: seq<Token>)
    requires forall t :: t in ts ==> IsValid(t)
    ensures Invalid(ts) == []
  {
    if ts != [] {
      assert ts[0] in ts;
      assert forall t :: t in ts[1..] ==> t in ts;
      AllValidMeansNoneInvalid(ts[1..]);
    }
  }

  /** `"".join(tokens.map { $0.description })`. */
  function Spelling(ts: seq<Token>): string
  {
    if ts == [] then [] else Describe(ts[0]) + Spelling(ts[1..])
  }

  // ---------------------------------------------------------------------------
  // Enclosing parentheses

  /** Whether the nesting counter, started at `depth`, never drops below zero over `ts`. */
  function NestingNeverNegative(ts: seq<Token>, depth: int): bool
  {
    if ts == [] then true
    else match ts[0]
      case ParenthesisOpen => NestingNeverNegative(ts[1..], depth + 1)
      case ParenthesisClose => depth - 1 >= 0 && NestingNeverNegative(ts[1..], depth - 1)
      case _ => NestingNeverNegative(ts[1..], depth)
  }

  /** Whether `ts` is one group `( ... )`: the interior never closes more than it opened. */
  predicate Enclosed(ts: seq<Token>)
  {
    |ts| >= 2 && ts[0].ParenthesisOpen? && ts[|ts| - 1].ParenthesisClose?
    && NestingNeverNegative(ts[1..|ts| - 1], 0)
  }

  /** `equationEnclosedInParentheses`. */
  method EnclosedInParentheses(tokens: seq<Token>) returns (b: bool)
    ensures b == Enclosed(tokens)
  {
    if |tokens| < 2 {
      return false;
    }
    if !tokens[0].ParenthesisOpen? {
      return false;
    }
    if !tokens[|tokens| - 1].ParenthesisClose? {
      return false;
    }
    var interior := tokens[1..|tokens| - 1];
    var c := 0;
    var i := 1;
    while i < |tokens| - 1
      invariant 1 <= i <= |tokens| - 1
      invariant c >= 0
      invariant NestingNeverNegative(interior, 0) == NestingNeverNegative(tokens[i..|tokens| - 1], c)
    {
      assert tokens[i..|tokens| - 1][0] == tokens[i];
      assert tokens[i..|tokens| - 1][1..] == tokens[i + 1..|tokens| - 1];
      match tokens[i] {
        case ParenthesisOpen =>
          c := c + 1;
        case ParenthesisClose =>
          c := c - 1;
          if c < 0 {
            return false;
          }
        case _ =>
      }
      i := i + 1;
    }
    return true;
  }

  function Opens(k: nat): seq<Token>
  {
    seq(k, _ => ParenthesisOpen)
  }

  function Closes(k: nat): seq<Token>
  {
    seq(k, _ => ParenthesisClose)
  }

  lemma {:induction false} NestingAfterOpens(k: nat, rest: seq<Token>, depth: int)
    ensures NestingNeverNegative(Opens(k) + rest, depth) == NestingNeverNegative(rest, depth + k)
  {
    if k > 0 {
      assert (Opens(k) + rest)[0] == ParenthesisOpen;
      assert (Opens(k) + rest)[1..] == Opens(k - 1) + rest;
      NestingAfterOpens(k - 1, rest, depth + 1);
    } else {
      assert Opens(k) + rest == rest;
    }
  }

  lemma {:induction false} NestingOfCloses(k: nat, depth: int)
    requires depth >= k
    ensures NestingNeverNegative(Closes(k), depth)
  {
    if k > 0 {
      assert Closes(k)[0] == ParenthesisClose;
      assert Closes(k)[1..] == Closes(k - 1);
      NestingOfCloses(k - 1, depth - 1);
    }
  }

  /** A group that closes before the end is not one enclosing group: `(...)+(...)` is not enclosed. */
  lemma {:induction false} SeparateGroupsAreNotEnclosed(inner: seq<Token>, rest: seq<Token>)
    requires NestingNeverNegative(inner, 0) && NestingDelta(inner) == 0
    requires rest != []
    ensures !Enclosed([ParenthesisOpen] + inner + [ParenthesisClose] + rest)
  {
    var ts := [ParenthesisOpen] + inner + [ParenthesisClose] + rest;
    assert ts[1..|ts| - 1] == inner + ([ParenthesisClose] + rest[..|rest| - 1]);
    NestingAppend(inner, [ParenthesisClose] + rest[..|rest| - 1], 0);
  }

  /** The net count of `(` minus `)`. */
  function NestingDelta(ts: seq<Token>): int
  {
    if ts == [] then 0
    else (if ts[0].ParenthesisOpen? then 1 else if ts[0].ParenthesisClose? then -1 else 0) + NestingDelta(ts[1..])
  }

  lemma {:induction false} NestingAppend(a: seq<Token>, b: seq<Token>, depth: int)
    requires NestingNeverNegative(a, depth)
    ensures NestingNeverNegative(a + b, depth) == NestingNeverNegative(b, depth + NestingDelta(a))
  {
    if a == [] {
      assert a + b == b;
    } else {
      assert (a + b)[0] == a[0] && (a + b)[1..] == a[1..] + b;
      var d := if a[0].ParenthesisOpen? then depth + 1 else if a[0].ParenthesisClose? then depth - 1 else depth;
      NestingAppend(a[1..], b, d);
    }
  }

  // ---------------------------------------------------------------------------
  // The parser: `equationParseTokens` and `equationParse`

  /** Strips the outer pair of parentheses for as long as the list is one enclosed group. */
  ghost function StripEnclosing(ts: seq<Token>): seq<Token>
    decreases |ts|
  {
    if Enclosed(ts) then StripEnclosing(ts[1..|ts| - 1]) else ts
  }

  /**
   * The error the top-level scan throws, reading `ts` at nesting depth
   * `depth`: an unmatched `)` or, as written, any operator at depth zero.
   */
  function ScanError(ts: seq<Token>, depth: int): Option<EquationError>
  {
    if ts == [] then None
    else match ts[0]
      case ParenthesisOpen => ScanError(ts[1..], depth + 1)
      case ParenthesisClose =>
        if depth - 1 < 0 then Some(UnexpectedToken(")")) else ScanError(ts[1..], depth - 1)
      case Operator(s) => if depth == 0 then Some(InvalidToken(s)) else ScanError(ts[1..], depth)
      case _ => ScanError(ts[1..], depth)
  }

  /** What `equationParseTokens` does with a list that is not one enclosed group. */
  function Classify(ts: seq<Token>): Result<E.Element, EquationError>
  {
    if ts == [] then Err(MissingToken)
    else if |ts| == 1 then
      match ts[0]
      case Number(s) => (match ParseNumber(s)
                         case Some(v) => Ok(E.Numeric(Finite(v)))
                         case None => Err(InvalidToken(s)))
      case Placeholder(s) => Ok(E.Placeholder(s))
      case _ => Err(UnexpectedToken(Describe(ts[0])))
    else
      match ScanError(ts, 0)
      case Some(e) => Err(e)
      case None => Err(NoOperator(Spelling(ts)))
  }

  /** `equationParseTokens`, as written. */
  method ParseTokens(tokens: seq<Token>, depth: int) returns (r: Result<E.Element, EquationError>)
    ensures r == Classify(StripEnclosing(tokens))
    decreases |tokens|
  {
    if |tokens| == 0 {
      return Err(MissingToken);
    }
    if |tokens| == 1 {
      match tokens[0] {
        case Number(s) =>
          var v := ParseNumber(s);
          if v.None? {
            return Err(InvalidToken(s));
          }
          return Ok(E.Numeric(Finite(v.value)));
        case Placeholder(s) =>
          return Ok(E.Placeholder(s));
        case _ =>
          return Err(UnexpectedToken(Describe(tokens[0])));
      }
    }
    var enclosed := EnclosedInParentheses(tokens);
    if enclosed {
      r := ParseTokens(tokens[1..|tokens| - 1], depth + 1);
      return;
    }
    // multiple tokens: look for the operator of lowest precedence outside parentheses
    var splt := -1;
    var precedence := 0x7fff_ffff_ffff_ffff;
    var oper: Option<E.Operator> := None;
    var inParen := 0;
    var i := 0;
    while i < |tokens|
      invariant 0 <= i <= |tokens|
      invariant inParen >= 0
      invariant oper == None
      invariant ScanError(tokens, 0) == ScanError(tokens[i..], inParen)
    {
      assert tokens[i..][0] == tokens[i] && tokens[i..][1..] == tokens[i + 1..];
      match tokens[i] {
        case ParenthesisOpen =>
          inParen := inParen + 1;
        case ParenthesisClose =>
          inParen := inParen - 1;
          if inParen < 0 {
            return Err(UnexpectedToken(")"));
          }
        case Operator(opText) =>
          if inParen == 0 {
            var op := E.FromString(opText);
            if op.Some? {
              var p := E.Precedence(op.value);
              if p < precedence {
                precedence, splt, oper := p, i, op;
              }
            }
            // the throw stands outside the `if let`, so it ends the parse for every operator
            return Err(InvalidToken(opText));
          }
        case _ =>
      }
      i := i + 1;
    }
    // `oper` is still nil here (the invariant), so the split at the operator is never reached
    return Err(NoOperator(Spelling(tokens)));
  }

  /** What `equationParse(s)` returns or throws. */
  ghost function ParseSpec(s: string): Result<E.Element, EquationError>
  {
    var tokens := Significant(Tokenize(s));
    if tokens == [] then Err(EmptyEquation)
    else if Invalid(tokens) != [] then Err(InvalidToken(Describe(Invalid(tokens)[0])))
    else Classify(StripEnclosing(tokens))
  }

  /** `equationParse`. */
  method Parse(s: string) returns (r: Result<E.Element, EquationError>)
    ensures r == ParseSpec(s)
  {
    var all := ExtractComponents(s);
    var tokens := Significant(all);
    if |tokens| == 0 {
      return Err(EmptyEquation);
    }
    var invalid := Invalid(tokens);
    if |invalid| != 0 {
      return Err(InvalidToken(Describe(invalid[0])));
    }
    r := ParseTokens(tokens, 0);
  }

  // ---------------------------------------------------------------------------
  // What parses

  /** Removes every outer `(`...`)` pair, whether or not it is one group. */
  function Peel(ts: seq<Token>): seq<Token>
    decreases |ts|
  {
    if |ts| >= 2 && ts[0].ParenthesisOpen? && ts[|ts| - 1].ParenthesisClose? then Peel(ts[1..|ts| - 1])
    else ts
  }

  /** A token that parses on its own. */
  predicate IsAtom(t: Token)
  {
    (t.Number? && ParseNumber(t.s).Some?) || t.Placeholder?
  }

  function AtomElement(t: Token): E.Element
    requires IsAtom(t)
  {
    if t.Number? then E.Numeric(Finite(ParseNumber(t.s).value)) else E.Placeholder(t.s)
  }

  lemma {:induction false} PeelToAtomShape(ts: seq<Token>) returns (k: nat)
    requires |Peel(ts)| == 1
    ensures ts == Opens(k) + Peel(ts) + Closes(k)
    decreases |ts|
  {
    if |ts| >= 2 && ts[0].ParenthesisOpen? && ts[|ts| - 1].ParenthesisClose? {
      var inner := ts[1..|ts| - 1];
      assert Peel(inner) == Peel(ts);
      var j := PeelToAtomShape(inner);
      k := j + 1;
      var p := Peel(ts);
      assert ts == [ParenthesisOpen] + inner + [ParenthesisClose];
      assert Opens(k) == [ParenthesisOpen] + Opens(j);
      assert Closes(k) == Closes(j) + [ParenthesisClose];
      calc {
        ts;
        [ParenthesisOpen] + (Opens(j) + p + Closes(j)) + [ParenthesisClose];
        ([ParenthesisOpen] + Opens(j)) + p + (Closes(j) + [ParenthesisClose]);
        Opens(k) + p + Closes(k);
      }
    } else {
      k := 0;
      assert Opens(0) == [] && Closes(0) == [];
    }
  }

  lemma WrappedAtomInteriorNeverNegative(k: nat, a: Token)
    requires IsAtom(a)
    ensures NestingNeverNegative(Opens(k) + [a] + Closes(k), 0)
  {
    assert Opens(k) + [a] + Closes(k) == Opens(k) + ([a] + Closes(k));
    NestingAfterOpens(k, [a] + Closes(k), 0);
    assert ([a] + Closes(k))[0] == a && ([a] + Closes(k))[1..] == Closes(k);
    NestingOfCloses(k, k);
  }

  /** Stripping enclosing groups leaves one atom exactly when peeling every outer pair does. */
  lemma {:induction false} StripMatchesPeel(ts: seq<Token>)
    ensures (|StripEnclosing(ts)| == 1 && IsAtom(StripEnclosing(ts)[0]))
            <==> (|Peel(ts)| == 1 && IsAtom(Peel(ts)[0]))
    ensures |Peel(ts)| == 1 && IsAtom(Peel(ts)[0]) ==> StripEnclosing(ts) == Peel(ts)
    decreases |ts|
  {
    if Enclosed(ts) {
      StripMatchesPeel(ts[1..|ts| - 1]);
    } else if |ts| >= 2 && ts[0].ParenthesisOpen? && ts[|ts| - 1].ParenthesisClose? {
      var inner := ts[1..|ts| - 1];
      if |Peel(inner)| == 1 && IsAtom(Peel(inner)[0]) {
        var k := PeelToAtomShape(inner);
        assert Peel(inner) == [Peel(inner)[0]];
        WrappedAtomInteriorNeverNegative(k, Peel(inner)[0]);
        assert false;
      }
    }
  }

  lemma ClassifyOk(ts: seq<Token>)
    ensures Classify(ts).Ok? <==> |ts| == 1 && IsAtom(ts[0])
    ensures Classify(ts).Ok? ==> Classify(ts).value == AtomElement(ts[0])
  {
    if |ts| >= 2 {
      match ScanError(ts, 0)
      case Some(_) =>
      case None =>
    }
  }

  /**
   * As written, a token list parses exactly when it is one number or
   * placeholder inside zero or more pairs of parentheses, and then it parses
   * to that number or placeholder, never to an operator triplet.
   */
  lemma ParseTokensSucceedsOnlyOnWrappedAtoms(ts: seq<Token>)
    ensures Classify(StripEnclosing(ts)).Ok? <==> |Peel(ts)| == 1 && IsAtom(Peel(ts)[0])
    ensures Classify(StripEnclosing(ts)).Ok? ==> Classify(StripEnclosing(ts)).value == AtomElement(Peel(ts)[0])
    ensures Classify(StripEnclosing(ts)).Ok? ==> !Classify(StripEnclosing(ts)).value.OperatorTriplet?
  {
    StripMatchesPeel(ts);
    ClassifyOk(StripEnclosing(ts));
  }

  /**
   * The same for whole equations: only a number or a valid placeholder name,
   * in zero or more pairs of parentheses and any whitespace, parses.
   */
  lemma ParseSucceedsOnlyOnWrappedAtoms(s: string)
    ensures ParseSpec(s).Ok? <==>
      var ts := Significant(Tokenize(s)); |Peel(ts)| == 1 && IsAtom(Peel(ts)[0]) && IsValid(Peel(ts)[0])
    ensures ParseSpec(s).Ok? ==> !ParseSpec(s).value.OperatorTriplet?
  {
    var ts := Significant(Tokenize(s));
    ParseTokensSucceedsOnlyOnWrappedAtoms(ts);
    if |Peel(ts)| == 1 && IsAtom(Peel(ts)[0]) {
      var k := PeelToAtomShape(ts);
      assert Peel(ts) == [Peel(ts)[0]];
      WrappedAtomValidity(ts, k, Peel(ts)[0]);
    }
  }

  lemma WrappedAtomValidity(ts: seq<Token>, k: nat, a: Token)
    requires ts == Opens(k) + [a] + Closes(k)
    ensures Invalid(ts) == [] <==> IsValid(a)
  {
    if IsValid(a) {
      forall t | t in ts ensures IsValid(t) {
        if t in Opens(k) { } else if t in Closes(k) { } else { assert t == a; }
      }
      AllValidMeansNoneInvalid(ts);
    } else {
      assert ts[k] == a;
      assert a in Invalid(ts);
    }
  }

  /** A CR LF pair that became an operator token makes the whole equation invalid. */
  lemma CrLfTokenIsRefused(s: string)
    ensures Operator("\r\n") in Tokenize(s) ==> ParseSpec(s).Err? && ParseSpec(s).error.InvalidToken?
  {
    if Operator("\r\n") in Tokenize(s) {
      var tokens := Significant(Tokenize(s));
      assert Operator("\r\n") in tokens;
      NoOperatorStartsWithCr("\r\n");
      assert Operator("\r\n") in Invalid(tokens);
    }
  }

  /** Characters that always leave a token other than a placeholder open: blanks and parentheses. */
  predicate EndsPlaceholder(ch: Character)
  {
    ch == Scalar(' ') || ch == Scalar('\t') || ch == Scalar('(') || ch == Scalar(')')
  }

  /** After a blank or a parenthesis the open token is not a placeholder. */
  lemma OpenTokenAfterSeparator(cs: seq<Character>, n: nat)
    requires 0 < n <= |cs| && EndsPlaceholder(cs[n - 1])
    ensures Scan(cs, n).cur.Some? && !Scan(cs, n).cur.value.Placeholder?
  {
    var st, ch := Scan(cs, n - 1), cs[n - 1];
    if st.cur.Some? {
      MatchCharacterMeaning(st.cur.value, ch);
      if st.cur.value.Placeholder? {
        var extended := st.cur.value.s + Text(ch);
        assert extended[|extended| - 1] == ch.c;
        PlaceholderPrefixRejectsSeparators(extended);
      }
    }
  }

  /** A token that absorbs the next character of the loop is never lost: it stays among the emitted and open tokens. */
  lemma FeedKeepsInertToken(st: ScanState, ch: Character, t: Token)
    requires t in Flush(st) && MatchCharacter(t, ch).None?
    ensures t in Flush(Feed(st, ch))
  {
    if t in st.done {
      assert t in Feed(st, ch).done;
    }
  }

  lemma {:induction false} ScanKeepsCrLfOperator(cs: seq<Character>, k: nat, m: nat)
    requires k <= m <= |cs|
    requires Operator("\r\n") in Flush(Scan(cs, k))
    ensures Operator("\r\n") in Flush(Scan(cs, m))
    decreases m - k
  {
    if k < m {
      ScanKeepsCrLfOperator(cs, k, m - 1);
      CrLfOperatorAbsorbsNothing(cs[m - 1]);
      FeedKeepsInertToken(Scan(cs, m - 1), cs[m - 1], Operator("\r\n"));
    }
  }

  /** A CR LF pair that no placeholder prefix is open to take becomes an operator token of its own. */
  lemma CrLfBecomesOperator(s: string, k: nat)
    requires k < |Characters(s)| && Characters(s)[k] == CrLf
    requires k > 0 ==> Scan(Characters(s), k).cur.Some? && !Scan(Characters(s), k).cur.value.Placeholder?
    ensures Operator("\r\n") in Tokenize(s)
  {
    var cs := Characters(s);
    if k > 0 {
      MatchCharacterMeaning(Scan(cs, k).cur.value, CrLf);
    }
    assert Scan(cs, k + 1).cur == Some(Operator("\r\n"));
    ScanKeepsCrLfOperator(cs, k + 1, |cs|);
  }

  /**
   * A CR LF pair at the start of an equation, or after a blank or a
   * parenthesis, is an operator token of its own, so the equation is refused
   * as invalid.
   */
  lemma CrLfAfterSeparatorIsRefused(s: string, k: nat)
    requires k < |Characters(s)| && Characters(s)[k] == CrLf
    requires k == 0 || EndsPlaceholder(Characters(s)[k - 1])
    ensures Operator("\r\n") in Tokenize(s)
    ensures ParseSpec(s).Err? && ParseSpec(s).error.InvalidToken?
  {
    if k > 0 {
      OpenTokenAfterSeparator(Characters(s), k);
    }
    CrLfBecomesOperator(s, k);
    CrLfTokenIsRefused(s);
  }

  lemma CharactersOfScalar(c: char, s: string)
    requires c != '\r'
    ensures Characters([c] + s) == [Scalar(c)] + Characters(s)
  {
    assert ([c] + s)[1..] == s;
  }

  lemma CharactersOfCrLf(s: string)
    ensures Characters("\r\n" + s) == [CrLf] + Characters(s)
  {
    assert ("\r\n" + s)[2..] == s;
  }

  lemma CharactersOfCrLfTwo()
    ensures Characters("\r\n2") == [CrLf, Scalar('2')]
  {
    assert ['2'] + "" == "2";
    CharactersOfScalar('2', "");
    assert Characters("") == [];
    CharactersOfCrLf("2");
  }

  lemma CharactersOfOneCrLfTwo()
    ensures Characters("1\r\n2") == [Scalar('1'), CrLf, Scalar('2')]
  {
    CharactersOfCrLfTwo();
    assert ['1'] + "\r\n2" == "1\r\n2";
    CharactersOfScalar('1', "\r\n2");
  }

  /** The CR LF pair after the number `1` is one character, unlike a lone CR or LF, and the equation is refused. */
  lemma CrLfInNumberIsRefused()
    ensures ParseSpec("1\r\n2").Err? && ParseSpec("1\r\n2").error.InvalidToken?
  {
    CharactersOfOneCrLfTwo();
    var cs := Characters("1\r\n2");
    assert Scan(cs, 1).cur == Some(Number("1"));
    CrLfBecomesOperator("1\r\n2", 1);
    CrLfTokenIsRefused("1\r\n2");
  }

  /** A binary equation is refused at its operator, even when both sides are parenthesized. */
  lemma BinaryEquationsAreRefused()
    ensures Classify(StripEnclosing([Placeholder("ROI1"), Operator("+"), Placeholder("ROI2")]))
            == Err(InvalidToken("+"))
    ensures Classify(StripEnclosing([ParenthesisOpen, Placeholder("ROI1"), ParenthesisClose, Operator("*"),
                                     ParenthesisOpen, Number("2"), ParenthesisClose]))
            == Err(InvalidToken("*"))
  {
    var ts := [ParenthesisOpen, Placeholder("ROI1"), ParenthesisClose, Operator("*"),
               ParenthesisOpen, Number("2"), ParenthesisClose];
    assert ts[1..|ts| - 1] == [Placeholder("ROI1"), ParenthesisClose, Operator("*"), ParenthesisOpen, Number("2")];
    assert !NestingNeverNegative(ts[1..|ts| - 1], 0);
  }

  /** As written, any two atoms joined by an operator are refused at the operator. */
  lemma AsWrittenRefusesBinary(a: Token, o: Token, b: Token)
    requires IsAtom(a) && IsAtom(b) && o.Operator?
    ensures Classify(StripEnclosing([a, o, b])) == Err(InvalidToken(o.s))
  {
    var ts := [a, o, b];
    assert !Enclosed(ts);
    assert ts[1..] == [o, b];
    assert ScanError([o, b], 0) == Some(InvalidToken(o.s));
    assert ScanError(ts, 0) == ScanError([o, b], 0);
  }

  // ---------------------------------------------------------------------------
  // The parser as evidently intended: the throw of line 255 belongs to the
  // `else` of the `if let`, so a top-level operator is remembered when its
  // precedence is lower than any before it, and the list is split there.

  /** The operator chosen to split at: its index and its meaning. */
  datatype SplitPoint = SplitPoint(index: nat, op: E.Operator)

  /** The nesting depth in front of index `j`: opened minus closed parentheses before it. */
  function Depth(ts: seq<Token>, j: nat): int
    requires j <= |ts|
  {
    if j == 0 then 0
    else Depth(ts, j - 1) + (if ts[j - 1].ParenthesisOpen? then 1 else if ts[j - 1].ParenthesisClose? then -1 else 0)
  }

  /** The depth after a token is the depth before it, changed by a parenthesis. */
  lemma DepthStep(ts: seq<Token>, i: nat)
    requires i < |ts|
    ensures Depth(ts, i + 1) == Depth(ts, i) + (if ts[i].ParenthesisOpen? then 1 else if ts[i].ParenthesisClose? then -1 else 0)
  {
  }

  /** Whether index `j` holds a known operator outside every parenthesis. */
  predicate TopLevelOperator(ts: seq<Token>, j: int)
  {
    0 <= j < |ts| && Depth(ts, j) == 0 && ts[j].Operator? && E.FromString(ts[j].s).Some?
  }

  /** The operator at a top-level index. */
  function OperatorAt(ts: seq<Token>, j: int): E.Operator
    requires TopLevelOperator(ts, j)
  {
    E.FromString(ts[j].s).value
  }

  /**
   * Whether `best` is the split point among the first `n` tokens: the first
   * top-level operator of lowest precedence, or None when there is no
   * top-level operator.
   */
  predicate LowestSoFar(ts: seq<Token>, n: nat, best: Option<SplitPoint>)
    requires n <= |ts|
  {
    match best
    case None => forall j :: 0 <= j < n ==> !TopLevelOperator(ts, j)
    case Some(sp) =>
      && sp.index < n && TopLevelOperator(ts, sp.index) && OperatorAt(ts, sp.index) == sp.op
      && (forall j :: 0 <= j < n && TopLevelOperator(ts, j) ==>
            E.Precedence(OperatorAt(ts, j)) >= E.Precedence(sp.op)
            && (j < sp.index ==> E.Precedence(OperatorAt(ts, j)) > E.Precedence(sp.op)))
  }

  /** A token that is no top-level operator leaves the split point as it is. */
  lemma LowestSoFarSkip(ts: seq<Token>, i: nat, best: Option<SplitPoint>)
    requires i < |ts| && !TopLevelOperator(ts, i)
    ensures LowestSoFar(ts, i, best) ==> LowestSoFar(ts, i + 1, best)
  {
    if LowestSoFar(ts, i, best) {
      match best
      case None =>
        forall j | 0 <= j < i + 1
          ensures !TopLevelOperator(ts, j)
        {
          if j < i {
            assert !TopLevelOperator(ts, j);
          }
        }
      case Some(sp) =>
        assert sp.index < i + 1 && TopLevelOperator(ts, sp.index) && OperatorAt(ts, sp.index) == sp.op;
        forall j | 0 <= j < i + 1 && TopLevelOperator(ts, j)
          ensures E.Precedence(OperatorAt(ts, j)) >= E.Precedence(sp.op)
                  && (j < sp.index ==> E.Precedence(OperatorAt(ts, j)) > E.Precedence(sp.op))
        {
          assert j != i;
        }
    }
  }

  /** A top-level operator of lower precedence than every one before it becomes the split point. */
  lemma LowestSoFarTake(ts: seq<Token>, i: nat, best: Option<SplitPoint>, op: E.Operator)
    requires i < |ts| && TopLevelOperator(ts, i) && OperatorAt(ts, i) == op
    requires best.None? || E.Precedence(op) < E.Precedence(best.value.op)
    ensures LowestSoFar(ts, i, best) ==> LowestSoFar(ts, i + 1, Some(SplitPoint(i, op)))
  {
    if LowestSoFar(ts, i, best) {
      forall j | 0 <= j < i && TopLevelOperator(ts, j)
        ensures E.Precedence(OperatorAt(ts, j)) > E.Precedence(op)
      {
        assert best.Some?;
        assert E.Precedence(OperatorAt(ts, j)) >= E.Precedence(best.value.op);
      }
      FirstLowestSoFar(ts, i, op);
    }
  }

  /** An operator below every top-level operator before it is the split point of the prefix that ends with it. */
  lemma FirstLowestSoFar(ts: seq<Token>, i: nat, op: E.Operator)
    requires i < |ts| && TopLevelOperator(ts, i) && OperatorAt(ts, i) == op
    requires forall j :: 0 <= j < i && TopLevelOperator(ts, j) ==> E.Precedence(OperatorAt(ts, j)) > E.Precedence(op)
    ensures LowestSoFar(ts, i + 1, Some(SplitPoint(i, op)))
  {
    forall j | 0 <= j < i + 1 && TopLevelOperator(ts, j)
      ensures E.Precedence(OperatorAt(ts, j)) >= E.Precedence(op)
              && (j < i ==> E.Precedence(OperatorAt(ts, j)) > E.Precedence(op))
    {
      if j == i {
        assert OperatorAt(ts, j) == op;
      } else {
        assert j < i;
      }
    }
  }

  /** A top-level operator of no lower precedence than the split point leaves it as it is. */
  lemma LowestSoFarKeep(ts: seq<Token>, i: nat, best: Option<SplitPoint>, op: E.Operator)
    requires i < |ts| && TopLevelOperator(ts, i) && OperatorAt(ts, i) == op
    requires best.Some? && E.Precedence(op) >= E.Precedence(best.value.op)
    ensures LowestSoFar(ts, i, best) ==> LowestSoFar(ts, i + 1, best)
  {
    if LowestSoFar(ts, i, best) {
      var sp := best.value;
      forall j | 0 <= j < i + 1 && TopLevelOperator(ts, j)
        ensures E.Precedence(OperatorAt(ts, j)) >= E.Precedence(sp.op)
                && (j < sp.index ==> E.Precedence(OperatorAt(ts, j)) > E.Precedence(sp.op))
      {
        if j == i {
          assert OperatorAt(ts, j) == op && sp.index < j;
        }
      }
    }
  }

  /**
   * The intended scan from index `i` at nesting depth `depth`, `best` being
   * the split point so far: the first top-level operator of lowest
   * precedence, or an error for an unmatched `)` or an unknown operator.
   */
  function LowestOperator(ts: seq<Token>, i: nat, depth: int, best: Option<SplitPoint>): (r: Result<Option<SplitPoint>, EquationError>)
    requires i <= |ts|
    requires best.Some? ==> best.value.index < i
    ensures r.Ok? && r.value.Some? ==> r.value.value.index < |ts|
    decreases |ts| - i
  {
    if i == |ts| then Ok(best)
    else match ts[i]
      case ParenthesisOpen =>
        LowestOperator(ts, i + 1, depth + 1, best)
      case ParenthesisClose =>
        if depth - 1 < 0 then Err(UnexpectedToken(")"))
        else LowestOperator(ts, i + 1, depth - 1, best)
      case Operator(s) =>
        if depth != 0 then LowestOperator(ts, i + 1, depth, best)
        else (match E.FromString(s)
              case Some(op) =>
                if best.None? || E.Precedence(op) < E.Precedence(best.value.op) then
                  LowestOperator(ts, i + 1, depth, Some(SplitPoint(i, op)))
                else
                  LowestOperator(ts, i + 1, depth, best)
              case None => Err(InvalidToken(s)))
      case _ =>
        LowestOperator(ts, i + 1, depth, best)
  }

  /**
   * The scan keeps its split point the lowest so far, so started at the
   * first token it returns the first top-level operator of lowest precedence.
   */
  lemma {:induction false} LowestOperatorFindsLowest(ts: seq<Token>, i: nat, depth: int, best: Option<SplitPoint>)
    requires i <= |ts| && depth == Depth(ts, i)
    requires best.Some? ==> best.value.index < i
    ensures LowestSoFar(ts, i, best) && LowestOperator(ts, i, depth, best).Ok? ==>
      LowestSoFar(ts, |ts|, LowestOperator(ts, i, depth, best).value)
    decreases |ts| - i, 2
  {
    if i < |ts| {
      var r := LowestOperator(ts, i, depth, best);
      var t := ts[i];
      if t.ParenthesisOpen? {
        assert r == LowestOperator(ts, i + 1, depth + 1, best);
        ScanSkips(ts, i, depth, depth + 1, best);
      } else if t.ParenthesisClose? {
        if depth - 1 >= 0 {
          assert r == LowestOperator(ts, i + 1, depth - 1, best);
          ScanSkips(ts, i, depth, depth - 1, best);
        }
      } else if t.Operator? && depth == 0 && E.FromString(t.s).Some? {
        var op := E.FromString(t.s).value;
        if best.None? || E.Precedence(op) < E.Precedence(best.value.op) {
          assert r == LowestOperator(ts, i + 1, depth, Some(SplitPoint(i, op)));
          ScanTakes(ts, i, best, op);
        } else {
          assert r == LowestOperator(ts, i + 1, depth, best);
          ScanKeeps(ts, i, best, op);
        }
      } else if !t.Operator? || depth != 0 {
        assert r == LowestOperator(ts, i + 1, depth, best);
        ScanSkips(ts, i, depth, depth, best);
      }
    }
  }

  /** A token that is no top-level operator: the scan goes on with the same split point. */
  lemma ScanSkips(ts: seq<Token>, i: nat, depth: int, next: int, best: Option<SplitPoint>)
    requires i < |ts| && depth == Depth(ts, i)
    requires best.Some? ==> best.value.index < i
    requires next == depth + (if ts[i].ParenthesisOpen? then 1 else if ts[i].ParenthesisClose? then -1 else 0)
    requires ts[i].Operator? ==> depth != 0
    ensures var r := LowestOperator(ts, i + 1, next, best);
      LowestSoFar(ts, i, best) && r.Ok? ==> LowestSoFar(ts, |ts|, r.value)
    decreases |ts| - i, 1
  {
    DepthStep(ts, i);
    assert next == Depth(ts, i + 1);
    assert !TopLevelOperator(ts, i);
    LowestSoFarSkip(ts, i, best);
    ScanContinues(ts, i, next, best, best);
  }

  /** A top-level operator below the split point so far: the scan goes on with it as the split point. */
  lemma ScanTakes(ts: seq<Token>, i: nat, best: Option<SplitPoint>, op: E.Operator)
    requires i < |ts| && Depth(ts, i) == 0
    requires ts[i].Operator? && E.FromString(ts[i].s) == Some(op)
    requires best.None? || E.Precedence(op) < E.Precedence(best.value.op)
    ensures var r := LowestOperator(ts, i + 1, 0, Some(SplitPoint(i, op)));
      LowestSoFar(ts, i, best) && r.Ok? ==> LowestSoFar(ts, |ts|, r.value)
    decreases |ts| - i, 1
  {
    DepthStep(ts, i);
    assert Depth(ts, i + 1) == 0;
    assert TopLevelOperator(ts, i) && OperatorAt(ts, i) == op;
    LowestSoFarTake(ts, i, best, op);
    ScanContinues(ts, i, 0, best, Some(SplitPoint(i, op)));
  }

  /** A top-level operator not below the split point so far: the scan goes on with the same split point. */
  lemma ScanKeeps(ts: seq<Token>, i: nat, best: Option<SplitPoint>, op: E.Operator)
    requires i < |ts| && Depth(ts, i) == 0
    requires ts[i].Operator? && E.FromString(ts[i].s) == Some(op)
    requires best.Some? && best.value.index < i && E.Precedence(op) >= E.Precedence(best.value.op)
    ensures var r := LowestOperator(ts, i + 1, 0, best);
      LowestSoFar(ts, i, best) && r.Ok? ==> LowestSoFar(ts, |ts|, r.value)
    decreases |ts| - i, 1
  {
    DepthStep(ts, i);
    assert Depth(ts, i + 1) == 0;
    assert TopLevelOperator(ts, i) && OperatorAt(ts, i) == op;
    LowestSoFarKeep(ts, i, best, op);
    ScanContinues(ts, i, 0, best, best);
  }

  /** The split point after token `i` is the lowest so far whenever the one before it was: so is the scan's result. */
  lemma ScanContinues(ts: seq<Token>, i: nat, next: int, best: Option<SplitPoint>, after: Option<SplitPoint>)
    requires i < |ts| && next == Depth(ts, i + 1)
    requires after.Some? ==> after.value.index < i + 1
    requires LowestSoFar(ts, i, best) ==> LowestSoFar(ts, i + 1, after)
    ensures var r := LowestOperator(ts, i + 1, next, after);
      LowestSoFar(ts, i, best) && r.Ok? ==> LowestSoFar(ts, |ts|, r.value)
    decreases |ts| - i, 0
  {
    LowestOperatorFindsLowest(ts, i + 1, next, after);
  }

  /** `equationParseTokens` with the throw in the `else` branch. */
  function IntendedParseTokens(ts: seq<Token>): (r: Result<E.Element, EquationError>)
    decreases |ts|
  {
    if ts == [] then Err(MissingToken)
    else if |ts| == 1 then Classify(ts)
    else if Enclosed(ts) then IntendedParseTokens(ts[1..|ts| - 1])
    else match LowestOperator(ts, 0, 0, None)
      case Err(e) => Err(e)
      case Ok(None) => Err(NoOperator(Spelling(ts)))
      case Ok(Some(sp)) =>
        match IntendedParseTokens(ts[..sp.index])
        case Err(e) => Err(e)
        case Ok(left) =>
          match IntendedParseTokens(ts[sp.index + 1..])
          case Err(e) => Err(e)
          case Ok(right) => Ok(E.OperatorTriplet(left, sp.op, right))
  }

  /** The intended scan over atom, operator, atom splits at the operator. */
  lemma SplitsAtMiddle(a: Token, o: Token, b: Token, op: E.Operator)
    requires (a.Number? || a.Placeholder?) && (b.Number? || b.Placeholder?) && o.Operator? && E.FromString(o.s) == Some(op)
    ensures LowestOperator([a, o, b], 0, 0, None) == Ok(Some(SplitPoint(1, op)))
  {
    var ts := [a, o, b];
    var sp := SplitPoint(1, op);
    assert Depth(ts, 1) == 0;
    assert Depth(ts, 2) == 0;
    assert Depth(ts, 3) == 0;
    assert !TopLevelOperator(ts, 0) && TopLevelOperator(ts, 1) && OperatorAt(ts, 1) == op;
    assert !TopLevelOperator(ts, 2);
    assert LowestOperator(ts, 3, 0, Some(sp)) == Ok(Some(sp));
    var third := LowestOperator(ts, 2, 0, Some(sp));
    assert third == Ok(Some(sp));
    var second := LowestOperator(ts, 1, 0, None);
    assert second == third;
  }

  /** Two atoms joined by a known operator parse to the triplet of the two. */
  lemma IntendedParsesBinary(a: Token, o: Token, b: Token, op: E.Operator)
    requires IsAtom(a) && IsAtom(b) && o.Operator? && E.FromString(o.s) == Some(op)
    ensures IntendedParseTokens([a, o, b]) == Ok(E.OperatorTriplet(AtomElement(a), op, AtomElement(b)))
  {
    var ts := [a, o, b];
    assert !Enclosed(ts);
    SplitsAtMiddle(a, o, b, op);
    assert ts[..1] == [a] && ts[2..] == [b];
    ClassifyOk([a]);
    ClassifyOk([b]);
  }

  /** The tokens of `ROI1 + ROI2 * 2`. */
  const SumOfProduct: seq<Token> := [Placeholder("ROI1"), Operator("+"), Placeholder("ROI2"), Operator("*"), Number("2")]

  /** The intended scan over `ROI1 + ROI2 * 2` picks the `+`. */
  lemma SumOfProductSplitsAtPlus()
    ensures LowestOperator(SumOfProduct, 0, 0, None) == Ok(Some(SplitPoint(1, E.ArithmeticAdd)))
  {
    var ts := SumOfProduct;
    var add := SplitPoint(1, E.ArithmeticAdd);
    assert Depth(ts, 1) == 0;
    assert Depth(ts, 2) == 0;
    assert Depth(ts, 3) == 0;
    assert Depth(ts, 4) == 0;
    assert Depth(ts, 5) == 0;
    assert E.FromString("+") == Some(E.ArithmeticAdd);
    assert E.FromString("*") == Some(E.ArithmeticMultiply);
    assert TopLevelOperator(ts, 1) && OperatorAt(ts, 1) == E.ArithmeticAdd;
    assert TopLevelOperator(ts, 3) && OperatorAt(ts, 3) == E.ArithmeticMultiply;
    assert LowestOperator(ts, 5, 0, Some(add)) == Ok(Some(add));
    assert LowestOperator(ts, 4, 0, Some(add)) == Ok(Some(add));
    assert LowestOperator(ts, 3, 0, Some(add)) == Ok(Some(add));
    assert LowestOperator(ts, 2, 0, Some(add)) == Ok(Some(add));
    assert LowestOperator(ts, 1, 0, None) == Ok(Some(add));
  }

  /** Illustration: multiplication binds tighter than addition, so `ROI1 + ROI2 * 2` splits at the `+`. */
  lemma IntendedRespectsPrecedence()
    ensures IntendedParseTokens(SumOfProduct)
            == Ok(E.OperatorTriplet(E.Placeholder("ROI1"), E.ArithmeticAdd,
                    E.OperatorTriplet(E.Placeholder("ROI2"), E.ArithmeticMultiply, E.Numeric(Finite(2.0)))))
  {
    var ts := SumOfProduct;
    assert !Enclosed(ts);
    SumOfProductSplitsAtPlus();
    var left := ts[..1];
    assert left == [Placeholder("ROI1")];
    assert IntendedParseTokens(left) == Ok(E.Placeholder("ROI1"));
    var right := ts[2..];
    assert right == [Placeholder("ROI2"), Operator("*"), Number("2")];
    var product := E.OperatorTriplet(E.Placeholder("ROI2"), E.ArithmeticMultiply, E.Numeric(Finite(2.0)));
    assert IntendedParseTokens(right) == Ok(product) by {
      ParseTwo();
      IntendedParsesBinary(Placeholder("ROI2"), Operator("*"), Number("2"), E.ArithmeticMultiply);
    }
  }

  /** Wherever the parser as written succeeds, the intended one gives the same element. */
  lemma {:induction false} IntendedAgreesWhereAsWrittenSucceeds(ts: seq<Token>)
    requires Classify(StripEnclosing(ts)).Ok?
    ensures IntendedParseTokens(ts) == Classify(StripEnclosing(ts))
    decreases |ts|
  {
    if Enclosed(ts) {
      IntendedAgreesWhereAsWrittenSucceeds(ts[1..|ts| - 1]);
    } else {
      ClassifyOk(ts);
    }
  }

  /** Every placeholder in an intended parse is one of the list's placeholder tokens. */
  lemma {:induction false} IntendedNamesComeFromTokens(ts: seq<Token>)
    ensures IntendedParseTokens(ts).Ok? ==>
      forall n :: n in E.Names(IntendedParseTokens(ts).value) ==> Placeholder(n) in ts
    decreases |ts|
  {
    var r := IntendedParseTokens(ts);
    if ts == [] || !r.Ok? {
    } else if |ts| == 1 {
      ClassifyOk(ts);
    } else if Enclosed(ts) {
      var inner := ts[1..|ts| - 1];
      IntendedNamesComeFromTokens(inner);
      forall n | n in E.Names(r.value)
        ensures Placeholder(n) in ts
      {
        var j :| 0 <= j < |inner| && inner[j] == Placeholder(n);
        assert ts[j + 1] == Placeholder(n);
      }
    } else {
      var sp := LowestOperator(ts, 0, 0, None).value.value;
      var left, right := ts[..sp.index], ts[sp.index + 1..];
      IntendedNamesComeFromTokens(left);
      IntendedNamesComeFromTokens(right);
      forall n | n in E.Names(r.value)
        ensures Placeholder(n) in ts
      {
        if Placeholder(n) in left {
          var j :| 0 <= j < |left| && left[j] == Placeholder(n);
          assert ts[j] == Placeholder(n);
        } else {
          var j :| 0 <= j < |right| && right[j] == Placeholder(n);
          assert ts[sp.index + 1 + j] == Placeholder(n);
        }
      }
    }
  }
}
