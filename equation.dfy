/**
 * The equation language of VideoCapture/Equation.swift: the operator table
 * (aliases, canonical spelling, precedence, associativity, evaluation) and the
 * element tree that an equation parses into and that is evaluated against a
 * map from placeholder names (regions of interest) to values.
 */
module Equation {
  import opened Wrappers
  import opened Doubles

  datatype Operator =
    | BooleanAnd
    | BooleanOr
    | CompareEqual
    | CompareGreaterThan
    | CompareGreaterThanOrEqual
    | CompareLessThan
    | CompareLessThanOrEqual
    | ArithmeticMultiply
    | ArithmeticDivide
    | ArithmeticAdd
    | ArithmeticSubtract

  predicate IsBoolean(op: Operator)
  {
    op.BooleanAnd? || op.BooleanOr?
  }

  predicate IsComparison(op: Operator)
  {
    op.CompareEqual? || op.CompareGreaterThan? || op.CompareGreaterThanOrEqual?
    || op.CompareLessThan? || op.CompareLessThanOrEqual?
  }

  predicate IsAdditive(op: Operator)
  {
    op.ArithmeticAdd? || op.ArithmeticSubtract?
  }

  predicate IsMultiplicative(op: Operator)
  {
    op.ArithmeticMultiply? || op.ArithmeticDivide?
  }

  /** The characters any operator spelling is made of. */
  const OperatorSymbols: string := "&|=<>\U{2265}\U{2264}*\U{00D7}/\U{00F7}+-"

  /**
   * `init?(fromString:)`.  The source lower-cases its argument first; no
   * spelling below contains a cased letter, so lower-casing cannot turn any
   * other string into one of them and is left out.
   */
  function FromString(s: string): (r: Option<Operator>)
    ensures r.Some? ==> 1 <= |s| <= 2
    ensures r.Some? ==> forall i :: 0 <= i < |s| ==> s[i] in OperatorSymbols
  {
    if |s| == 1 then FromSymbol(s[0])
    else if |s| == 2 then FromSymbolPair(s[0], s[1])
    else None
  }

  /** The spellings of one character. */
  function FromSymbol(c: char): (r: Option<Operator>)
    ensures r.Some? ==> c in OperatorSymbols
  {
    match c
    case '=' => Some(CompareEqual)
    case '>' => Some(CompareGreaterThan)
    case '<' => Some(CompareLessThan)
    case '\U{2265}' => Some(CompareGreaterThanOrEqual)
    case '\U{2264}' => Some(CompareLessThanOrEqual)
    case '*' => Some(ArithmeticMultiply)
    case '\U{00D7}' => Some(ArithmeticMultiply)
    case '/' => Some(ArithmeticDivide)
    case '\U{00F7}' => Some(ArithmeticDivide)
    case '+' => Some(ArithmeticAdd)
    case '-' => Some(ArithmeticSubtract)
    case _ => None
  }

  /** The spellings of two characters. */
  function FromSymbolPair(a: char, b: char): (r: Option<Operator>)
    ensures r.Some? ==> a in OperatorSymbols && b in OperatorSymbols
  {
    if a == '&' && b == '&' then Some(BooleanAnd)
    else if a == '|' && b == '|' then Some(BooleanOr)
    else if a == '=' && b == '=' then Some(CompareEqual)
    else if (a == '>' && b == '=') || (a == '=' && b == '>') then Some(CompareGreaterThanOrEqual)
    else if (a == '<' && b == '=') || (a == '=' && b == '<') then Some(CompareLessThanOrEqual)
    else None
  }

  /** The canonical spelling (`description`). */
  function Description(op: Operator): string
  {
    match op
    case BooleanAnd => "&&"
    case BooleanOr => "||"
    case CompareEqual => "="
    case CompareGreaterThan => ">"
    case CompareGreaterThanOrEqual => "\U{2265}"
    case CompareLessThan => "<"
    case CompareLessThanOrEqual => "\U{2264}"
    case ArithmeticMultiply => "\U{00D7}"
    case ArithmeticDivide => "\U{00F7}"
    case ArithmeticAdd => "+"
    case ArithmeticSubtract => "-"
  }

  /** Every spelling `FromString` accepts, by operator. */
  function Aliases(op: Operator): set<string>
  {
    match op
    case BooleanAnd => {"&&"}
    case BooleanOr => {"||"}
    case CompareEqual => {"==", "="}
    case CompareGreaterThan => {">"}
    case CompareGreaterThanOrEqual => {">=", "=>", "\U{2265}"}
    case CompareLessThan => {"<"}
    case CompareLessThanOrEqual => {"<=", "=<", "\U{2264}"}
    case ArithmeticMultiply => {"*", "\U{00D7}"}
    case ArithmeticDivide => {"/", "\U{00F7}"}
    case ArithmeticAdd => {"+"}
    case ArithmeticSubtract => {"-"}
  }

  /** `FromString` accepts exactly the aliases of each operator and rejects every other string. */
  lemma FromStringAcceptsExactlyAliases(s: string, op: Operator)
    ensures FromString(s) == Some(op) <==> s in Aliases(op)
  {
    if s in Aliases(op) {
      AliasesParse(s, op);
    }
    if FromString(s) == Some(op) {
      ParsedIsAlias(s);
    }
  }

  /** Each alias parses to its operator. */
  lemma AliasesParse(s: string, op: Operator)
    requires s in Aliases(op)
    ensures FromString(s) == Some(op)
  {
    match op
    case BooleanAnd =>
    case BooleanOr =>
    case CompareEqual =>
    case CompareGreaterThan =>
    case CompareGreaterThanOrEqual =>
    case CompareLessThan =>
    case CompareLessThanOrEqual =>
    case ArithmeticMultiply =>
    case ArithmeticDivide =>
    case ArithmeticAdd =>
    case ArithmeticSubtract =>
  }

  /** Whatever parses is an alias of the operator it parses to. */
  lemma ParsedIsAlias(s: string)
    requires FromString(s).Some?
    ensures s in Aliases(FromString(s).value)
  {
    if |s| == 1 {
      assert s == [s[0]];
    } else {
      assert s == [s[0], s[1]];
    }
  }

  /** The canonical spelling parses back to the same operator. */
  lemma DescriptionRoundTrip(op: Operator)
    ensures Description(op) in Aliases(op)
    ensures FromString(Description(op)) == Some(op)
  {
    FromStringAcceptsExactlyAliases(Description(op), op);
  }

  /** The higher the precedence, the later the grouping. */
  function Precedence(op: Operator): (p: int)
    ensures p == 10 <==> IsBoolean(op)
    ensures p == 20 <==> IsComparison(op)
    ensures p == 30 <==> IsAdditive(op)
    ensures p == 40 <==> IsMultiplicative(op)
  {
    match op
    case BooleanAnd | BooleanOr => 10
    case CompareEqual | CompareGreaterThan | CompareGreaterThanOrEqual | CompareLessThan | CompareLessThanOrEqual => 20
    case ArithmeticAdd | ArithmeticSubtract => 30
    case ArithmeticMultiply | ArithmeticDivide => 40
  }

  /** Boolean operators bind loosest, then comparisons, then additive, then multiplicative ones. */
  lemma PrecedenceOrder(a: Operator, b: Operator)
    ensures IsBoolean(a) && !IsBoolean(b) ==> Precedence(a) < Precedence(b)
    ensures IsComparison(a) && (IsAdditive(b) || IsMultiplicative(b)) ==> Precedence(a) < Precedence(b)
    ensures IsAdditive(a) && IsMultiplicative(b) ==> Precedence(a) < Precedence(b)
  {
  }

  function LeftAssociative(op: Operator): (r: bool)
    ensures r <==> IsAdditive(op) || IsMultiplicative(op)
    ensures r <==> Precedence(op) >= 30
  {
    match op
    case ArithmeticAdd | ArithmeticSubtract | ArithmeticMultiply | ArithmeticDivide => true
    case _ => false
  }

  /** The plain arithmetic an arithmetic operator stands for. */
  function RealArithmetic(op: Operator, a: real, b: real): real
    requires IsAdditive(op) || IsMultiplicative(op)
    requires op.ArithmeticDivide? ==> b != 0.0
  {
    match op
    case ArithmeticAdd => a + b
    case ArithmeticSubtract => a - b
    case ArithmeticMultiply => a * b
    case ArithmeticDivide => a / b
  }

  /** `evaluate(left, right)`: truth is 1.0 and falsehood -1.0. */
  function Apply(op: Operator, left: Double, right: Double): (v: Double)
    ensures IsBoolean(op) || IsComparison(op) ==> v == One || v == MinusOne
    ensures op.BooleanAnd? ==> (v == One <==> Less(Zero, left) && Less(Zero, right))
    ensures op.BooleanOr? ==> (v == One <==> Less(Zero, left) || Less(Zero, right))
    ensures IsComparison(op) && (left.NaN? || right.NaN?) ==> v == MinusOne
    ensures op.ArithmeticDivide? && right == Zero ==> v == PosInf
    ensures (IsAdditive(op) || IsMultiplicative(op)) && left.Finite? && right.Finite?
            && !(op.ArithmeticDivide? && right == Zero)
            ==> v == Finite(RealArithmetic(op, left.x, right.x))
  {
    match op
    case ArithmeticAdd => Add(left, right)
    case ArithmeticDivide => if right != Zero then Divide(left, right) else PosInf
    case ArithmeticMultiply =>
      assert left.Finite? && right.Finite? ==> Multiply(left, right) == Finite(RealArithmetic(op, left.x, right.x));
      Multiply(left, right)
    case ArithmeticSubtract => Subtract(left, right)
    case BooleanAnd => if Less(Zero, left) && Less(Zero, right) then One else MinusOne
    case BooleanOr => if Less(Zero, left) || Less(Zero, right) then One else MinusOne
    case CompareEqual => if Equal(left, right) then One else MinusOne
    case CompareGreaterThan => if Less(right, left) then One else MinusOne
    case CompareGreaterThanOrEqual => if LessOrEqual(right, left) then One else MinusOne
    case CompareLessThan => if Less(left, right) then One else MinusOne
    case CompareLessThanOrEqual => if LessOrEqual(left, right) then One else MinusOne
  }

  /**
   * The element tree.  The source has a protocol with three classes whose
   * fields are all `let`; as immutable values they are one datatype.
   */
  datatype Element =
    | OperatorTriplet(lhe: Element, op: Operator, rhe: Element)
    | Numeric(val: Double)
    | Placeholder(name: string)

  /** A placeholder's value: the mapped value, or 0.0 when the name is absent. */
  function Lookup(placeholders: map<string, Double>, name: string): Double
  {
    if name in placeholders then placeholders[name] else Zero
  }

  /** `evaluate(placeholders)`: both children first, then the operator. */
  function Evaluate(e: Element, placeholders: map<string, Double>): Double
  {
    match e
    case OperatorTriplet(l, op, r) => Apply(op, Evaluate(l, placeholders), Evaluate(r, placeholders))
    case Numeric(v) => v
    case Placeholder(n) => Lookup(placeholders, n)
  }

  /** The placeholder names an element mentions. */
  function Names(e: Element): set<string>
  {
    match e
    case OperatorTriplet(l, _, r) => Names(l) + Names(r)
    case Numeric(_) => {}
    case Placeholder(n) => {n}
  }

  /** An element's value depends only on the placeholders it mentions. */
  lemma {:induction false} EvaluateReadsOnlyItsNames(e: Element, m1: map<string, Double>, m2: map<string, Double>)
    requires forall n :: n in Names(e) ==> Lookup(m1, n) == Lookup(m2, n)
    ensures Evaluate(e, m1) == Evaluate(e, m2)
  {
    match e
    case OperatorTriplet(l, _, r) =>
      EvaluateReadsOnlyItsNames(l, m1, m2);
      EvaluateReadsOnlyItsNames(r, m1, m2);
    case Numeric(_) =>
    case Placeholder(_) =>
  }

  /** Replaces every placeholder by the number it evaluates to under `placeholders`. */
  function Substitute(e: Element, placeholders: map<string, Double>): (r: Element)
    ensures Names(r) == {}
  {
    match e
    case OperatorTriplet(l, op, rh) => OperatorTriplet(Substitute(l, placeholders), op, Substitute(rh, placeholders))
    case Numeric(v) => Numeric(v)
    case Placeholder(n) => Numeric(Lookup(placeholders, n))
  }

  /**
   * Evaluation is substitution followed by evaluation with no placeholders at
   * all: a missing name behaves exactly like the number 0.
   */
  lemma {:induction false} EvaluateIsSubstitution(e: Element, placeholders: map<string, Double>)
    ensures Evaluate(e, placeholders) == Evaluate(Substitute(e, placeholders), map[])
  {
    match e
    case OperatorTriplet(l, _, r) =>
      EvaluateIsSubstitution(l, placeholders);
      EvaluateIsSubstitution(r, placeholders);
    case Numeric(_) =>
    case Placeholder(_) =>
  }

  /**
   * `description`.  A number prints as Swift's `String(value)`, which is
   * Foundation's number formatting and is passed in as `numberText`.
   */
  function Describe(e: Element, numberText: Double -> string): string
  {
    match e
    case OperatorTriplet(l, op, r) =>
      "(" + Describe(l, numberText) + " " + Description(op) + " " + Describe(r, numberText) + ")"
    case Numeric(v) => numberText(v)
    case Placeholder(n) => n
  }

  /**
   * The parenthesis depth after reading `s` from depth `depth`, or None when
   * a `)` would take it below zero.
   */
  function ParenDepth(s: string, depth: int): Option<int>
  {
    if s == [] then Some(depth)
    else if s[0] == '(' then ParenDepth(s[1..], depth + 1)
    else if s[0] == ')' then (if depth - 1 < 0 then None else ParenDepth(s[1..], depth - 1))
    else ParenDepth(s[1..], depth)
  }

  predicate Balanced(s: string)
  {
    ParenDepth(s, 0) == Some(0)
  }

  predicate NoParens(s: string)
  {
    forall i :: 0 <= i < |s| ==> s[i] != '(' && s[i] != ')'
  }

  lemma {:induction false} ParenDepthAppend(a: string, b: string, depth: int)
    ensures ParenDepth(a + b, depth) ==
      (match ParenDepth(a, depth) case None => None case Some(d) => ParenDepth(b, d))
  {
    if a != [] {
      assert (a + b)[0] == a[0] && (a + b)[1..] == a[1..] + b;
      ParenDepthAppend(a[1..], b, if a[0] == '(' then depth + 1 else if a[0] == ')' then depth - 1 else depth);
    } else {
      assert a + b == b;
    }
  }

  lemma {:induction false} ParenDepthNoParens(s: string, depth: int)
    requires NoParens(s)
    ensures ParenDepth(s, depth) == Some(depth)
  {
    if s != [] {
      ParenDepthNoParens(s[1..], depth);
    }
  }

  /** A balanced string can be read from any non-negative depth and returns to it. */
  lemma {:induction false} ParenDepthShift(s: string, depth: int, shift: nat)
    requires ParenDepth(s, depth) == Some(depth)
    requires depth >= 0
    ensures ParenDepth(s, depth + shift) == Some(depth + shift)
  {
    ParenDepthShiftGeneral(s, depth, depth, shift);
  }

  lemma {:induction false} ParenDepthShiftGeneral(s: string, depth: int, final: int, shift: nat)
    requires ParenDepth(s, depth) == Some(final)
    ensures ParenDepth(s, depth + shift) == Some(final + shift)
  {
    if s != [] {
      if s[0] == '(' {
        ParenDepthShiftGeneral(s[1..], depth + 1, final, shift);
      } else if s[0] == ')' {
        ParenDepthShiftGeneral(s[1..], depth - 1, final, shift);
      } else {
        ParenDepthShiftGeneral(s[1..], depth, final, shift);
      }
    }
  }

  /** A triplet's description, grouped as `WrappedIsBalanced` takes it. */
  lemma DescribeTriplet(l: Element, op: Operator, r: Element, numberText: Double -> string)
    ensures Describe(OperatorTriplet(l, op, r), numberText) ==
      "(" + (Describe(l, numberText) + ((" " + Description(op) + " ") + (Describe(r, numberText) + ")")))
  {
    Regroup("(", Describe(l, numberText), " ", Description(op), " ", Describe(r, numberText), ")");
  }

  /** Concatenation regrouped as `DescribeTriplet` states it. */
  lemma Regroup(a: string, b: string, c: string, d: string, e: string, f: string, g: string)
    ensures a + b + c + d + e + f + g == a + (b + ((c + d + e) + (f + g)))
  {
  }

  /** Parenthesising a balanced text, a parenthesis-free middle and a balanced text gives a balanced text. */
  lemma WrappedIsBalanced(dl: string, middle: string, dr: string)
    requires Balanced(dl) && Balanced(dr)
    requires ParenDepth(middle, 1) == Some(1)
    ensures Balanced("(" + (dl + (middle + (dr + ")"))))
  {
    ParenDepthShift(dl, 0, 1);
    ParenDepthShift(dr, 0, 1);
    ParenDepthAppend("(", dl + (middle + (dr + ")")), 0);
    ParenDepthAppend(dl, middle + (dr + ")"), 1);
    ParenDepthAppend(middle, dr + ")", 1);
    ParenDepthAppend(dr, ")", 1);
  }

  /**
   * Every description is fully parenthesised and balanced, provided the
   * numbers' and the placeholders' own texts hold no parenthesis.
   */
  lemma {:induction false} DescribeIsBalanced(e: Element, numberText: Double -> string)
    requires forall v :: NoParens(numberText(v))
    requires forall n :: n in Names(e) ==> NoParens(n)
    ensures Balanced(Describe(e, numberText))
  {
    match e
    case OperatorTriplet(l, op, r) =>
      DescribeIsBalanced(l, numberText);
      DescribeIsBalanced(r, numberText);
      var middle := " " + Description(op) + " ";
      ParenDepthNoParens(middle, 1);
      WrappedIsBalanced(Describe(l, numberText), middle, Describe(r, numberText));
      DescribeTriplet(l, op, r, numberText);
    case Numeric(v) =>
      ParenDepthNoParens(numberText(v), 0);
    case Placeholder(n) =>
      ParenDepthNoParens(n, 0);
  }
}
