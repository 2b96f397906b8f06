/** Expression trees, their meaning, how they are written, and the proof that evaluating the
    text gives the meaning of the tree. */
module ExpressionPrinting {
  import opened Prelude
  import opened Expression
  import opened ExpressionLoops

  datatype Word = True | False | NullWord | UndefinedWord

  datatype Expr =
    | Literal(word: Word)
    | Number(numeral: Numeral)
    | Quoted(quote: char, body: string)
    | Path(root: string, segs: seq<Seg>)
    | Not(x: Operand)
    | Equality(op: Operator, l: Operand, r: Operand)

  /** An optional sign, digits, and optionally a point with more digits. */
  datatype Numeral = Numeral(negative: bool, whole: string, fraction: Option<string>)

  datatype Seg = Dot(name: string) | Key(left: string, key: Expr, right: string)

  /** An operand, written in parentheses or without, with the white space between it and its
      operator and on either side inside the parentheses. */
  datatype Operand =
    | Wrapped(gap: string, left: string, e: Expr, right: string)
    | Bare(gap: string, e: Expr)

  // ---------- meaning ----------

  function Eval(js: Js, vals: Val, e: Expr): Val
    decreases e, 1
  {
    match e
    case Literal(True) => Bool(true)
    case Literal(False) => Bool(false)
    case Literal(NullWord) => Null
    case Literal(UndefinedWord) => Undefined
    case Number(numeral) => js.number(NumeralText(numeral))
    case Quoted(_, body) => Str(body)
    case Path(root, segs) => EvalSegs(js, vals, Property(js, vals, Str(root)), segs)
    case Not(x) => Bool(!js.truthy(Eval(js, vals, x.e)))
    case Equality(op, l, r) => Bool(Holds(js, op, Eval(js, vals, l.e), Eval(js, vals, r.e)))
  }

  /** Of nothing there are no properties. */
  function Property(js: Js, v: Val, key: Val): Val {
    if v == Undefined || v == Null then Undefined else js.get(v, key)
  }

  /** `==`, `!=`, `===` and `!==`. */
  predicate Holds(js: Js, op: Operator, l: Val, r: Val) {
    match op
    case Operator(false, false) => js.looseEq(l, r)
    case Operator(true, false) => !js.looseEq(l, r)
    case Operator(false, true) => js.strictEq(l, r)
    case Operator(true, true) => !js.strictEq(l, r)
  }

  function EvalSegs(js: Js, vals: Val, cur: Val, segs: seq<Seg>): Val
    decreases segs, 0
  {
    if segs == [] then cur else EvalSegs(js, vals, EvalSeg(js, vals, cur, segs[0]), segs[1..])
  }

  function EvalSeg(js: Js, vals: Val, cur: Val, seg: Seg): Val
    decreases seg, 2
  {
    match seg
    case Dot(name) => Property(js, cur, Str(name))
    case Key(_, key, _) => Property(js, cur, Eval(js, vals, key))
  }

  // ---------- writing ----------

  function WordText(w: Word): string {
    match w
    case True => "true"
    case False => "false"
    case NullWord => "null"
    case UndefinedWord => "undefined"
  }

  function NumeralText(n: Numeral): string {
    (if n.negative then "-" else "") + (n.whole + if n.fraction.Some? then "." + n.fraction.value else "")
  }

  function OperatorText(op: Operator): string {
    [if op.negated then '!' else '=', '='] + if op.strict then "=" else ""
  }

  function Print(e: Expr): string
    decreases e, 1
  {
    match e
    case Literal(w) => WordText(w)
    case Number(numeral) => NumeralText(numeral)
    case Quoted(quote, body) => [quote] + body + [quote]
    case Path(root, segs) => root + PrintSegs(segs)
    case Not(x) => "!" + (x.gap + OperandText(x))
    case Equality(op, l, r) => (OperandText(l) + l.gap) + (OperatorText(op) + (r.gap + OperandText(r)))
  }

  function Parens(left: string, s: string, right: string): string { ['('] + (left + s + right) + [')'] }

  function OperandText(x: Operand): string
    decreases x, 2
  {
    match x
    case Wrapped(_, left, e, right) => Parens(left, Print(e), right)
    case Bare(_, e) => Print(e)
  }

  function PrintSegs(segs: seq<Seg>): string
    decreases segs, 0
  {
    if segs == [] then []
    else PrintSeg(segs[0]) + PrintSegs(segs[1..])
  }

  function PrintSeg(seg: Seg): string
    decreases seg, 2
  {
    match seg
    case Dot(name) => ['.'] + name
    case Key(left, key, right) => ['['] + (left + Print(key) + right) + [']']
  }

  // ---------- what may be written ----------

  /** Tab, line feed, vertical tab, form feed, carriage return, and the spaces and line and
      paragraph separators of Unicode, by code point. */
  predicate Space(c: char) {
    var k := c as int;
    || 9 <= k <= 13 || k == 32 || k == 160 || k == 5760 || 8192 <= k <= 8202
    || k == 8232 || k == 8233 || k == 8239 || k == 8287 || k == 12288 || k == 65279
  }

  /** 0 to 9. */
  predicate Digit(c: char) { 48 <= c as int <= 57 }

  /** A to Z, a to z, underscore and dollar sign. */
  predicate Letter(c: char) {
    var k := c as int;
    65 <= k <= 90 || 97 <= k <= 122 || k == 95 || k == 36
  }

  predicate Blank(s: string) { forall i :: 0 <= i < |s| ==> Space(s[i]) }

  predicate Identifier(s: string) {
    s != [] && Letter(s[0]) && forall i :: 0 <= i < |s| ==> Letter(s[i]) || Digit(s[i])
  }

  predicate Digits(s: string) { s != [] && forall i :: 0 <= i < |s| ==> Digit(s[i]) }

  predicate Proper(n: Numeral) { Digits(n.whole) && (n.fraction.Some? ==> Digits(n.fraction.value)) }

  /** They are the classes the evaluator goes by. */
  lemma ClassesAgree(c: char)
    ensures Space(c) <==> IsSpace(c)
    ensures Digit(c) <==> IsDigit(c)
    ensures Letter(c) <==> IdentStart(c)
    ensures Letter(c) || Digit(c) <==> IdentPart(c)
  {
  }

  predicate Keyword(s: string) { s in ["true", "false", "null", "undefined"] }

  predicate Bracket(c: char) { c == '(' || c == ')' || c == '[' || c == ']' }

  /** How many more brackets are opened than closed. */
  function Net(open: char, close: char, s: string): int {
    if s == [] then 0
    else
      var c := s[|s| - 1];
      Net(open, close, s[..|s| - 1]) + (if c == open then 1 else if c == close then -1 else 0)
  }

  predicate Matched(open: char, close: char, s: string) {
    Net(open, close, s) == 0 && forall i :: 0 <= i <= |s| ==> Net(open, close, s[..i]) >= 0
  }

  /** Outside all brackets, `=` or `!` is followed by `=` and does not itself follow one of them. */
  predicate OperatorIn(s: string, i: nat)
    requires i < |s|
  {
    && Net('(', ')', s[..i]) + Net('[', ']', s[..i]) == 0
    && (s[i] == '=' || s[i] == '!') && i + 1 < |s| && s[i + 1] == '='
    && !(i > 0 && (s[i - 1] == '=' || s[i - 1] == '!'))
  }

  predicate NoOperator(s: string) { forall i: nat | i < |s| :: !OperatorIn(s, i) }

  /** The scanner does not know about quotes: brackets in a quoted text must match, and it must
      hold no operator outside them. */
  predicate Safe(body: string) { Matched('(', ')', body) && Matched('[', ']', body) && NoOperator(body) }

  /** Written without parentheses, only the right side of a comparison may be a comparison: the
      text is split at the leftmost operator, and `!` binds more tightly than either. */
  predicate Closed(x: Operand) { x.Bare? ==> !x.e.Equality? }

  /** A lone name must not read as a keyword; a longer path may start with any identifier. */
  predicate Writable(e: Expr)
    decreases e, 1
  {
    match e
    case Literal(_) => true
    case Number(numeral) => Proper(numeral)
    case Quoted(quote, body) => (quote == '"' || quote == '\'') && Safe(body)
    case Path(root, segs) => Identifier(root) && (segs == [] ==> !Keyword(root)) && WritableSegs(segs)
    case Not(x) => Closed(x) && WritableOperand(x)
    case Equality(_, l, r) => Closed(l) && WritableOperand(l) && WritableOperand(r)
  }

  predicate WritableOperand(x: Operand)
    decreases x, 2
  {
    Blank(x.gap) && (x.Wrapped? ==> Blank(x.left) && Blank(x.right)) && Writable(x.e)
  }

  predicate WritableSegs(segs: seq<Seg>)
    decreases segs, 0
  {
    segs != [] ==>
      WritableSeg(segs[0]) && WritableSegs(segs[1..])
  }

  predicate WritableSeg(seg: Seg)
    decreases seg, 2
  {
    match seg
    case Dot(name) => Identifier(name) || Digits(name)
    case Key(left, key, right) => Blank(left) && Blank(right) && Writable(key)
  }

  // ---------- trimming ----------

  /** Nothing to trim. */
  predicate Tight(s: string) { s != [] && !IsSpace(s[0]) && !IsSpace(s[|s| - 1]) }

  lemma TightTrim(s: string)
    requires Tight(s)
    ensures Trim(s) == s
  {
  }

  lemma {:induction false} TrimStartPad(pad: string, s: string)
    requires Blank(pad)
    ensures TrimStart(pad + s) == TrimStart(s)
  {
    if pad == [] {
      assert pad + s == s;
    } else {
      assert (pad + s)[1..] == pad[1..] + s;
      TrimStartPad(pad[1..], s);
    }
  }

  lemma {:induction false} TrimEndPad(s: string, pad: string)
    requires Blank(pad)
    ensures TrimEnd(s + pad) == TrimEnd(s)
  {
    if pad == [] {
      assert s + pad == s;
    } else {
      assert (s + pad)[..|s + pad| - 1] == s + pad[..|pad| - 1];
      TrimEndPad(s, pad[..|pad| - 1]);
    }
  }

  lemma TightStart(s: string, pad: string)
    requires Tight(s)
    ensures TrimStart(s + pad) == s + pad
  {
    assert (s + pad)[0] == s[0];
  }

  lemma PadTrim(pad: string, s: string, pad': string)
    requires Blank(pad) && Blank(pad') && Tight(s)
    ensures Trim(pad + s + pad') == s
  {
    assert pad + s + pad' == pad + (s + pad');
    TrimStartPad(pad, s + pad');
    TightStart(s, pad');
    TrimEndPad(s, pad');
    TightTrim(s);
  }

  /** Only the trimmed text matters. */
  lemma ResolveTrimmed(js: Js, vals: Val, pad: string, s: string, pad': string)
    requires Blank(pad) && Blank(pad') && Tight(s)
    ensures Resolve(js, vals, pad + s + pad') == Resolve(js, vals, s)
  {
    PadTrim(pad, s, pad');
    TightTrim(s);
  }

  // ---------- nesting ----------

  predicate Balanced(k: Nest, s: string) {
    Depth(k, s) == 0 && forall i :: 0 <= i <= |s| ==> Depth(k, s[..i]) >= 0
  }

  predicate BalancedAll(s: string) { Balanced(Round, s) && Balanced(Square, s) && Balanced(Both, s) }

  lemma {:induction false} DepthCat(k: Nest, a: string, b: string)
    ensures Depth(k, a + b) == Depth(k, a) + Depth(k, b)
  {
    if b == [] {
      assert a + b == a;
    } else {
      assert (a + b)[..|a + b| - 1] == a + b[..|b| - 1];
      DepthCat(k, a, b[..|b| - 1]);
    }
  }

  lemma {:induction false} DepthPlain(k: Nest, s: string)
    requires forall i :: 0 <= i < |s| ==> !Bracket(s[i])
    ensures Depth(k, s) == 0
  {
    if s != [] { DepthPlain(k, s[..|s| - 1]); }
  }

  lemma DepthPrefix(k: Nest, a: string, b: string, i: nat)
    requires i <= |a| + |b|
    ensures Depth(k, (a + b)[..i]) == if i <= |a| then Depth(k, a[..i]) else Depth(k, a) + Depth(k, b[..i - |a|])
  {
    if i <= |a| {
      assert (a + b)[..i] == a[..i];
    } else {
      assert (a + b)[..i] == a + b[..i - |a|];
      DepthCat(k, a, b[..i - |a|]);
    }
  }

  lemma BalancedCat(k: Nest, a: string, b: string)
    requires Balanced(k, a) && Balanced(k, b)
    ensures Balanced(k, a + b)
  {
    DepthCat(k, a, b);
    forall i | 0 <= i <= |a + b| ensures Depth(k, (a + b)[..i]) >= 0 {
      DepthPrefix(k, a, b, i);
    }
  }

  lemma PlainBalanced(s: string)
    requires forall i :: 0 <= i < |s| ==> !Bracket(s[i])
    ensures BalancedAll(s)
  {
    forall k, i | 0 <= i <= |s| ensures Depth(k, s[..i]) == 0 {
      DepthPlain(k, s[..i]);
    }
    assert s[..|s|] == s;
  }

  predicate Pair(o: char, c: char) { (o == '(' && c == ')') || (o == '[' && c == ']') }

  lemma DepthOne(k: Nest, c: char)
    ensures Depth(k, [c]) == if Opens(k, c) then 1 else if Closes(k, c) then -1 else 0
  {
    assert [c][..0] == [];
  }

  /** Inside a bracketed text the depth is one more than inside the text. */
  lemma WrapDepth(k: Nest, o: char, s: string, c: char, i: nat)
    requires Pair(o, c) && i <= |s| + 2
    ensures Depth(k, ([o] + s + [c])[..i])
            == if i == 0 then 0
               else if i <= |s| + 1 then Depth(k, s[..i - 1]) + (if Opens(k, o) then 1 else 0)
               else Depth(k, s)
  {
    DepthOne(k, o);
    DepthOne(k, c);
    DepthPrefix(k, [o] + s, [c], i);
    if 0 < i <= |s| + 1 {
      DepthPrefix(k, [o], s, i);
    } else if i > |s| + 1 {
      DepthCat(k, [o], s);
      assert [c][..1] == [c];
    }
  }

  lemma WrapBalanced(k: Nest, o: char, s: string, c: char)
    requires Pair(o, c) && Balanced(k, s)
    ensures Balanced(k, [o] + s + [c])
  {
    var t := [o] + s + [c];
    forall i | 0 <= i <= |t| ensures Depth(k, t[..i]) >= 0 {
      WrapDepth(k, o, s, c, i);
    }
    WrapDepth(k, o, s, c, |t|);
    assert t[..|t|] == t;
  }

  lemma {:induction false} NetIsDepth(s: string)
    ensures Depth(Round, s) == Net('(', ')', s)
    ensures Depth(Square, s) == Net('[', ']', s)
    ensures Depth(Both, s) == Net('(', ')', s) + Net('[', ']', s)
  {
    if s != [] { NetIsDepth(s[..|s| - 1]); }
  }

  lemma MatchedBalanced(s: string)
    requires Matched('(', ')', s) && Matched('[', ']', s)
    ensures BalancedAll(s)
  {
    hide Depth, Net;
    NetIsDepth(s);
    forall i | 0 <= i <= |s|
      ensures Depth(Round, s[..i]) >= 0 && Depth(Square, s[..i]) >= 0 && Depth(Both, s[..i]) >= 0
    {
      NetIsDepth(s[..i]);
    }
  }

  lemma BalancedAllCat(a: string, b: string)
    requires BalancedAll(a) && BalancedAll(b)
    ensures BalancedAll(a + b)
  {
    BalancedCat(Round, a, b);
    BalancedCat(Square, a, b);
    BalancedCat(Both, a, b);
  }

  lemma WrapBalancedAll(o: char, s: string, c: char)
    requires Pair(o, c) && BalancedAll(s)
    ensures BalancedAll([o] + s + [c])
  {
    WrapBalanced(Round, o, s, c);
    WrapBalanced(Square, o, s, c);
    WrapBalanced(Both, o, s, c);
  }

  lemma PaddedBalanced(left: string, s: string, right: string)
    requires Blank(left) && Blank(right) && BalancedAll(s)
    ensures BalancedAll(left + s + right)
  {
    PlainBalanced(left);
    PlainBalanced(right);
    BalancedAllCat(left, s);
    BalancedAllCat(left + s, right);
  }

  // ---------- no equality at depth zero ----------

  predicate NoTop(s: string) {
    forall i :: 0 <= i < |s| && Depth(Both, s[..i]) == 0 ==> !EqualitySign(s[i])
  }

  lemma NoTopCat(a: string, b: string)
    requires NoTop(a) && NoTop(b) && Depth(Both, a) == 0
    ensures NoTop(a + b)
  {
    forall i | 0 <= i < |a + b| && Depth(Both, (a + b)[..i]) == 0 ensures !EqualitySign((a + b)[i]) {
      DepthPrefix(Both, a, b, i);
    }
  }

  lemma NoTopPlain(s: string)
    requires forall i :: 0 <= i < |s| ==> !EqualitySign(s[i])
    ensures NoTop(s)
  {
  }

  lemma NoTopWrap(o: char, s: string, c: char)
    requires Pair(o, c) && Balanced(Both, s)
    ensures NoTop([o] + s + [c])
  {
    var t := [o] + s + [c];
    forall i | 0 <= i < |t| && Depth(Both, t[..i]) == 0 ensures !EqualitySign(t[i]) {
      WrapDepth(Both, o, s, c, i);
    }
  }

  lemma {:induction false} NoTopFindsNone(s: string, i: nat)
    requires NoTop(s) && i <= |s|
    ensures FindEquality(s, i) == None
    decreases |s| - i
  {
    if i < |s| { NoTopFindsNone(s, i + 1); }
  }

  /** Where the scan finds nothing in `a`, it runs over it and stops at the operator after it. */
  lemma {:induction false} ScanPast(a: string, rest: string, i: nat)
    requires i <= |a| && FindEquality(a, i) == None && Depth(Both, a) == 0
    requires |rest| >= 2 && EqualitySign(rest[0]) && rest[1] == '='
    requires a != [] && !EqualitySign(a[|a| - 1]) && Trim(a) != []
    ensures FindEquality(a + rest, i) == Some(|a|)
    decreases |a| - i
  {
    var s := a + rest;
    if i < |a| {
      assert s[..i] == a[..i];
      ScanPast(a, rest, i + 1);
    } else {
      assert s[..i] == a;
      assert TopLevelEquality(s, i);
    }
  }

  /** White space after a text hides nothing and adds nothing. */
  lemma {:induction false} PadFindsNone(a: string, pad: string, i: nat)
    requires a != [] && !EqualitySign(a[|a| - 1]) && Blank(pad) && i <= |a + pad|
    requires i <= |a| ==> FindEquality(a, i) == None
    ensures FindEquality(a + pad, i) == None
    decreases |a + pad| - i
  {
    if i < |a + pad| {
      if i < |a| { assert (a + pad)[..i] == a[..i]; }
      PadFindsNone(a, pad, i + 1);
    }
  }

  /** Nor does `!` before it, as long as the two do not make an operator. */
  lemma {:induction false} NotFindsNone(pre: string, s: string, j: nat)
    requires Depth(Both, pre) == 0 && s != [] && !IsSpace(s[0]) && Startable(s)
    requires j <= |s| && FindEquality(s, j) == None
    ensures FindEquality(pre + s, |pre| + j) == None
    decreases |s| - j
  {
    if j < |s| {
      DepthPrefix(Both, pre, s, |pre| + j);
      if j > 0 { TrimNonEmpty(s[..j]); }
      NotFindsNone(pre, s, j + 1);
    }
  }

  lemma {:induction false} BlankFindsNone(t: string, pad: string, i: nat)
    requires Blank(pad) && |pad| + 1 <= |t| && t[..|pad| + 1] == "!" + pad && i <= |pad| + 1
    requires FindEquality(t, |pad| + 1) == None
    ensures FindEquality(t, i) == None
    decreases |pad| + 1 - i
  {
    if i <= |pad| {
      assert i > 0 ==> t[i] == t[..|pad| + 1][i] == pad[i - 1];
      assert i == 0 ==> Trim(t[..i]) == [];
      BlankFindsNone(t, pad, i + 1);
    }
  }

  lemma TrimNonEmpty(s: string)
    requires s != [] && !IsSpace(s[0])
    ensures Trim(s) != []
  {
    EndStays(s);
  }

  lemma {:induction false} EndStays(s: string)
    requires s != [] && !IsSpace(s[0])
    ensures TrimEnd(s) != []
  {
    if IsSpace(s[|s| - 1]) { EndStays(s[..|s| - 1]); }
  }

  /** The scan of a quoted text finds exactly the operators outside brackets. */
  lemma QuotedScan(quote: char, body: string)
    requires quote == '"' || quote == '\''
    ensures FindEquality([quote] + body + [quote], 0) == None <==> NoOperator(body)
  {
    hide FindEquality, TopLevelEquality, OperatorIn;
    var s := [quote] + body + [quote];
    forall i: nat | i < |body| ensures TopLevelEquality(s, i + 1) <==> OperatorIn(body, i) {
      QuotedAt(quote, body, i);
    }
    QuotedEnds(quote, body);
    if NoOperator(body) {
      assert forall j: nat | j < |s| :: TopLevelEquality(s, j) ==> j == 0 || j == |s| - 1 || OperatorIn(body, j - 1);
      NothingFound(s, 0);
    } else {
      var i: nat :| i < |body| && OperatorIn(body, i);
      SomethingFound(s, 0, i + 1);
    }
  }

  lemma QuotedAt(quote: char, body: string, i: nat)
    requires (quote == '"' || quote == '\'') && i < |body|
    ensures TopLevelEquality([quote] + body + [quote], i + 1) <==> OperatorIn(body, i)
  {
    var s := [quote] + body + [quote];
    assert s[..i + 1] == [quote] + body[..i];
    DepthCat(Both, [quote], body[..i]);
    DepthOne(Both, quote);
    NetIsDepth(body[..i]);
    TrimNonEmpty(s[..i + 1]);
    assert s[i + 1] == body[i] && s[i] == if i == 0 then quote else body[i - 1];
    assert s[i + 2] == if i + 1 < |body| then body[i + 1] else quote;
  }

  lemma QuotedEnds(quote: char, body: string)
    requires quote == '"' || quote == '\''
    ensures var s := [quote] + body + [quote]; !TopLevelEquality(s, 0) && !TopLevelEquality(s, |s| - 1)
  {
  }

  lemma {:induction false} NothingFound(s: string, i: nat)
    requires i <= |s| && forall j: nat | j < |s| :: !TopLevelEquality(s, j)
    ensures FindEquality(s, i) == None
    decreases |s| - i
  {
    if i < |s| { NothingFound(s, i + 1); }
  }

  lemma {:induction false} SomethingFound(s: string, i: nat, j: nat)
    requires i <= j < |s| && TopLevelEquality(s, j)
    ensures FindEquality(s, i).Some?
    decreases j - i
  {
    if i < j { SomethingFound(s, i + 1, j); }
  }

  /** The text does not complete an operator begun before it. */
  predicate Startable(s: string) { s != [] && s[0] != '=' && (s[0] == '!' ==> |s| > 1 && s[1] != '=') }

  /** Nor does it begin one that the text after it would complete. */
  predicate Joinable(s: string) { Startable(s) && !EqualitySign(s[|s| - 1]) }

  /** What every written text is. */
  predicate Shaped(s: string) { BalancedAll(s) && Tight(s) && Joinable(s) }

  // ---------- every written text is balanced and tight ----------

  lemma OperatorPlain(op: Operator)
    ensures BalancedAll(OperatorText(op))
  {
    PlainBalanced(OperatorText(op));
  }

  lemma NumberChars(s: string)
    requires NumberText(s)
    ensures s != [] && forall i :: 0 <= i < |s| ==> IsDigit(s[i]) || s[i] == '.' || s[i] == '-'
    ensures IsDigit(s[|s| - 1])
  {
    var t := if s[0] == '-' then s[1..] else s;
    UnsignedChars(t);
    assert forall i :: 0 <= i < |t| ==> s[i + |s| - |t|] == t[i];
    assert forall i :: 1 <= i < |s| ==> s[i] == t[i - (|s| - |t|)];
    assert s[0] == '-' || s[0] == t[0];
  }

  lemma UnsignedChars(t: string)
    requires var n := DigitRun(t);
             && n > 0
             && (n == |t| || (t[n] == '.' && n + 1 < |t| && DigitRun(t[n + 1..]) == |t| - n - 1))
    ensures t != [] && IsDigit(t[|t| - 1]) && forall i :: 0 <= i < |t| ==> IsDigit(t[i]) || t[i] == '.'
  {
    hide DigitRun;
    var n := DigitRun(t);
    DigitsInRun(t);
    if n < |t| {
      var f := t[n + 1..];
      DigitsInRun(f);
      forall i | n < i < |t| ensures IsDigit(t[i]) { assert t[i] == f[i - n - 1]; }
    }
  }

  lemma {:induction false} DigitsInRun(s: string)
    ensures forall i :: 0 <= i < DigitRun(s) ==> IsDigit(s[i])
  {
    if s != [] && IsDigit(s[0]) { DigitsInRun(s[1..]); }
  }

  /** `!` followed by an operand. */
  lemma NotShape(pad: string, operand: string)
    requires Blank(pad) && Shaped(operand) && FindEquality(operand, 0) == None
    ensures var s := "!" + (pad + operand);
            Shaped(s) && FindEquality(s, 0) == None
  {
    hide Depth, FindEquality;
    var s := "!" + (pad + operand);
    PlainBalanced(pad);
    PlainBalanced("!");
    BalancedAllCat("!", pad);
    BalancedAllCat("!" + pad, operand);
    assert s == ("!" + pad) + operand;
    NotScans(pad, operand);
    assert s[1] == if pad == [] then operand[0] else pad[0];
    assert s[|s| - 1] == operand[|operand| - 1];
  }

  lemma NotScans(pad: string, operand: string)
    requires Blank(pad) && Depth(Both, "!" + pad) == 0 && Tight(operand) && Startable(operand)
    requires FindEquality(operand, 0) == None
    ensures FindEquality(("!" + pad) + operand, 0) == None
  {
    hide Depth, FindEquality;
    var s := ("!" + pad) + operand;
    assert s[..|pad| + 1] == "!" + pad;
    NotFindsNone("!" + pad, operand, 0);
    BlankFindsNone(s, pad, 0);
  }

  lemma OperandPadded(pad: string, l: string)
    requires Blank(pad) && Depth(Both, l) == 0 && Tight(l) && !EqualitySign(l[|l| - 1]) && FindEquality(l, 0) == None
    ensures var left := l + pad;
            && Depth(Both, left) == 0 && FindEquality(left, 0) == None
            && Trim(left) == l && !EqualitySign(left[|left| - 1])
  {
    DepthPlain(Both, pad);
    DepthCat(Both, l, pad);
    PadFindsNone(l, pad, 0);
    TrimRight(l, pad);
  }

  lemma TrimRight(l: string, pad: string)
    requires Blank(pad) && Tight(l)
    ensures Trim(l + pad) == l
  {
    PadTrim([], l, pad);
    assert [] + l + pad == l + pad;
  }

  lemma EqualityBalanced(left: string, op: Operator, right: string)
    requires BalancedAll(left) && BalancedAll(right)
    ensures BalancedAll(left + (OperatorText(op) + right))
  {
    OperatorPlain(op);
    BalancedAllCat(OperatorText(op), right);
    BalancedAllCat(left, OperatorText(op) + right);
  }

  /** A path, from its root to its last segment. */
  lemma PathShape(root: string, tail: string)
    requires Identifier(root) && BalancedAll(tail) && NoTop(tail)
    requires tail != [] ==> Ends(tail)
    ensures Shaped(root + tail) && FindEquality(root + tail, 0) == None
  {
    PlainBalanced(root);
    BalancedAllCat(root, tail);
    NoTopPlain(root);
    NoTopCat(root, tail);
    NoTopFindsNone(root + tail, 0);
  }

  /** Nothing to trim at the end, and no half of an operator. */
  predicate Ends(s: string) { s != [] && !IsSpace(s[|s| - 1]) && !EqualitySign(s[|s| - 1]) }

  lemma DotShape(name: string)
    requires Identifier(name) || Digits(name)
    ensures BalancedAll(['.'] + name) && NoTop(['.'] + name) && Ends(['.'] + name)
  {
    PlainBalanced(['.'] + name);
    NoTopPlain(['.'] + name);
  }

  lemma WrapShape(o: char, left: string, s: string, right: string, c: char)
    requires Pair(o, c) && Blank(left) && Blank(right) && BalancedAll(s)
    ensures var t := [o] + (left + s + right) + [c]; Shaped(t) && NoTop(t)
  {
    PaddedBalanced(left, s, right);
    WrapBalancedAll(o, left + s + right, c);
    NoTopWrap(o, left + s + right, c);
  }

  /** No sign of an equality, no bracket. */
  lemma PlainShape(s: string)
    requires Tight(s) && forall i :: 0 <= i < |s| ==> !Bracket(s[i]) && !EqualitySign(s[i])
    ensures Shaped(s) && FindEquality(s, 0) == None
  {
    hide Depth;
    PlainBalanced(s);
    NoTopPlain(s);
    NoTopFindsNone(s, 0);
  }

  lemma WordShape(w: Word)
    ensures Shaped(WordText(w)) && FindEquality(WordText(w), 0) == None
  {
    hide FindEquality;
    PlainShape(WordText(w));
  }

  lemma NumberShape(text: string)
    requires NumberText(text)
    ensures Shaped(text) && FindEquality(text, 0) == None
  {
    hide FindEquality;
    NumberChars(text);
    PlainShape(text);
  }

  /** Every numeral reads as a number. */
  lemma NumeralIsNumber(n: Numeral)
    requires Proper(n)
    ensures NumberText(NumeralText(n))
  {
    var s := NumeralText(n);
    var tail := if n.fraction.Some? then "." + n.fraction.value else "";
    var t := n.whole + tail;
    assert n.negative ==> s[1..] == t;
    assert !n.negative ==> s == t && s[0] != '-';
    RunOfDigits(n.whole, tail);
    if n.fraction.Some? {
      RunOfDigits(n.fraction.value, "");
      assert n.fraction.value + "" == n.fraction.value;
      assert t[|n.whole| + 1..] == n.fraction.value;
    }
  }

  lemma {:induction false} RunOfDigits(s: string, rest: string)
    requires (forall i :: 0 <= i < |s| ==> Digit(s[i])) && (rest != [] ==> !Digit(rest[0]))
    ensures DigitRun(s + rest) == |s|
  {
    if s == [] {
      assert s + rest == rest;
    } else {
      assert (s + rest)[1..] == s[1..] + rest;
      RunOfDigits(s[1..], rest);
    }
  }

  /** And only a numeral does: the evaluator's test is exactly this. */
  lemma NumbersAreNumerals(s: string)
    ensures NumberText(s) <==> exists n: Numeral :: Proper(n) && NumeralText(n) == s
  {
    if NumberText(s) {
      var n := NumeralOf(s);
    } else if n: Numeral :| Proper(n) && NumeralText(n) == s {
      NumeralIsNumber(n);
    }
  }

  lemma NumeralOf(s: string) returns (n: Numeral)
    requires NumberText(s)
    ensures Proper(n) && NumeralText(n) == s
  {
    var negative := s[0] == '-';
    var t := if negative then s[1..] else s;
    assert s == (if negative then "-" else "") + t;
    var whole, fraction := SplitNumber(t);
    n := Numeral(negative, whole, fraction);
  }

  lemma SplitNumber(t: string) returns (whole: string, fraction: Option<string>)
    requires var n := DigitRun(t);
             && n > 0
             && (n == |t| || (t[n] == '.' && n + 1 < |t| && DigitRun(t[n + 1..]) == |t| - n - 1))
    ensures Digits(whole) && (fraction.Some? ==> Digits(fraction.value))
    ensures t == whole + if fraction.Some? then "." + fraction.value else ""
  {
    hide DigitRun;
    var k := DigitRun(t);
    DigitsInRun(t);
    whole := t[..k];
    if k == |t| {
      fraction := None;
    } else {
      var f := t[k + 1..];
      DigitsInRun(f);
      fraction := Some(f);
      assert t[k..] == "." + f;
    }
  }

  lemma QuotedShape(quote: char, body: string)
    requires (quote == '"' || quote == '\'') && BalancedAll(body)
    ensures Shaped([quote] + body + [quote])
  {
    hide Depth;
    PlainBalanced([quote]);
    BalancedAllCat([quote], body);
    BalancedAllCat([quote] + body, [quote]);
  }

  /** Every written text is balanced, has nothing to trim and joins an operator on either side;
      and only in a comparison does the scan find one. */
  lemma {:induction false} PrintBalanced(e: Expr)
    requires Writable(e)
    ensures Shaped(Print(e))
    ensures !e.Equality? ==> FindEquality(Print(e), 0) == None
    decreases e, 1
  {
    hide FindEquality, Shaped, BalancedAll, NoTop, Ends, NumberText, OperandText;
    match e {
      case Literal(w) => WordShape(w);
      case Number(numeral) =>
        NumeralIsNumber(numeral);
        NumberShape(NumeralText(numeral));
      case Quoted(quote, body) =>
        MatchedBalanced(body);
        QuotedScan(quote, body);
        QuotedShape(quote, body);
      case Path(root, segs) =>
        SegsBalanced(segs);
        PathShape(root, PrintSegs(segs));
      case Not(x) =>
        OperandShape(x);
        NotShape(x.gap, OperandText(x));
      case Equality(op, l, r) => EqualityPrint(op, l, r);
    }
  }

  lemma {:induction false} OperandShape(x: Operand)
    requires WritableOperand(x)
    ensures Shaped(OperandText(x))
    ensures Closed(x) ==> FindEquality(OperandText(x), 0) == None
    decreases x, 2
  {
    PrintBalanced(x.e);
    if x.Wrapped? {
      WrapShape('(', x.left, Print(x.e), x.right, ')');
      NoTopFindsNone(OperandText(x), 0);
    }
  }

  lemma {:induction false} EqualityPrint(op: Operator, l: Operand, r: Operand)
    requires WritableOperand(l) && WritableOperand(r)
    ensures Shaped(Print(Equality(op, l, r)))
    decreases Equality(op, l, r), 0
  {
    hide Depth, FindEquality, OperandText;
    var pl, pr := OperandText(l), OperandText(r);
    OperandShape(l);
    OperandShape(r);
    PlainBalanced(l.gap);
    PlainBalanced(r.gap);
    BalancedAllCat(pl, l.gap);
    BalancedAllCat(r.gap, pr);
    EqualityBalanced(pl + l.gap, op, r.gap + pr);
    EqualityEnds(pl, l.gap, op, r.gap, pr);
  }

  lemma EqualityEnds(pl: string, gap: string, op: Operator, gap': string, pr: string)
    requires Tight(pl) && Joinable(pl) && Tight(pr) && Joinable(pr) && Blank(gap)
    ensures var s := (pl + gap) + (OperatorText(op) + (gap' + pr)); Tight(s) && Joinable(s)
  {
    var s := (pl + gap) + (OperatorText(op) + (gap' + pr));
    assert s[0] == pl[0] && s[|s| - 1] == pr[|pr| - 1];
    if |pl| > 1 { assert s[1] == pl[1]; }
  }

  lemma {:induction false} SegsBalanced(segs: seq<Seg>)
    requires WritableSegs(segs)
    ensures BalancedAll(PrintSegs(segs)) && NoTop(PrintSegs(segs))
    ensures segs != [] ==> Ends(PrintSegs(segs))
    decreases segs, 0
  {
    hide Depth, Print;
    if segs == [] {
      PlainBalanced("");
    } else {
      SegsBalanced(segs[1..]);
      SegBalanced(segs[0]);
      BalancedAllCat(PrintSeg(segs[0]), PrintSegs(segs[1..]));
      NoTopCat(PrintSeg(segs[0]), PrintSegs(segs[1..]));
    }
  }

  lemma {:induction false} SegBalanced(seg: Seg)
    requires WritableSeg(seg)
    ensures var s := PrintSeg(seg); BalancedAll(s) && NoTop(s) && Ends(s)
    decreases seg, 2
  {
    match seg {
      case Dot(name) => DotShape(name);
      case Key(left, key, right) =>
        PrintBalanced(key);
        WrapShape('[', left, Print(key), right, ']');
    }
  }
}
