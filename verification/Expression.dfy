/** The expression language of the design runtime: its evaluator, as functions of the text. */
module Expression {
  import opened Prelude

  /** JavaScript values, as far as the evaluator looks at them; numbers, objects and functions
      are told apart by a tag. */
  datatype Val = Undefined | Null | Bool(b: bool) | Str(s: string) | Other(tag: int)

  /** The host language: equality, truth, property access and number conversion. */
  datatype Js = Js(
    strictEq: (Val, Val) -> bool,
    looseEq: (Val, Val) -> bool,
    truthy: Val -> bool,
    get: (Val, Val) -> Val,
    number: string -> Val)

  predicate Nullish(v: Val) { v.Undefined? || v.Null? }

  function Member(js: Js, v: Val, key: Val): Val {
    if Nullish(v) then Undefined else js.get(v, key)
  }

  // ---------- characters ----------

  predicate IsSpace(c: char) {
    '\t' <= c <= '\r' || c == ' ' || c == '\U{A0}' || c == '\U{1680}' || '\U{2000}' <= c <= '\U{200A}'
    || c == '\U{2028}' || c == '\U{2029}' || c == '\U{202F}' || c == '\U{205F}' || c == '\U{3000}' || c == '\U{FEFF}'
  }

  predicate IsDigit(c: char) { '0' <= c <= '9' }

  predicate IdentStart(c: char) { 'a' <= c <= 'z' || 'A' <= c <= 'Z' || c == '_' || c == '$' }

  predicate IdentPart(c: char) { IdentStart(c) || IsDigit(c) }

  function TrimStart(s: string): (r: string)
    ensures |r| <= |s|
  {
    if s != [] && IsSpace(s[0]) then TrimStart(s[1..]) else s
  }

  function TrimEnd(s: string): (r: string)
    ensures |r| <= |s|
  {
    if s != [] && IsSpace(s[|s| - 1]) then TrimEnd(s[..|s| - 1]) else s
  }

  function Trim(s: string): (r: string)
    ensures |r| <= |s|
  {
    TrimEnd(TrimStart(s))
  }

  // ---------- nesting ----------

  /** Which brackets are counted. */
  datatype Nest = Round | Square | Both

  predicate Opens(k: Nest, c: char) { (c == '(' && !k.Square?) || (c == '[' && !k.Round?) }

  predicate Closes(k: Nest, c: char) { (c == ')' && !k.Square?) || (c == ']' && !k.Round?) }

  function Depth(k: Nest, s: string): int {
    if s == [] then 0
    else
      var c := s[|s| - 1];
      Depth(k, s[..|s| - 1]) + (if Opens(k, c) then 1 else if Closes(k, c) then -1 else 0)
  }

  /** No proper prefix closes the first parenthesis again. */
  predicate WrapWhole(expr: string) {
    forall i :: 0 <= i < |expr| - 1 && expr[i] == ')' ==> Depth(Round, expr[..i + 1]) != 0
  }

  // ---------- top-level equality ----------

  predicate EqualitySign(c: char) { c == '=' || c == '!' }

  predicate TopLevelEquality(expr: string, i: nat)
    requires i < |expr|
  {
    && Depth(Both, expr[..i]) == 0
    && EqualitySign(expr[i])
    && i + 1 < |expr| && expr[i + 1] == '='
    && !(i > 0 && EqualitySign(expr[i - 1]))
    && Trim(expr[..i]) != []
  }

  /** The leftmost top-level equality at or after `i`. */
  function FindEquality(expr: string, i: nat): (r: Option<nat>)
    requires i <= |expr|
    ensures r.Some? ==> r.value + 1 < |expr|
    decreases |expr| - i
  {
    if i == |expr| then None
    else if TopLevelEquality(expr, i) then Some(i)
    else FindEquality(expr, i + 1)
  }

  datatype Operator = Operator(negated: bool, strict: bool)

  function OperatorAt(expr: string, i: nat): Operator
    requires i + 1 < |expr|
  {
    Operator(expr[i] == '!', i + 2 < |expr| && expr[i + 2] == '=')
  }

  function Width(op: Operator): nat { if op.strict then 3 else 2 }

  function Compare(js: Js, op: Operator, l: Val, r: Val): Val {
    var same := if op.strict then js.strictEq(l, r) else js.looseEq(l, r);
    Bool(if op.negated then !same else same)
  }

  // ---------- tokens ----------

  function DigitRun(s: string): (n: nat)
    ensures n <= |s|
  {
    if s != [] && IsDigit(s[0]) then 1 + DigitRun(s[1..]) else 0
  }

  function PartRun(s: string): (n: nat)
    ensures n <= |s|
  {
    if s != [] && IdentPart(s[0]) then 1 + PartRun(s[1..]) else 0
  }

  /** Length of the identifier the text starts with; zero when it does not start with one. */
  function IdentRun(s: string): (n: nat)
    ensures n <= |s|
  {
    if s != [] && IdentStart(s[0]) then 1 + PartRun(s[1..]) else 0
  }

  /** Optional sign, digits, optional fraction. */
  predicate NumberText(s: string) {
    var t := if s != [] && s[0] == '-' then s[1..] else s;
    var n := DigitRun(t);
    n > 0 && (n == |t| || (t[n] == '.' && n + 1 < |t| && DigitRun(t[n + 1..]) == |t| - n - 1))
  }

  /** Where the bracket opened before `j`, at nesting `depth`, is closed. */
  function FindClose(expr: string, j: nat, depth: nat): (r: Option<nat>)
    requires j <= |expr|
    ensures r.Some? ==> j <= r.value < |expr|
    decreases |expr| - j
  {
    if j == |expr| then None
    else if expr[j] == '[' then FindClose(expr, j + 1, depth + 1)
    else if expr[j] == ']' then (if depth <= 1 then Some(j) else FindClose(expr, j + 1, depth - 1))
    else FindClose(expr, j + 1, depth)
  }

  // ---------- the evaluator ----------

  function Resolve(js: Js, vals: Val, src: string): Val
    decreases |src|, 1, 0
  {
    var expr := Trim(src);
    if expr == [] then Undefined
    else if expr[0] == '(' && expr[|expr| - 1] == ')' && WrapWhole(expr) then
      Resolve(js, vals, expr[1..|expr| - 1])
    else
      match FindEquality(expr, 0)
      case Some(i) =>
        var op := OperatorAt(expr, i);
        Compare(js, op, Resolve(js, vals, expr[..i]), Resolve(js, vals, expr[i + Width(op)..]))
      case None =>
        if expr[0] == '!' then Bool(!js.truthy(Resolve(js, vals, expr[1..])))
        else ResolveAtom(js, vals, expr)
  }

  /** No wrapping parentheses, no operator: a literal or a path. */
  function ResolveAtom(js: Js, vals: Val, expr: string): Val
    decreases |expr|, 0, |expr| + 2
  {
    if expr == "true" then Bool(true)
    else if expr == "false" then Bool(false)
    else if expr == "null" then Null
    else if expr == "undefined" then Undefined
    else if NumberText(expr) then js.number(expr)
    else if |expr| >= 2 && (expr[0] == '"' || expr[0] == '\'') && expr[|expr| - 1] == expr[0] then
      Str(expr[1..|expr| - 1])
    else ResolvePath(js, vals, expr)
  }

  function ResolvePath(js: Js, vals: Val, expr: string): Val
    decreases |expr|, 0, |expr| + 1
  {
    var n := IdentRun(expr);
    if n == 0 then Undefined else PathFrom(js, vals, expr, Member(js, vals, Str(expr[..n])), n)
  }

  function NameRun(s: string): (n: nat)
    ensures n <= |s|
  {
    if IdentRun(s) > 0 then IdentRun(s) else DigitRun(s)
  }

  function PathFrom(js: Js, vals: Val, expr: string, cur: Val, i: nat): Val
    requires i <= |expr|
    decreases |expr|, 0, |expr| - i
  {
    if i == |expr| then cur
    else if expr[i] == '.' then
      var n := NameRun(expr[i + 1..]);
      if n == 0 then Undefined
      else PathFrom(js, vals, expr, Member(js, cur, Str(expr[i + 1..i + 1 + n])), i + 1 + n)
    else if expr[i] == '[' then
      match FindClose(expr, i + 1, 1)
      case None => Undefined
      case Some(j) => PathFrom(js, vals, expr, Member(js, cur, Resolve(js, vals, expr[i + 1..j])), j + 1)
    else Undefined
  }
}
