/** The evaluator's loops, each proved to compute the function of the same purpose. */
module ExpressionLoops {
  import opened Prelude
  import opened Expression

  lemma DepthStep(k: Nest, s: string, i: nat)
    requires i < |s|
    ensures Depth(k, s[..i + 1]) == Depth(k, s[..i]) + (if Opens(k, s[i]) then 1 else if Closes(k, s[i]) then -1 else 0)
  {
    assert s[..i + 1][..i] == s[..i];
  }

  method ParensWrapWhole(expr: string) returns (whole: bool)
    ensures whole == WrapWhole(expr)
  {
    var depth, i := 0, 0;
    while i < |expr| - 1
      invariant 0 <= i <= |expr|
      invariant i <= Max(0, |expr| - 1)
      invariant depth == Depth(Round, expr[..i])
      invariant forall j :: 0 <= j < i && expr[j] == ')' ==> Depth(Round, expr[..j + 1]) != 0
    {
      DepthStep(Round, expr, i);
      if expr[i] == '(' {
        depth := depth + 1;
      } else if expr[i] == ')' {
        depth := depth - 1;
        if depth == 0 { return false; }
      }
      i := i + 1;
    }
    return true;
  }

  method FindTopLevelEquality(expr: string) returns (r: Option<nat>)
    ensures r == FindEquality(expr, 0)
  {
    var depth, i := 0, 0;
    while i < |expr|
      invariant 0 <= i <= |expr|
      invariant depth == Depth(Both, expr[..i])
      invariant FindEquality(expr, 0) == FindEquality(expr, i)
    {
      DepthStep(Both, expr, i);
      var c := expr[i];
      if c == '[' || c == '(' {
        depth := depth + 1;
      } else if c == ']' || c == ')' {
        depth := depth - 1;
      } else if depth == 0 && (c == '=' || c == '!') && i + 1 < |expr| && expr[i + 1] == '=' {
        if !(i > 0 && (expr[i - 1] == '=' || expr[i - 1] == '!')) && Trim(expr[..i]) != [] {
          return Some(i);
        }
      }
      i := i + 1;
    }
    return None;
  }

  method CloseOf(expr: string, start: nat) returns (r: Option<nat>)
    requires start <= |expr|
    ensures r == FindClose(expr, start, 1)
  {
    var depth: nat, j := 1, start;
    while j < |expr| && depth > 0
      invariant start <= j <= |expr| && depth >= 1
      invariant FindClose(expr, start, 1) == FindClose(expr, j, depth)
      decreases |expr| - j
    {
      if expr[j] == '[' {
        depth := depth + 1;
      } else if expr[j] == ']' {
        if depth == 1 { return Some(j); }
        depth := depth - 1;
      }
      j := j + 1;
    }
    return None;
  }

  // The branches of the evaluator, one at a time.

  lemma ResolveWrapped(js: Js, vals: Val, src: string)
    requires var expr := Trim(src); expr != [] && expr[0] == '(' && expr[|expr| - 1] == ')' && WrapWhole(expr)
    ensures var expr := Trim(src); Resolve(js, vals, src) == Resolve(js, vals, expr[1..|expr| - 1])
  {
  }

  predicate Unwrapped(expr: string) {
    expr != [] && !(expr[0] == '(' && expr[|expr| - 1] == ')' && WrapWhole(expr))
  }

  lemma ResolveCompares(js: Js, vals: Val, src: string)
    requires Unwrapped(Trim(src)) && FindEquality(Trim(src), 0).Some?
    ensures var expr := Trim(src);
            var i := FindEquality(expr, 0).value;
            Resolve(js, vals, src)
            == Compare(js, OperatorAt(expr, i), Resolve(js, vals, expr[..i]),
                       Resolve(js, vals, expr[i + Width(OperatorAt(expr, i))..]))
  {
  }

  lemma ResolveOtherwise(js: Js, vals: Val, src: string)
    requires Unwrapped(Trim(src)) && FindEquality(Trim(src), 0).None?
    ensures var expr := Trim(src);
            Resolve(js, vals, src)
            == if expr[0] == '!' then Bool(!js.truthy(Resolve(js, vals, expr[1..]))) else ResolveAtom(js, vals, expr)
  {
  }

  method ResolveText(js: Js, vals: Val, src: string) returns (v: Val)
    ensures v == Resolve(js, vals, src)
    decreases |src|, 1, 0
  {
    var expr := Trim(src);
    if expr == [] { return Undefined; }
    if expr[0] == '(' && expr[|expr| - 1] == ')' {
      var whole := ParensWrapWhole(expr);
      if whole {
        ResolveWrapped(js, vals, src);
        v := ResolveText(js, vals, expr[1..|expr| - 1]);
        return;
      }
    }
    v := ResolveOperators(js, vals, src, expr);
  }

  /** The rest of the evaluator, once no parentheses wrap the whole text. */
  method ResolveOperators(js: Js, vals: Val, src: string, expr: string) returns (v: Val)
    requires expr == Trim(src) && Unwrapped(expr)
    ensures v == Resolve(js, vals, src)
    decreases |expr|, 0, |expr| + 3
  {
    var eq := FindTopLevelEquality(expr);
    if eq.Some? {
      ResolveCompares(js, vals, src);
      var op := OperatorAt(expr, eq.value);
      var l := ResolveText(js, vals, expr[..eq.value]);
      var r := ResolveText(js, vals, expr[eq.value + Width(op)..]);
      return Compare(js, op, l, r);
    }
    ResolveOtherwise(js, vals, src);
    if expr[0] == '!' {
      var inner := ResolveText(js, vals, expr[1..]);
      return Bool(!js.truthy(inner));
    }
    v := ResolveAtomText(js, vals, expr);
  }

  method ResolveAtomText(js: Js, vals: Val, expr: string) returns (v: Val)
    ensures v == ResolveAtom(js, vals, expr)
    decreases |expr|, 0, |expr| + 2
  {
    if expr == "true" { return Bool(true); }
    if expr == "false" { return Bool(false); }
    if expr == "null" { return Null; }
    if expr == "undefined" { return Undefined; }
    if NumberText(expr) { return js.number(expr); }
    if |expr| >= 2 && (expr[0] == '"' || expr[0] == '\'') && expr[|expr| - 1] == expr[0] {
      return Str(expr[1..|expr| - 1]);
    }
    v := ResolvePathText(js, vals, expr);
  }

  lemma DotStep(js: Js, vals: Val, expr: string, cur: Val, i: nat, name: string)
    requires i + 1 + |name| <= |expr| && name != []
    requires expr[i] == '.' && NameRun(expr[i + 1..]) == |name| && expr[i + 1..i + 1 + |name|] == name
    ensures PathFrom(js, vals, expr, cur, i) == PathFrom(js, vals, expr, Member(js, cur, Str(name)), i + 1 + |name|)
  {
  }

  lemma KeyStep(js: Js, vals: Val, expr: string, cur: Val, i: nat, key: string)
    requires i + 1 + |key| < |expr|
    requires expr[i] == '[' && FindClose(expr, i + 1, 1) == Some(i + 1 + |key|) && expr[i + 1..i + 1 + |key|] == key
    ensures PathFrom(js, vals, expr, cur, i)
            == PathFrom(js, vals, expr, Member(js, cur, Resolve(js, vals, key)), i + 1 + |key| + 1)
  {
  }

  /** The walk cannot go on. */
  predicate Stuck(expr: string, i: nat)
    requires i < |expr|
  {
    if expr[i] == '.' then NameRun(expr[i + 1..]) == 0
    else if expr[i] == '[' then FindClose(expr, i + 1, 1).None?
    else true
  }

  lemma StuckStep(js: Js, vals: Val, expr: string, cur: Val, i: nat)
    requires i < |expr| && Stuck(expr, i)
    ensures PathFrom(js, vals, expr, cur, i) == Undefined
  {
  }

  /** One step of the walk: a dotted name, a bracketed key, or the end of the matter. */
  method StepPath(js: Js, vals: Val, expr: string, cur: Val, i: nat) returns (next: Option<(Val, nat)>)
    requires i < |expr|
    ensures next.None? ==> PathFrom(js, vals, expr, cur, i) == Undefined
    ensures next.Some? ==> i < next.value.1 <= |expr|
                           && PathFrom(js, vals, expr, cur, i) == PathFrom(js, vals, expr, next.value.0, next.value.1)
    decreases |expr|, 0, 0
  {
    hide PathFrom, Resolve;
    if expr[i] == '.' {
      var m := NameRun(expr[i + 1..]);
      if m > 0 {
        DotStep(js, vals, expr, cur, i, expr[i + 1..i + 1 + m]);
        return Some((Member(js, cur, Str(expr[i + 1..i + 1 + m])), i + 1 + m));
      }
    } else if expr[i] == '[' {
      var close := CloseOf(expr, i + 1);
      if close.Some? {
        var j := close.value;
        var key := ResolveText(js, vals, expr[i + 1..j]);
        KeyStep(js, vals, expr, cur, i, expr[i + 1..j]);
        return Some((Member(js, cur, key), j + 1));
      }
    }
    StuckStep(js, vals, expr, cur, i);
    return None;
  }

  method ResolvePathText(js: Js, vals: Val, expr: string) returns (v: Val)
    ensures v == ResolvePath(js, vals, expr)
    decreases |expr|, 0, 1
  {
    var n := IdentRun(expr);
    if n == 0 { return Undefined; }
    var cur, i := Member(js, vals, Str(expr[..n])), n;
    while i < |expr|
      invariant 0 < i <= |expr|
      invariant ResolvePath(js, vals, expr) == PathFrom(js, vals, expr, cur, i)
      decreases |expr| - i
    {
      var next := StepPath(js, vals, expr, cur, i);
      if next.None? { return Undefined; }
      cur, i := next.value.0, next.value.1;
    }
    return cur;
  }
}
