/** Texts that are no expression: the evaluator answers undefined. */
module ExpressionBroken {
  import opened Prelude
  import opened Expression
  import opened ExpressionLoops
  import opened ExpressionPrinting
  import opened ExpressionCorrect

  lemma {:induction false} TrimBlank(pad: string)
    requires Blank(pad)
    ensures TrimStart(pad) == []
  {
    if pad != [] {
      ClassesAgree(pad[0]);
      TrimBlank(pad[1..]);
    }
  }

  /** White space and nothing else. */
  lemma BlankIsUndefined(js: Js, vals: Val, pad: string)
    requires Blank(pad)
    ensures Resolve(js, vals, pad) == Undefined
  {
    TrimBlank(pad);
  }

  /** Where the scan finds nothing in `a`, and no equals sign follows, it finds nothing at all. */
  lemma {:induction false} NoEqualsAfter(a: string, rest: string, i: nat)
    requires '=' !in rest && i <= |a + rest|
    requires i <= |a| ==> FindEquality(a, i) == None
    ensures FindEquality(a + rest, i) == None
    decreases |a + rest| - i
  {
    if i < |a + rest| {
      if i < |a| { assert (a + rest)[..i] == a[..i]; }
      if i + 1 < |a + rest| && i + 1 >= |a| { assert (a + rest)[i + 1] == rest[i + 1 - |a|]; }
      NoEqualsAfter(a, rest, i + 1);
    }
  }

  predicate Trimmed(s: string) { s != [] && !Space(s[0]) && !Space(s[|s| - 1]) }

  /** A text in quotes. */
  predicate InQuotes(s: string) { |s| >= 2 && (s[0] == '"' || s[0] == '\'') && s[|s| - 1] == s[0] }

  /** With no operator in it, a text that does not start like a name is undefined unless it is
      negated, in parentheses, a number or in quotes. */
  lemma {:induction false} HeadlessIsUndefined(js: Js, vals: Val, s: string)
    requires Trimmed(s) && '=' !in s && !Letter(s[0]) && s[0] != '!'
    requires s[0] == '(' ==> s[|s| - 1] != ')'
    requires !InQuotes(s) && forall n: Numeral :: Proper(n) ==> NumeralText(n) != s
    ensures Resolve(js, vals, s) == Undefined
  {
    assert Tight(s);
    TightTrim(s);
    assert [] + s == s;
    NoEqualsAfter([], s, 0);
    ResolveOtherwise(js, vals, s);
    NumbersAreNumerals(s);
    ClassesAgree(s[0]);
    assert IdentRun(s) == 0;
    NoWord(s);
  }

  lemma NoWord(s: string)
    requires s != [] && !Letter(s[0])
    ensures s != "true" && s != "false" && s != "null" && s != "undefined"
  {
  }

  /** What a path cannot go on with: a dot with no name after it, a bracket that is never closed, or
      anything but a dot or a bracket. */
  predicate Breaks(rest: string) {
    && rest != [] && Stops(rest)
    && (rest[0] == '.' ==> |rest| == 1 || (!Letter(rest[1]) && !Digit(rest[1])))
    && (rest[0] == '[' ==> forall i :: 1 <= i <= |rest| ==> Net('[', ']', rest[..i]) > 0)
  }

  lemma {:induction false} NeverCloses(t: string, i: nat, rest: string, j: nat)
    requires i <= |t| && t[i..] == rest && 1 <= j <= |rest|
    requires forall k :: 1 <= k <= |rest| ==> Net('[', ']', rest[..k]) > 0
    ensures FindClose(t, i + j, Net('[', ']', rest[..j])) == None
    decreases |rest| - j
  {
    if j < |rest| {
      assert t[i + j] == rest[j];
      assert rest[..j + 1][..j] == rest[..j];
      NeverCloses(t, i, rest, j + 1);
    }
  }

  lemma BreakStops(js: Js, vals: Val, t: string, cur: Val, i: nat)
    requires i < |t| && Breaks(t[i..])
    ensures PathFrom(js, vals, t, cur, i) == Undefined
  {
    var rest := t[i..];
    assert rest[0] == t[i];
    if t[i] == '.' {
      NameStops(t, i);
    } else if t[i] == '[' {
      NeverCloses(t, i, rest, 1);
      assert rest[..1] == "[";
      assert Net('[', ']', "[") == 1 by { assert "["[..0] == []; }
    }
    StuckStep(js, vals, t, cur, i);
  }

  lemma NameStops(t: string, i: nat)
    requires i < |t| && Breaks(t[i..]) && t[i] == '.'
    ensures NameRun(t[i + 1..]) == 0
  {
    if i + 1 < |t| {
      assert t[i..][1] == t[i + 1];
      ClassesAgree(t[i + 1]);
    }
  }

  /** A path that breaks off is undefined as a whole, wherever it got to. */
  lemma {:induction false} BrokenPathIsUndefined(js: Js, vals: Val, root: string, segs: seq<Seg>, rest: string)
    requires Identifier(root) && WritableSegs(segs) && Breaks(rest)
    requires '=' !in rest && !Space(rest[|rest| - 1])
    ensures Resolve(js, vals, root + PrintSegs(segs) + rest) == Undefined
  {
    hide Resolve, PathFrom, FindEquality, Depth;
    var path := root + PrintSegs(segs);
    var s := path + rest;
    SegsBalanced(segs);
    PathShape(root, PrintSegs(segs));
    NoEqualsAfter(path, rest, 0);
    assert s[0] == root[0] && s[|s| - 1] == rest[|rest| - 1];
    FirstLetter(root[0]);
    AtomResolves(js, vals, s);
    BrokenHead(root, segs, rest);
    AtomIsPath(js, vals, s, root);
    BrokenWalk(js, vals, root, segs, rest);
  }

  lemma FirstLetter(c: char)
    requires Letter(c)
    ensures IdentStart(c) && !IsSpace(c) && c != '(' && c != '!'
  {
  }

  lemma BrokenHead(root: string, segs: seq<Seg>, rest: string)
    requires Identifier(root) && Breaks(rest)
    ensures var s := root + PrintSegs(segs) + rest;
            && s != [] && IdentStart(s[0]) && IdentRun(s) == |root| && s[..|root|] == root
            && s != "true" && s != "false" && s != "null" && s != "undefined"
  {
    hide PrintSegs, Breaks;
    var s := root + PrintSegs(segs) + rest;
    Regroup(root, PrintSegs(segs), rest);
    BreakIsStop(rest);
    TailStops(segs, rest);
    IdentRunWhole(root, PrintSegs(segs) + rest);
    HasOther(s, |s| - |rest|);
  }

  lemma BreakIsStop(rest: string)
    requires Breaks(rest)
    ensures Stops(rest) && rest != [] && !Letter(rest[0])
  {
  }

  /** The keywords are all letters. */
  lemma HasOther(s: string, i: nat)
    requires i < |s| && !Letter(s[i])
    ensures s != "true" && s != "false" && s != "null" && s != "undefined"
  {
  }

  lemma {:induction false} BrokenWalk(js: Js, vals: Val, root: string, segs: seq<Seg>, rest: string)
    requires WritableSegs(segs) && Breaks(rest)
    ensures var s := root + PrintSegs(segs) + rest;
            PathFrom(js, vals, s, Member(js, vals, Str(root)), |root|) == Undefined
  {
    hide PathFrom, PrintSegs, Breaks;
    var s := root + PrintSegs(segs) + rest;
    var start := Member(js, vals, Str(root));
    Regroup(root, PrintSegs(segs), rest);
    BreakIsStop(rest);
    assert s[|root|..] == PrintSegs(segs) + rest;
    PathPrinted(js, vals, s, |root|, start, segs, rest);
    BreakStops(js, vals, s, EvalSegs(js, vals, start, segs), |root| + |PrintSegs(segs)|);
  }

  // ---------- an operator with nothing before it ----------

  /** One or two equals signs in front of an expression make no comparison. */
  lemma SignsFindNone(signs: string, p: string)
    requires (signs == "=" || signs == "==") && Shaped(p) && FindEquality(p, 0) == None
    ensures FindEquality(signs + p, 0) == None
  {
    hide FindEquality, Depth;
    var s := signs + p;
    DepthPlain(Both, signs);
    NotFindsNone(signs, p, 0);
    assert s[..0] == [] && s[0] == '=';
    if |signs| == 2 {
      assert s[1] == '=' && !TopLevelEquality(s, 1);
      FoundLater(s, 1);
    }
    assert !TopLevelEquality(s, 0);
    FoundLater(s, 0);
  }

  lemma FoundLater(s: string, i: nat)
    requires i < |s| && !TopLevelEquality(s, i)
    ensures FindEquality(s, i) == FindEquality(s, i + 1)
  {
  }

  lemma SignsAreUndefined(js: Js, vals: Val, signs: string, p: string)
    requires (signs == "=" || signs == "==") && Shaped(p) && FindEquality(p, 0) == None
    ensures Resolve(js, vals, signs + p) == Undefined
  {
    var s := signs + p;
    SignsFindNone(signs, p);
    assert s[0] == '=' && s[|s| - 1] == p[|p| - 1];
    TightTrim(s);
    ResolveOtherwise(js, vals, s);
    NoWord(s);
    assert DigitRun(s) == 0 && IdentRun(s) == 0;
  }

  /** A comparison with nothing on its left is none: `==a` and `===a` are undefined, `!=a` and
      `!==a` negate that. */
  lemma {:induction false} LeadingOperator(js: Js, vals: Val, op: Operator, e: Expr)
    requires Writable(e) && !e.Equality?
    ensures Resolve(js, vals, OperatorText(op) + Print(e))
            == if op.negated then Bool(!js.truthy(Undefined)) else Undefined
  {
    hide Resolve, FindEquality, Print, Writable;
    var p := Print(e);
    PrintBalanced(e);
    var more := if op.strict then "==" else "=";
    if op.negated {
      assert OperatorText(op) + p == "!" + (more + p);
      SignsAreUndefined(js, vals, more, p);
      NegatedSigns(js, vals, more, p);
    } else if op.strict {
      assert OperatorText(op) == "===";
      EqualsSigns(js, vals, p);
    } else {
      assert OperatorText(op) == "==";
      SignsAreUndefined(js, vals, "==", p);
    }
  }

  lemma NegatedSigns(js: Js, vals: Val, signs: string, p: string)
    requires (signs == "=" || signs == "==") && Shaped(p) && FindEquality(p, 0) == None
    ensures Resolve(js, vals, "!" + (signs + p)) == Bool(!js.truthy(Resolve(js, vals, signs + p)))
  {
    hide Resolve, FindEquality, Depth;
    var s := "!" + (signs + p);
    DepthPlain(Both, "!" + signs);
    assert s == ("!" + signs) + p;
    NotFindsNone("!" + signs, p, 0);
    if |signs| == 2 { FoundLater(s, 2); }
    FoundLater(s, 1);
    assert s[..0] == [];
    FoundLater(s, 0);
    assert s[0] == '!' && s[|s| - 1] == p[|p| - 1];
    NegatesRest(js, vals, s, signs + p);
  }

  lemma EqualsSigns(js: Js, vals: Val, p: string)
    requires Shaped(p) && FindEquality(p, 0) == None
    ensures Resolve(js, vals, "===" + p) == Undefined
  {
    hide FindEquality, Depth;
    var s := "===" + p;
    DepthPlain(Both, "===");
    NotFindsNone("===", p, 0);
    FoundLater(s, 2);
    FoundLater(s, 1);
    assert s[..0] == [];
    FoundLater(s, 0);
    assert s[0] == '=' && s[|s| - 1] == p[|p| - 1];
    TightTrim(s);
    ResolveOtherwise(js, vals, s);
    NoWord(s);
    assert DigitRun(s) == 0 && IdentRun(s) == 0;
  }
}
