/** Evaluating the written form of an expression tree gives the meaning of the tree. */
module ExpressionCorrect {
  import opened Prelude
  import opened Expression
  import opened ExpressionLoops
  import opened ExpressionPrinting

  // ---------- parentheses ----------

  lemma ParensWrap(left: string, s: string, right: string)
    requires Blank(left) && Blank(right) && BalancedAll(s)
    ensures WrapWhole(Parens(left, s, right))
  {
    var inner, t := left + s + right, Parens(left, s, right);
    PaddedBalanced(left, s, right);
    forall i | 0 <= i < |t| - 1 && t[i] == ')' ensures Depth(Round, t[..i + 1]) != 0 {
      WrapDepth(Round, '(', inner, ')', i + 1);
    }
  }

  /** Parentheses and white space around a text make no difference. */
  lemma ParensTransparent(js: Js, vals: Val, left: string, s: string, right: string)
    requires Blank(left) && Blank(right) && BalancedAll(s) && Tight(s)
    ensures Resolve(js, vals, Parens(left, s, right)) == Resolve(js, vals, s)
  {
    var t := Parens(left, s, right);
    ParensWrap(left, s, right);
    TightTrim(t);
    ResolveWrapped(js, vals, t);
    assert t[1..|t| - 1] == left + s + right;
    ResolveTrimmed(js, vals, left, s, right);
  }

  // ---------- literals ----------

  lemma AtomResolves(js: Js, vals: Val, s: string)
    requires Tight(s) && s[0] != '(' && s[0] != '!' && FindEquality(s, 0) == None
    ensures Resolve(js, vals, s) == ResolveAtom(js, vals, s)
  {
    TightTrim(s);
    ResolveOtherwise(js, vals, s);
  }

  lemma WordResolves(js: Js, vals: Val, w: Word)
    ensures Resolve(js, vals, WordText(w)) == Eval(js, vals, Literal(w))
  {
    PlainShape(WordText(w));
    AtomResolves(js, vals, WordText(w));
  }

  lemma NotWord(s: string)
    requires s != [] && s[0] != 't' && s[0] != 'f' && s[0] != 'n' && s[0] != 'u'
    ensures s != "true" && s != "false" && s != "null" && s != "undefined"
  {
  }

  lemma NumberResolves(js: Js, vals: Val, text: string)
    requires NumberText(text)
    ensures Resolve(js, vals, text) == js.number(text)
  {
    NumberChars(text);
    PlainShape(text);
    AtomResolves(js, vals, text);
    NotWord(text);
  }

  /** A quoted text is read as itself exactly when it holds no operator outside brackets: the scan
      does not know about quotes. */
  lemma {:induction false} QuotedIffNoEquality(js: Js, vals: Val, quote: char, body: string)
    requires quote == '"' || quote == '\''
    ensures var s := [quote] + body + [quote];
            Resolve(js, vals, s) == Str(body) <==> NoOperator(body)
  {
    var s := [quote] + body + [quote];
    QuotedScan(quote, body);
    assert s[1..|s| - 1] == body;
    TightTrim(s);
    if FindEquality(s, 0) == None {
      AtomResolves(js, vals, s);
      NotWord(s);
      assert DigitRun(s) == 0;
    } else {
      ResolveCompares(js, vals, s);
    }
  }

  /** So `"a==b"` is not a string but a comparison of two broken paths. */
  lemma {:induction false} QuotedEqualityMisread(js: Js, vals: Val)
    ensures Resolve(js, vals, "\"a==b\"") == Bool(js.looseEq(Undefined, Undefined))
  {
    var a, rest := "\"a", "==b\"";
    var s := "\"a==b\"";
    assert s == a + rest;
    PlainShape(a);
    DepthPlain(Both, a);
    TightTrim(a);
    ScanPast(a, rest, 0);
    TightTrim(s);
    ResolveCompares(js, vals, s);
    assert s[..2] == a && s[4..] == "b\"";
    BrokenLeft(js, vals);
    BrokenRight(js, vals);
  }

  lemma BrokenLeft(js: Js, vals: Val)
    ensures Resolve(js, vals, "\"a") == Undefined
  {
    PlainShape("\"a");
    AtomResolves(js, vals, "\"a");
    NotWord("\"a");
    assert DigitRun("\"a") == 0;
  }

  lemma BrokenRight(js: Js, vals: Val)
    ensures Resolve(js, vals, "b\"") == Undefined
  {
    var s := "b\"";
    PlainShape(s);
    AtomResolves(js, vals, s);
    assert DigitRun(s) == 0;
    assert PartRun(s[1..]) == 0;
  }

  // ---------- paths ----------

  /** What may come after a name: nothing that would prolong it. */
  predicate Stops(rest: string) { rest != [] ==> !Letter(rest[0]) && !Digit(rest[0]) }

  lemma {:induction false} PartRunWhole(name: string, rest: string)
    requires Stops(rest) && forall i :: 0 <= i < |name| ==> IdentPart(name[i])
    ensures PartRun(name + rest) == |name|
  {
    if name == [] {
      assert name + rest == rest;
    } else {
      assert (name + rest)[1..] == name[1..] + rest;
      PartRunWhole(name[1..], rest);
    }
  }

  lemma {:induction false} DigitRunWhole(name: string, rest: string)
    requires Stops(rest) && forall i :: 0 <= i < |name| ==> IsDigit(name[i])
    ensures DigitRun(name + rest) == |name|
  {
    if name == [] {
      assert name + rest == rest;
    } else {
      assert (name + rest)[1..] == name[1..] + rest;
      DigitRunWhole(name[1..], rest);
    }
  }

  lemma IdentRunWhole(name: string, rest: string)
    requires Identifier(name) && Stops(rest)
    ensures IdentRun(name + rest) == |name|
  {
    assert (name + rest)[1..] == name[1..] + rest;
    PartRunWhole(name[1..], rest);
  }

  lemma NameRunWhole(name: string, rest: string)
    requires (Identifier(name) || Digits(name)) && Stops(rest)
    ensures NameRun(name + rest) == |name|
  {
    if Identifier(name) {
      IdentRunWhole(name, rest);
    } else {
      DigitRunWhole(name, rest);
      assert (name + rest)[0] == name[0];
    }
  }

  /** `part` is what `t` has from `i` on. */
  predicate Here(t: string, i: nat, part: string) {
    i + |part| <= |t| && t[i..i + |part|] == part
  }

  /** The bracket opened just before `inner` is closed just after it. */
  lemma {:induction false} CloseAfter(t: string, i: nat, inner: string, j: nat)
    requires Here(t, i, inner) && i + |inner| < |t| && t[i + |inner|] == ']'
    requires Balanced(Square, inner) && j <= |inner|
    ensures Depth(Square, inner[..j]) >= 0
    ensures FindClose(t, i + j, 1 + Depth(Square, inner[..j])) == Some(i + |inner|)
    decreases |inner| - j
  {
    if j < |inner| {
      assert t[i..i + |inner|][j] == inner[j];
      DepthStep(Square, inner, j);
      CloseAfter(t, i, inner, j + 1);
    } else {
      assert inner[..j] == inner;
    }
  }

  lemma {:induction false} SegsStop(segs: seq<Seg>)
    ensures Stops(PrintSegs(segs))
    ensures segs != [] ==> PrintSegs(segs) != [] && (PrintSegs(segs)[0] == '.' || PrintSegs(segs)[0] == '[')
  {
    if segs != [] { assert PrintSeg(segs[0]) != []; }
  }

  /** Evaluating the written form of a tree gives the value of the tree, whatever white space is
      written where it is allowed. */
  lemma {:induction false} ResolvePrinted(js: Js, vals: Val, e: Expr)
    requires Writable(e)
    ensures Resolve(js, vals, Print(e)) == Eval(js, vals, e)
    decreases e, 1
  {
    match e {
      case Literal(w) => WordResolves(js, vals, w);
      case Number(numeral) =>
        NumeralIsNumber(numeral);
        NumberResolves(js, vals, NumeralText(numeral));
      case Quoted(quote, body) => QuotedIffNoEquality(js, vals, quote, body);
      case Path(root, segs) =>
        PathAtom(js, vals, root, segs);
        WholePath(js, vals, root, segs);
      case Not(x) =>
        ResolvePrinted(js, vals, x.e);
        NotResolves(js, vals, x);
      case Equality(op, l, r) =>
        ResolvePrinted(js, vals, l.e);
        ResolvePrinted(js, vals, r.e);
        EqualityResolves(js, vals, op, l, r);
    }
  }

  lemma {:induction false} WholePath(js: Js, vals: Val, root: string, segs: seq<Seg>)
    requires WritableSegs(segs)
    ensures PathFrom(js, vals, root + PrintSegs(segs), Member(js, vals, Str(root)), |root|)
            == EvalSegs(js, vals, Property(js, vals, Str(root)), segs)
    decreases segs, 1
  {
    hide PathFrom, Resolve, Eval, EvalSeg, Print, PrintSeg, WritableSeg;
    var t := root + PrintSegs(segs);
    var start := Member(js, vals, Str(root));
    assert t[|root|..] == PrintSegs(segs) + "";
    PathPrinted(js, vals, t, |root|, start, segs, "");
    PathEnds(js, vals, t, EvalSegs(js, vals, start, segs));
    SameMember(js, vals, Str(root));
  }

  lemma SameMember(js: Js, v: Val, key: Val)
    ensures Member(js, v, key) == Property(js, v, key)
  {
  }

  lemma ResolvePadded(js: Js, vals: Val, before: string, e: Expr, after: string)
    requires Blank(before) && Blank(after) && Writable(e)
    ensures Resolve(js, vals, before + Print(e) + after) == Eval(js, vals, e)
  {
    PrintBalanced(e);
    ResolveTrimmed(js, vals, before, Print(e), after);
    ResolvePrinted(js, vals, e);
  }

  /** The walk from any place where the text goes on with `segs` as written. */
  lemma {:induction false} PathPrinted(js: Js, vals: Val, t: string, i: nat, cur: Val, segs: seq<Seg>, rest: string)
    requires WritableSegs(segs) && Stops(rest)
    requires i <= |t| && t[i..] == PrintSegs(segs) + rest
    ensures i + |PrintSegs(segs)| <= |t| && t[i + |PrintSegs(segs)|..] == rest
    ensures PathFrom(js, vals, t, cur, i)
            == PathFrom(js, vals, t, EvalSegs(js, vals, cur, segs), i + |PrintSegs(segs)|)
    decreases segs, 0
  {
    hide PathFrom, Resolve, Eval, EvalSeg, Print, PrintSeg, WritableSeg;
    if segs != [] {
      SegsCut(t, i, segs, rest);
      SegPrinted(js, vals, t, i, cur, segs[0]);
      PathPrinted(js, vals, t, i + |PrintSeg(segs[0])|, EvalSeg(js, vals, cur, segs[0]), segs[1..], rest);
    }
  }

  lemma PathEnds(js: Js, vals: Val, t: string, cur: Val)
    ensures PathFrom(js, vals, t, cur, |t|) == cur
  {
  }

  lemma SegsCut(t: string, i: nat, segs: seq<Seg>, rest: string)
    requires segs != [] && i <= |t| && t[i..] == PrintSegs(segs) + rest && Stops(rest)
    ensures Here(t, i, PrintSeg(segs[0]))
    ensures t[i + |PrintSeg(segs[0])|..] == PrintSegs(segs[1..]) + rest
    ensures Stops(t[i + |PrintSeg(segs[0])|..])
  {
    hide Stops, PrintSeg;
    Regroup(PrintSeg(segs[0]), PrintSegs(segs[1..]), rest);
    Cut(t, i, PrintSeg(segs[0]), PrintSegs(segs[1..]) + rest);
    TailStops(segs[1..], rest);
  }

  lemma Regroup(a: string, b: string, c: string)
    ensures (a + b) + c == a + (b + c)
  {
  }

  lemma TailStops(segs: seq<Seg>, rest: string)
    requires Stops(rest)
    ensures Stops(PrintSegs(segs) + rest)
  {
    hide PrintSegs;
    SegsStop(segs);
    if segs == [] { NoSegs(rest); }
  }

  lemma NoSegs(rest: string)
    ensures PrintSegs([]) + rest == rest
  {
  }

  lemma Cut(t: string, i: nat, first: string, rest: string)
    requires i <= |t| && t[i..] == first + rest
    ensures Here(t, i, first) && t[i + |first|..] == rest
  {
    assert t[i..i + |first|] == t[i..][..|first|];
    assert t[i + |first|..] == t[i..][|first|..];
  }

  /** One segment of the walk. */
  lemma {:induction false} SegPrinted(js: Js, vals: Val, t: string, i: nat, cur: Val, seg: Seg)
    requires WritableSeg(seg)
    requires Here(t, i, PrintSeg(seg)) && Stops(t[i + |PrintSeg(seg)|..])
    ensures PathFrom(js, vals, t, cur, i)
            == PathFrom(js, vals, t, EvalSeg(js, vals, cur, seg), i + |PrintSeg(seg)|)
    decreases seg, 2
  {
    hide PathFrom, Resolve;
    match seg {
      case Dot(name) => DotPrinted(js, vals, t, i, cur, name);
      case Key(left, key, right) =>
        ResolvePrinted(js, vals, key);
        KeyReads(js, vals, t, i, cur, left, key, right);
    }
  }

  lemma KeyReads(js: Js, vals: Val, t: string, i: nat, cur: Val, left: string, key: Expr, right: string)
    requires Blank(left) && Blank(right) && Writable(key) && Here(t, i, PrintSeg(Key(left, key, right)))
    ensures PathFrom(js, vals, t, cur, i)
            == PathFrom(js, vals, t, Member(js, cur, Resolve(js, vals, Print(key))),
              i + |PrintSeg(Key(left, key, right))|)
  {
    hide PathFrom, Resolve, Print, Writable;
    KeyText(left, key, right);
    KeyPrinted(js, vals, t, i, cur, left + Print(key) + right, Print(key));
  }

  lemma DotPrinted(js: Js, vals: Val, t: string, i: nat, cur: Val, name: string)
    requires Identifier(name) || Digits(name)
    requires Here(t, i, ['.'] + name) && Stops(t[i + |['.'] + name|..])
    ensures PathFrom(js, vals, t, cur, i) == PathFrom(js, vals, t, Member(js, cur, Str(name)), i + |['.'] + name|)
  {
    hide PathFrom, NameRun;
    DotText(t, i, name);
    DotStep(js, vals, t, cur, i, name);
  }

  lemma KeyPrinted(js: Js, vals: Val, t: string, i: nat, cur: Val, inner: string, p: string)
    requires Balanced(Square, inner) && Trim(inner) == Trim(p)
    requires Here(t, i, ['['] + inner + [']'])
    ensures PathFrom(js, vals, t, cur, i)
            == PathFrom(js, vals, t, Member(js, cur, Resolve(js, vals, p)), i + |['['] + inner + [']']|)
  {
    hide PathFrom, Resolve;
    BracketText(t, i, inner);
    KeyStep(js, vals, t, cur, i, inner);
    SameTrim(js, vals, inner, p);
  }

  lemma DotText(t: string, i: nat, name: string)
    requires Identifier(name) || Digits(name)
    requires Here(t, i, ['.'] + name) && Stops(t[i + |['.'] + name|..])
    ensures t[i] == '.' && NameRun(t[i + 1..]) == |name| && t[i + 1..i + 1 + |name|] == name
  {
    var s := ['.'] + name;
    assert t[i] == s[0];
    assert t[i + 1..i + 1 + |name|] == s[1..] == name;
    assert t[i + 1..] == name + t[i + |s|..];
    NameRunWhole(name, t[i + |s|..]);
  }

  lemma BracketText(t: string, i: nat, inner: string)
    requires Balanced(Square, inner) && Here(t, i, ['['] + inner + [']'])
    ensures t[i] == '[' && FindClose(t, i + 1, 1) == Some(i + 1 + |inner|) && t[i + 1..i + 1 + |inner|] == inner
  {
    Bracketed(t, i, inner);
    CloseAfter(t, i + 1, inner, 0);
  }

  lemma Bracketed(t: string, i: nat, inner: string)
    requires Here(t, i, ['['] + inner + [']'])
    ensures t[i] == '[' && Here(t, i + 1, inner) && i + 1 + |inner| < |t| && t[i + 1 + |inner|] == ']'
  {
    var s := ['['] + inner + [']'];
    assert t[i] == s[0];
    assert t[i + 1 + |inner|] == s[1 + |inner|];
    forall k | 0 <= k < |inner| ensures t[i + 1 + k] == inner[k] {
      assert t[i + 1 + k] == t[i..i + |s|][1 + k] == s[1 + k];
    }
  }

  lemma KeyText(left: string, key: Expr, right: string)
    requires Blank(left) && Blank(right) && Writable(key)
    ensures var inner := left + Print(key) + right;
            Trim(inner) == Trim(Print(key)) && Balanced(Square, inner)
  {
    PrintBalanced(key);
    PaddedBalanced(left, Print(key), right);
    PadTrim(left, Print(key), right);
    TightTrim(Print(key));
  }

  /** A written path is read as a path. */
  lemma PathAtom(js: Js, vals: Val, root: string, segs: seq<Seg>)
    requires Writable(Path(root, segs))
    ensures var s := root + PrintSegs(segs);
            Resolve(js, vals, s) == PathFrom(js, vals, s, Member(js, vals, Str(root)), |root|)
  {
    var s := root + PrintSegs(segs);
    PathText(root, segs);
    AtomResolves(js, vals, s);
    AtomIsPath(js, vals, s, root);
  }

  lemma AtomIsPath(js: Js, vals: Val, s: string, root: string)
    requires s != "true" && s != "false" && s != "null" && s != "undefined"
    requires s != [] && IdentStart(s[0]) && IdentRun(s) == |root| && s[..|root|] == root
    ensures ResolveAtom(js, vals, s) == PathFrom(js, vals, s, Member(js, vals, Str(root)), |root|)
  {
    assert DigitRun(s) == 0;
  }

  lemma PathText(root: string, segs: seq<Seg>)
    requires Writable(Path(root, segs))
    ensures var s := root + PrintSegs(segs);
            && Tight(s) && FindEquality(s, 0) == None
            && IdentStart(s[0]) && IdentRun(s) == |root| && s[..|root|] == root
            && s != "true" && s != "false" && s != "null" && s != "undefined"
  {
    var tail := PrintSegs(segs);
    SegsBalanced(segs);
    SegsStop(segs);
    PathShape(root, tail);
    PathNotWord(root, tail, segs);
    IdentRunWhole(root, tail);
  }

  lemma PathNotWord(root: string, tail: string, segs: seq<Seg>)
    requires Writable(Path(root, segs)) && tail == PrintSegs(segs) && Stops(tail)
    ensures var s := root + tail; s != "true" && s != "false" && s != "null" && s != "undefined"
  {
    var s := root + tail;
    if segs == [] {
      assert s == root;
    } else {
      assert PrintSeg(segs[0]) != [];
      assert s[|root|] == '.' || s[|root|] == '[';
      LettersOnly(s, |root|);
    }
  }

  lemma LettersOnly(s: string, i: nat)
    requires i < |s| && (s[i] == '.' || s[i] == '[')
    ensures s != "true" && s != "false" && s != "null" && s != "undefined"
  {
  }

  // ---------- operators ----------

  lemma NotResolves(js: Js, vals: Val, x: Operand)
    requires WritableOperand(x) && Closed(x) && Resolve(js, vals, Print(x.e)) == Eval(js, vals, x.e)
    ensures Resolve(js, vals, Print(Not(x))) == Eval(js, vals, Not(x))
  {
    hide Resolve, FindEquality, Depth;
    NotText(x);
    NegatesRest(js, vals, "!" + (x.gap + OperandText(x)), x.gap + OperandText(x));
    SameTrim(js, vals, x.gap + OperandText(x), OperandText(x));
    OperandResolves(js, vals, x);
  }

  lemma NotText(x: Operand)
    requires WritableOperand(x) && Closed(x)
    ensures var s := "!" + (x.gap + OperandText(x));
            Tight(s) && FindEquality(s, 0) == None && Trim(x.gap + OperandText(x)) == Trim(OperandText(x))
  {
    hide Depth, FindEquality;
    OperandShape(x);
    NotShape(x.gap, OperandText(x));
    TrimLeft(x.gap, OperandText(x));
  }

  lemma NegatesRest(js: Js, vals: Val, s: string, rest: string)
    requires s == "!" + rest && Tight(s) && FindEquality(s, 0) == None
    ensures Resolve(js, vals, s) == Bool(!js.truthy(Resolve(js, vals, rest)))
  {
    TightTrim(s);
    ResolveOtherwise(js, vals, s);
    assert s[1..] == rest;
  }

  lemma EqualityResolves(js: Js, vals: Val, op: Operator, l: Operand, r: Operand)
    requires Writable(Equality(op, l, r))
    requires Resolve(js, vals, Print(l.e)) == Eval(js, vals, l.e)
    requires Resolve(js, vals, Print(r.e)) == Eval(js, vals, r.e)
    ensures Resolve(js, vals, Print(Equality(op, l, r))) == Eval(js, vals, Equality(op, l, r))
  {
    hide Resolve, Print;
    EqualityReads(js, vals, op, l, r);
    OperandResolves(js, vals, l);
    OperandResolves(js, vals, r);
  }

  lemma EqualityReads(js: Js, vals: Val, op: Operator, l: Operand, r: Operand)
    requires Writable(Equality(op, l, r))
    ensures Resolve(js, vals, Print(Equality(op, l, r)))
            == Compare(js, op, Resolve(js, vals, OperandText(l)), Resolve(js, vals, OperandText(r)))
  {
    hide Resolve, Print;
    EqualityParts(op, l, r);
    ComparesParts(js, vals, Print(Equality(op, l, r)), OperandText(l) + l.gap, op, r.gap + OperandText(r),
                  OperandText(l), OperandText(r));
  }

  lemma EqualityParts(op: Operator, l: Operand, r: Operand)
    requires Writable(Equality(op, l, r))
    ensures var pl, pr := OperandText(l), OperandText(r);
            && SplitsInto(Print(Equality(op, l, r)), pl + l.gap, op, r.gap + pr)
            && Trim(pl + l.gap) == Trim(pl) && Trim(r.gap + pr) == Trim(pr)
  {
    hide Trim, FindEquality, SplitsInto, OperandText, Shaped;
    OperandShape(l);
    OperandShape(r);
    LeftOpens(l);
    TextParts(OperandText(l), l.gap, op, r.gap, OperandText(r));
  }

  lemma TextParts(pl: string, gap: string, op: Operator, gap': string, pr: string)
    requires Blank(gap) && Blank(gap') && Shaped(pl) && Shaped(pr)
    requires FindEquality(pl, 0) == None && (pl[0] == '(' ==> pl[|pl| - 1] == ')')
    ensures SplitsInto((pl + gap) + (OperatorText(op) + (gap' + pr)), pl + gap, op, gap' + pr)
    ensures Trim(pl + gap) == Trim(pl) && Trim(gap' + pr) == Trim(pr)
  {
    hide Depth, Trim, FindEquality, WrapWhole, OperatorText;
    var right := gap' + pr;
    RightSide(gap', pr);
    OperatorThere(pl + gap, op, right);
    LeftSide(pl, gap, OperatorText(op) + right);
  }

  lemma OperandResolves(js: Js, vals: Val, x: Operand)
    requires WritableOperand(x)
    ensures Resolve(js, vals, OperandText(x)) == Resolve(js, vals, Print(x.e))
  {
    if x.Wrapped? {
      hide Resolve;
      PrintBalanced(x.e);
      ParensTransparent(js, vals, x.left, Print(x.e), x.right);
    }
  }

  /** `s` is read as a comparison of the two texts around the operator. */
  predicate SplitsInto(s: string, left: string, op: Operator, right: string) {
    && Trim(s) == s && Unwrapped(s)
    && FindEquality(s, 0) == Some(|left|)
    && |left| + Width(op) <= |s|
    && OperatorAt(s, |left|) == op
    && s[..|left|] == left
    && s[|left| + Width(op)..] == right
  }

  lemma ComparesParts(js: Js, vals: Val, s: string, left: string, op: Operator, right: string, l: string, r: string)
    requires SplitsInto(s, left, op, right) && Trim(left) == Trim(l) && Trim(right) == Trim(r)
    ensures Resolve(js, vals, s) == Compare(js, op, Resolve(js, vals, l), Resolve(js, vals, r))
  {
    ResolveCompares(js, vals, s);
    SameTrim(js, vals, left, l);
    SameTrim(js, vals, right, r);
  }

  lemma SameTrim(js: Js, vals: Val, a: string, b: string)
    requires Trim(a) == Trim(b)
    ensures Resolve(js, vals, a) == Resolve(js, vals, b)
  {
    hide ResolveAtom, FindEquality, WrapWhole, Trim;
  }

  /** The left operand, up to the operator. */
  lemma LeftSide(pl: string, gap: string, rest: string)
    requires Blank(gap) && Shaped(pl) && FindEquality(pl, 0) == None && (pl[0] == '(' ==> pl[|pl| - 1] == ')')
    requires |rest| >= 2 && EqualitySign(rest[0]) && rest[1] == '=' && !IsSpace(rest[|rest| - 1])
    ensures var s := (pl + gap) + rest;
            Trim(s) == s && Unwrapped(s) && FindEquality(s, 0) == Some(|pl + gap|) && Trim(pl + gap) == Trim(pl)
  {
    hide FindEquality, Depth, WrapWhole;
    LeftScans(gap, pl, rest);
    LeftUnwrapped(pl, gap, rest);
  }

  /** Only a wrapped operand starts with a parenthesis. */
  lemma LeftOpens(l: Operand)
    requires WritableOperand(l) && Closed(l)
    ensures OperandText(l) != [] && (OperandText(l)[0] == '(' ==> OperandText(l)[|OperandText(l)| - 1] == ')')
  {
    if l.Bare? { BareOpens(l.e); }
  }

  lemma BareOpens(e: Expr)
    requires Writable(e) && !e.Equality?
    ensures Print(e) != [] && Print(e)[0] != '('
  {
    match e
    case Number(numeral) =>
      NumeralIsNumber(numeral);
      NumberChars(NumeralText(numeral));
    case _ =>
  }

  lemma LeftScans(pad: string, pl: string, rest: string)
    requires Blank(pad) && Depth(Both, pl) == 0 && FindEquality(pl, 0) == None && Tight(pl) && Joinable(pl)
    requires |rest| >= 2 && EqualitySign(rest[0]) && rest[1] == '='
    ensures FindEquality((pl + pad) + rest, 0) == Some(|pl + pad|) && Trim(pl + pad) == Trim(pl)
  {
    OperandPadded(pad, pl);
    TightTrim(pl);
    ScanPast(pl + pad, rest, 0);
  }

  lemma LeftUnwrapped(pl: string, pad: string, rest: string)
    requires Depth(Round, pl) == 0 && Tight(pl) && (pl[0] == '(' ==> pl[|pl| - 1] == ')')
    requires rest != [] && !IsSpace(rest[|rest| - 1])
    ensures var s := (pl + pad) + rest; Trim(s) == s && Unwrapped(s)
  {
    var s := (pl + pad) + rest;
    assert s[0] == pl[0] && s[|s| - 1] == rest[|rest| - 1];
    TightTrim(s);
    assert s[..|pl|] == pl;
    if pl[0] == '(' { NotWhole(pl, s); }
  }

  lemma RightSide(gap: string, pr: string)
    requires Blank(gap) && Shaped(pr)
    ensures var right := gap + pr;
            Trim(right) == Trim(pr) && right != [] && right[0] != '=' && !IsSpace(right[|right| - 1])
  {
    TrimLeft(gap, pr);
    assert (gap + pr)[0] == if gap == [] then pr[0] else gap[0];
  }

  lemma OperatorThere(left: string, op: Operator, right: string)
    requires right != [] && right[0] != '='
    ensures var s := left + (OperatorText(op) + right);
            && |left| + Width(op) <= |s|
            && OperatorAt(s, |left|) == op && s[..|left|] == left && s[|left| + Width(op)..] == right
    ensures var rest := OperatorText(op) + right;
            |rest| >= 2 && EqualitySign(rest[0]) && rest[1] == '=' && rest[|rest| - 1] == right[|right| - 1]
  {
    var rest := OperatorText(op) + right;
    assert |OperatorText(op)| == Width(op);
    assert !op.strict ==> rest[2] == right[0];
  }

  lemma TrimLeft(pad: string, r: string)
    requires Blank(pad) && Tight(r)
    ensures Trim(pad + r) == Trim(r) == r
  {
    PadTrim(pad, r, []);
    assert pad + r + [] == pad + r;
    TightTrim(r);
  }

  /** Parentheses that close before the end do not wrap the whole. */
  lemma NotWhole(pl: string, s: string)
    requires Depth(Round, pl) == 0 && pl != [] && pl[|pl| - 1] == ')'
    requires |pl| < |s| && s[..|pl|] == pl
    ensures !WrapWhole(s)
  {
    var i := |pl| - 1;
    assert s[i] == s[..|pl|][i] == ')';
    assert Depth(Round, s[..i + 1]) == 0;
  }

  // ---------- without parentheses ----------

  lemma BareEquality(op: Operator, a: Expr, b: Expr)
    requires Writable(a) && Writable(b) && !a.Equality?
    ensures var e := Equality(op, Bare("", a), Bare("", b));
            Writable(e) && Print(e) == Print(a) + (OperatorText(op) + Print(b))
  {
    hide OperatorText;
    assert WritableOperand(Bare("", a)) && WritableOperand(Bare("", b));
    assert Print(a) + "" == Print(a) && "" + Print(b) == Print(b);
  }

  lemma BareNot(a: Expr)
    requires Writable(a) && !a.Equality?
    ensures Writable(Not(Bare("", a))) && Print(Not(Bare("", a))) == "!" + Print(a)
  {
    assert WritableOperand(Bare("", a));
    assert "" + Print(a) == Print(a);
  }

  /** `a == b == c`, with no parentheses: the left comparison is made last, whatever the two
      operators are. */
  lemma ChainSplitsLeftmost(js: Js, vals: Val, a: Expr, op: Operator, b: Expr, op': Operator, c: Expr)
    requires Writable(a) && Writable(b) && Writable(c) && !a.Equality? && !b.Equality?
    ensures Resolve(js, vals, Print(a) + (OperatorText(op) + (Print(b) + (OperatorText(op') + Print(c)))))
            == Bool(Holds(js, op, Eval(js, vals, a), Bool(Holds(js, op', Eval(js, vals, b), Eval(js, vals, c)))))
  {
    hide Resolve, Print, OperatorText, Writable;
    var inner := Equality(op', Bare("", b), Bare("", c));
    BareEquality(op', b, c);
    BareEquality(op, a, inner);
    ResolvePrinted(js, vals, Equality(op, Bare("", a), Bare("", inner)));
  }

  /** `!a == b`, with no parentheses: the negation is of `a` alone. */
  lemma NotBindsTighter(js: Js, vals: Val, a: Expr, op: Operator, b: Expr)
    requires Writable(a) && Writable(b) && !a.Equality?
    ensures Resolve(js, vals, "!" + (Print(a) + (OperatorText(op) + Print(b))))
            == Bool(Holds(js, op, Bool(!js.truthy(Eval(js, vals, a))), Eval(js, vals, b)))
  {
    hide Resolve, Print, OperatorText, Writable;
    BareNot(a);
    BareEquality(op, Not(Bare("", a)), b);
    assert ("!" + Print(a)) + (OperatorText(op) + Print(b)) == "!" + (Print(a) + (OperatorText(op) + Print(b)));
    ResolvePrinted(js, vals, Equality(op, Bare("", Not(Bare("", a))), Bare("", b)));
  }
}
