/** The escape-stripping scanner, and the language it strips. */
module StripAnsi {
  const ESC := '\U{1b}'
  const NUL := '\0'

  predicate IsLetter(c: char) { 'a' <= c <= 'z' || 'A' <= c <= 'Z' }

  /** What is left after the parameters and the final letter of a CSI sequence. */
  function AfterCsi(s: string): (r: string)
    ensures |r| <= |s|
  {
    if s == [] then [] else if IsLetter(s[0]) then s[1..] else AfterCsi(s[1..])
  }

  function Strip(s: string): string
    decreases |s|
  {
    if s == [] then []
    else if s[0] == ESC then
      if |s| > 1 && s[1] == '[' then Strip(AfterCsi(s[2..])) else Strip(s[1..])
    else if s[0] == NUL then Strip(s[1..])
    else [s[0]] + Strip(s[1..])
  }

  lemma StripAt(s: string, i: nat)
    requires i < |s|
    ensures s[i] == ESC && i + 1 < |s| && s[i + 1] == '[' ==> Strip(s[i..]) == Strip(AfterCsi(s[i + 2..]))
    ensures s[i] == ESC && !(i + 1 < |s| && s[i + 1] == '[') ==> Strip(s[i..]) == Strip(s[i + 1..])
    ensures s[i] == NUL ==> Strip(s[i..]) == Strip(s[i + 1..])
    ensures s[i] != ESC && s[i] != NUL ==> Strip(s[i..]) == [s[i]] + Strip(s[i + 1..])
  {
    assert s[i..][1..] == s[i + 1..];
    if i + 1 < |s| { assert s[i..][2..] == s[i + 2..]; }
  }

  lemma AfterCsiAt(s: string, i: nat)
    requires i <= |s|
    ensures AfterCsi(s[i..]) == if i == |s| then [] else if IsLetter(s[i]) then s[i + 1..] else AfterCsi(s[i + 1..])
  {
    if i < |s| { assert s[i..][1..] == s[i + 1..]; }
  }

  /** The scanner: a cursor over the characters and a growing buffer. */
  method StripAnsi(s: string) returns (out: string)
    ensures out == Strip(s)
  {
    out := [];
    var i := 0;
    while i < |s|
      invariant 0 <= i <= |s|
      invariant out + Strip(s[i..]) == Strip(s)
    {
      StripAt(s, i);
      var c := s[i];
      i := i + 1;
      if c == ESC {
        if i < |s| && s[i] == '[' {
          i := i + 1;
          ghost var rest := AfterCsi(s[i..]);
          var done := false;
          while i < |s| && !done
            invariant 0 < i <= |s|
            invariant rest == if done then s[i..] else AfterCsi(s[i..])
            decreases |s| - i
          {
            AfterCsiAt(s, i);
            var n := s[i];
            i := i + 1;
            done := IsLetter(n);
          }
          AfterCsiAt(s, i);
        }
      } else if c != NUL {
        out := out + [c];
      }
    }
  }

  // ---------- the language of terminal output ----------

  /** `Lone` is an ESC that opens nothing; `Cut` is a CSI sequence the input ends inside. */
  datatype Segment = Text(text: string) | Csi(params: string, final: char) | Lone | Cut(params: string)

  /** A to Z and a to z, by code point. */
  predicate Final(c: char) { 65 <= c as int <= 90 || 97 <= c as int <= 122 }

  predicate NoLetter(s: string) { forall i :: 0 <= i < |s| ==> !Final(s[i]) }

  function RenderOne(seg: Segment): string {
    match seg
    case Text(text) => text
    case Csi(params, final) => "\U{1b}[" + params + [final]
    case Lone => "\U{1b}"
    case Cut(params) => "\U{1b}[" + params
  }

  function Render(segs: seq<Segment>): string {
    if segs == [] then [] else RenderOne(segs[0]) + Render(segs[1..])
  }

  predicate Legible(segs: seq<Segment>) {
    segs != [] ==>
      && Legible(segs[1..])
      && match segs[0]
         case Text(text) => '\U{1b}' !in text
         case Csi(params, final) => NoLetter(params) && Final(final)
         case Lone => Render(segs[1..]) == [] || Render(segs[1..])[0] != '['
         case Cut(params) => NoLetter(params) && segs[1..] == []
  }

  function DropNuls(s: string): string {
    if s == [] then [] else (if s[0] == '\0' then [] else [s[0]]) + DropNuls(s[1..])
  }

  /** What a reader of the terminal would see. */
  function Plain(segs: seq<Segment>): string {
    if segs == [] then []
    else (if segs[0].Text? then DropNuls(segs[0].text) else []) + Plain(segs[1..])
  }

  lemma {:induction false} StripText(text: string, rest: string)
    requires ESC !in text
    ensures Strip(text + rest) == DropNuls(text) + Strip(rest)
  {
    if text == [] {
      assert text + rest == rest;
    } else {
      assert (text + rest)[1..] == text[1..] + rest;
      StripText(text[1..], rest);
    }
  }

  lemma {:induction false} SkipParams(params: string, rest: string)
    requires NoLetter(params)
    ensures AfterCsi(params + rest) == AfterCsi(rest)
  {
    if params == [] {
      assert params + rest == rest;
    } else {
      assert (params + rest)[1..] == params[1..] + rest;
      SkipParams(params[1..], rest);
    }
  }

  lemma StripCsi(params: string, final: char, rest: string)
    requires NoLetter(params) && IsLetter(final)
    ensures Strip([ESC, '['] + params + [final] + rest) == Strip(rest)
  {
    var s := [ESC, '['] + params + [final] + rest;
    assert s[2..] == params + ([final] + rest);
    SkipParams(params, [final] + rest);
    assert ([final] + rest)[1..] == rest;
  }

  /** Stripping undoes escape printing: what comes out is the text, without NULs. */
  lemma {:induction false} StripUndoesRender(segs: seq<Segment>)
    requires Legible(segs)
    ensures Strip(Render(segs)) == Plain(segs)
  {
    if segs != [] {
      var rest := Render(segs[1..]);
      StripUndoesRender(segs[1..]);
      match segs[0]
      case Text(text) => StripText(text, rest);
      case Csi(params, final) => StripCsi(params, final, rest);
      case Lone => assert ([ESC] + rest)[1..] == rest;
      case Cut(params) =>
        var s := [ESC, '['] + params + rest;
        assert s[2..] == params + [];
        SkipParams(params, []);
        assert Strip(s) == [];
    }
  }

  /** Every input is such a list, read off left to right. */
  function Parse(s: string): (segs: seq<Segment>)
    decreases |s|
  {
    if s == [] then []
    else if s[0] == ESC then
      if |s| > 1 && s[1] == '[' then
        var n := ParamLength(s[2..]);
        if n == |s| - 2 then [Cut(s[2..])]
        else [Csi(s[2..2 + n], s[2 + n])] + Parse(s[3 + n..])
      else [Lone] + Parse(s[1..])
    else [Text([s[0]])] + Parse(s[1..])
  }

  function ParamLength(s: string): (n: nat)
    ensures n <= |s| && NoLetter(s[..n]) && (n < |s| ==> IsLetter(s[n]))
  {
    if s == [] || IsLetter(s[0]) then 0 else
      var n := ParamLength(s[1..]);
      assert s[..n + 1] == [s[0]] + s[1..][..n];
      n + 1
  }

  lemma CsiPieces(s: string, n: nat)
    requires |s| > 1 && s[0] == ESC && s[1] == '[' && n == ParamLength(s[2..])
    ensures n == |s| - 2 ==> s == [ESC, '['] + s[2..] && NoLetter(s[2..])
    ensures n < |s| - 2 ==> s == [ESC, '['] + s[2..2 + n] + [s[2 + n]] + s[3 + n..]
                            && NoLetter(s[2..2 + n]) && IsLetter(s[2 + n])
  {
    assert s[2..][..n] == s[2..2 + n];
  }

  lemma {:induction false} ParseRenders(s: string)
    ensures Render(Parse(s)) == s && Legible(Parse(s))
    decreases |s|
  {
    if s != [] {
      var segs := Parse(s);
      if s[0] == ESC && |s| > 1 && s[1] == '[' {
        var n := ParamLength(s[2..]);
        CsiPieces(s, n);
        if n < |s| - 2 {
          ParseRenders(s[3 + n..]);
          assert segs[1..] == Parse(s[3 + n..]);
        } else {
          assert segs == [Cut(s[2..])] && segs[1..] == [];
        }
      } else {
        ParseRenders(s[1..]);
        assert segs[1..] == Parse(s[1..]);
        assert s == [s[0]] + s[1..];
      }
    }
  }

  /** So for every input the scanner returns exactly what its reading shows. */
  lemma StripIsPlainReading(s: string)
    ensures Strip(s) == Plain(Parse(s))
  {
    ParseRenders(s);
    StripUndoesRender(Parse(s));
  }

  // ---------- for every input ----------

  predicate Clean(s: string) { '\U{1b}' !in s && '\0' !in s }

  /** `a` is what remains of `b` when some of its characters are dropped. */
  predicate Subsequence(a: string, b: string) {
    if a == [] then true
    else b != [] && if a[0] == b[0] then Subsequence(a[1..], b[1..]) else Subsequence(a, b[1..])
  }

  lemma {:induction false} SubsequenceCons(a: string, b: string)
    requires b != [] && Subsequence(a, b[1..])
    ensures Subsequence(a, b)
    decreases |b|, 0
  {
    if a != [] && a[0] == b[0] { SubsequenceTail(a, b[1..]); }
  }

  lemma {:induction false} SubsequenceTail(a: string, b: string)
    requires a != [] && Subsequence(a, b)
    ensures Subsequence(a[1..], b)
    decreases |b|, 1
  {
    if a[0] != b[0] { SubsequenceTail(a, b[1..]); }
    SubsequenceCons(a[1..], b);
  }

  lemma {:induction false} SubsequenceDrop(a: string, b: string, n: nat)
    requires n <= |b| && Subsequence(a, b[n..])
    ensures Subsequence(a, b)
    decreases n
  {
    if n > 0 {
      assert b[1..][n - 1..] == b[n..];
      SubsequenceDrop(a, b[1..], n - 1);
      SubsequenceCons(a, b);
    }
  }

  lemma {:induction false} AfterCsiSuffix(s: string)
    ensures AfterCsi(s) == s[|s| - |AfterCsi(s)|..]
  {
    if s != [] && !IsLetter(s[0]) { AfterCsiSuffix(s[1..]); }
  }

  lemma {:induction false} StripOutput(s: string)
    ensures Clean(Strip(s)) && Subsequence(Strip(s), s)
    decreases |s|
  {
    if s != [] {
      if s[0] == ESC && |s| > 1 && s[1] == '[' {
        var rest := AfterCsi(s[2..]);
        AfterCsiSuffix(s[2..]);
        StripOutput(rest);
        assert rest == s[|s| - |rest|..];
        SubsequenceDrop(Strip(s), s, |s| - |rest|);
      } else {
        StripOutput(s[1..]);
        if s[0] == ESC || s[0] == NUL {
          SubsequenceDrop(Strip(s), s, 1);
        } else {
          assert Strip(s)[1..] == Strip(s[1..]);
        }
      }
    }
  }

  lemma {:induction false} CleanIsFixed(s: string)
    requires Clean(s)
    ensures Strip(s) == s
  {
    if s != [] {
      CleanIsFixed(s[1..]);
      assert s == [s[0]] + s[1..];
    }
  }

  /** The output has no ESC and no NUL, keeps the order of the input, and stripping it again
      changes nothing. */
  lemma StripCleans(s: string)
    ensures Clean(Strip(s)) && Subsequence(Strip(s), s) && Strip(Strip(s)) == Strip(s)
  {
    StripOutput(s);
    CleanIsFixed(Strip(s));
  }
}
