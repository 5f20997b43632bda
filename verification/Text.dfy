/** The string operations the chunker uses, and the ink of a text: what is left without whitespace. */
module Text {
  /** What String.prototype.trim and \s regard as whitespace. */
  predicate IsSpace(c: char) {
    || c == ' ' || c == '\t' || c == '\n' || c == '\r' || c == '\U{0B}' || c == '\U{0C}'
    || c == '\U{A0}' || c == '\U{1680}' || ('\U{2000}' <= c <= '\U{200A}') || c == '\U{2028}'
    || c == '\U{2029}' || c == '\U{202F}' || c == '\U{205F}' || c == '\U{3000}' || c == '\U{FEFF}'
  }

  function TrimStart(s: string): string {
    if s != [] && IsSpace(s[0]) then TrimStart(s[1..]) else s
  }

  function TrimEnd(s: string): string {
    if s != [] && IsSpace(s[|s| - 1]) then TrimEnd(s[..|s| - 1]) else s
  }

  function Trim(s: string): string { TrimEnd(TrimStart(s)) }

  function Ink(s: string): string {
    if s == [] then []
    else Ink(s[..|s| - 1]) + if IsSpace(s[|s| - 1]) then [] else [s[|s| - 1]]
  }

  function InkOf(texts: seq<string>): string {
    if texts == [] then [] else InkOf(texts[..|texts| - 1]) + Ink(texts[|texts| - 1])
  }

  /** Carriage returns become newlines, a following newline being absorbed. */
  function NormalizeNewlines(s: string): string {
    if s == [] then []
    else if s[0] != '\r' then [s[0]] + NormalizeNewlines(s[1..])
    else "\n" + NormalizeNewlines(if 1 < |s| && s[1] == '\n' then s[2..] else s[1..])
  }

  /** First newline at or after `from`, or -1. */
  function IndexOfNewline(s: string, from: nat): (r: int)
    requires from <= |s|
    ensures r == -1 || (from <= r < |s| && s[r] == '\n')
    ensures r == -1 ==> forall i :: from <= i < |s| ==> s[i] != '\n'
    ensures r >= 0 ==> forall i :: from <= i < r ==> s[i] != '\n'
    decreases |s| - from
  {
    if from == |s| then -1
    else if s[from] == '\n' then from
    else IndexOfNewline(s, from + 1)
  }

  /** Last newline at or before `upTo`, or -1. */
  function LastNewline(s: string, upTo: int): (r: int)
    requires -1 <= upTo < |s|
    ensures r == -1 || (0 <= r <= upTo && s[r] == '\n')
    ensures forall i :: r < i <= upTo ==> s[i] != '\n'
    decreases upTo + 1
  {
    if upTo < 0 then -1
    else if s[upTo] == '\n' then upTo
    else LastNewline(s, upTo - 1)
  }

  function Lines(s: string): (r: seq<string>)
    ensures |r| > 0
    decreases |s|
  {
    var i := IndexOfNewline(s, 0);
    if i < 0 then [s] else [s[..i]] + Lines(s[i + 1..])
  }

  function Join(lines: seq<string>): string {
    if lines == [] then [] else if |lines| == 1 then lines[0] else lines[0] + "\n" + Join(lines[1..])
  }

  predicate NoSpace(s: string) { forall i :: 0 <= i < |s| ==> !IsSpace(s[i]) }

  // ----- facts -----

  lemma {:induction false} InkConcat(a: string, b: string)
    ensures Ink(a + b) == Ink(a) + Ink(b)
  {
    if b == [] {
      assert a + b == a;
    } else {
      InkConcat(a, b[..|b| - 1]);
      assert (a + b)[..|a + b| - 1] == a + b[..|b| - 1];
    }
  }

  lemma InkSingle(c: char)
    ensures Ink([c]) == if IsSpace(c) then [] else [c]
  {
    assert [c][..0] == [];
  }

  lemma {:induction false} InkTrimStart(s: string)
    ensures Ink(TrimStart(s)) == Ink(s)
    ensures |TrimStart(s)| <= |s|
  {
    if s != [] && IsSpace(s[0]) {
      InkTrimStart(s[1..]);
      InkConcat([s[0]], s[1..]);
      InkSingle(s[0]);
      assert [s[0]] + s[1..] == s;
    }
  }

  lemma {:induction false} InkTrimEnd(s: string)
    ensures Ink(TrimEnd(s)) == Ink(s)
    ensures |TrimEnd(s)| <= |s|
  {
    if s != [] && IsSpace(s[|s| - 1]) {
      InkTrimEnd(s[..|s| - 1]);
    }
  }

  /** Trimming removes whitespace only. */
  lemma InkTrim(s: string)
    ensures Ink(Trim(s)) == Ink(s)
    ensures |Trim(s)| <= |s|
  {
    InkTrimStart(s);
    InkTrimEnd(TrimStart(s));
  }

  lemma {:induction false} InkEndsInInk(s: string)
    requires s != [] && !IsSpace(s[|s| - 1])
    ensures Ink(s) != []
  {
  }

  lemma {:induction false} TrimEndEdge(s: string)
    ensures TrimEnd(s) == [] || !IsSpace(TrimEnd(s)[|TrimEnd(s)| - 1])
  {
    if s != [] && IsSpace(s[|s| - 1]) { TrimEndEdge(s[..|s| - 1]); }
  }

  /** A text trims to nothing exactly when it has no ink. */
  lemma TrimEmpty(s: string)
    ensures Trim(s) == [] <==> Ink(s) == []
  {
    InkTrim(s);
    TrimEndEdge(TrimStart(s));
    if Trim(s) != [] { InkEndsInInk(Trim(s)); }
  }

  lemma {:induction false} InkOfCons(text: string, texts: seq<string>)
    ensures InkOf([text] + texts) == Ink(text) + InkOf(texts)
  {
    hide Ink;
    var all := [text] + texts;
    if texts == [] {
      assert all[..0] == [];
    } else {
      var front, last := texts[..|texts| - 1], texts[|texts| - 1];
      InkOfCons(text, front);
      assert all[..|all| - 1] == [text] + front && all[|all| - 1] == last;
      assert Ink(text) + InkOf(front) + Ink(last) == Ink(text) + (InkOf(front) + Ink(last));
    }
  }

  lemma EmptyInk()
    ensures Ink([]) == []
  {
  }

  lemma {:induction false} InkJoin(lines: seq<string>)
    ensures Ink(Join(lines)) == InkOf(lines)
  {
    hide Ink;
    if lines == [] {
      EmptyInk();
    } else if |lines| == 1 {
      InkOfCons(lines[0], []);
      assert lines == [lines[0]] + [];
    } else {
      InkJoin(lines[1..]);
      InkConcat(lines[0] + "\n", Join(lines[1..]));
      InkConcat(lines[0], "\n");
      InkSingle('\n');
      InkOfCons(lines[0], lines[1..]);
      assert lines == [lines[0]] + lines[1..];
    }
  }

  lemma {:induction false} InkLines(s: string)
    ensures InkOf(Lines(s)) == Ink(s)
    decreases |s|
  {
    var i := IndexOfNewline(s, 0);
    if i < 0 {
      InkOfCons(s, []);
      assert [s] + [] == [s];
    } else {
      InkLines(s[i + 1..]);
      assert s == s[..i] + "\n" + s[i + 1..];
      InkConcat(s[..i] + "\n", s[i + 1..]);
      InkConcat(s[..i], "\n");
      InkSingle('\n');
      InkOfCons(s[..i], Lines(s[i + 1..]));
    }
  }

  lemma {:induction false} InkNormalize(s: string)
    ensures Ink(NormalizeNewlines(s)) == Ink(s)
    decreases |s|
  {
    if s != [] {
      assert s == [s[0]] + s[1..];
      InkConcat([s[0]], s[1..]);
      InkSingle(s[0]);
      if s[0] != '\r' {
        InkNormalize(s[1..]);
        InkConcat([s[0]], NormalizeNewlines(s[1..]));
      } else if 1 < |s| && s[1] == '\n' {
        InkNormalize(s[2..]);
        InkConcat("\n", NormalizeNewlines(s[2..]));
        InkSingle('\n');
        assert s[1..] == ['\n'] + s[2..];
        InkConcat(['\n'], s[2..]);
      } else {
        InkNormalize(s[1..]);
        InkConcat("\n", NormalizeNewlines(s[1..]));
        InkSingle('\n');
      }
    }
  }

  /** The ink before a position grows with the position, and a slice's ink is the part between. */
  lemma InkSlice(s: string, lo: nat, hi: nat)
    requires lo <= hi <= |s|
    ensures |Ink(s[..lo])| <= |Ink(s[..hi])| <= |Ink(s)|
    ensures Ink(s[lo..hi]) == Ink(s)[|Ink(s[..lo])|..|Ink(s[..hi])|]
  {
    InkConcat(s[..lo], s[lo..hi]);
    assert s[..lo] + s[lo..hi] == s[..hi];
    InkConcat(s[..hi], s[hi..]);
    assert s[..hi] + s[hi..] == s;
  }

  lemma {:induction false} NoSpaceIsAllInk(s: string)
    requires NoSpace(s)
    ensures Ink(s) == s
  {
    if s != [] {
      NoSpaceIsAllInk(s[..|s| - 1]);
      assert s[..|s| - 1] + [s[|s| - 1]] == s;
    }
  }
}
