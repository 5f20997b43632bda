/**
 What the chunker's operations mean, by positions in the text: trimming, lines, where a
 window ends, what is carried from one chunk to the next, and which sections a chunk holds.
 */
module ChunkMeaning {
  import opened Common
  import opened CodeChunks
  import opened Text
  import opened Chunker

  // ----- trimming -----

  ghost predicate AllSpace(s: string) { forall i :: 0 <= i < |s| ==> IsSpace(s[i]) }

  /** Not empty, and whitespace at neither end. */
  predicate Edged(s: string) { s != [] && !IsSpace(s[0]) && !IsSpace(s[|s| - 1]) }

  lemma {:induction false} TrimStartCuts(s: string) returns (n: nat)
    ensures n <= |s| && TrimStart(s) == s[n..] && AllSpace(s[..n])
    ensures n < |s| ==> !IsSpace(s[n])
  {
    if s != [] && IsSpace(s[0]) {
      var m := TrimStartCuts(s[1..]);
      n := m + 1;
      assert s[1..][m..] == s[n..];
      forall i | 0 <= i < n ensures IsSpace(s[..n][i]) {
        if i > 0 { assert s[1..][..m][i - 1] == s[i]; }
      }
    } else {
      n := 0;
    }
  }

  lemma {:induction false} TrimEndCuts(s: string) returns (n: nat)
    ensures n <= |s| && TrimEnd(s) == s[..n] && AllSpace(s[n..])
    ensures n > 0 ==> !IsSpace(s[n - 1])
  {
    if s != [] && IsSpace(s[|s| - 1]) {
      var front := s[..|s| - 1];
      n := TrimEndCuts(front);
      assert front[..n] == s[..n];
      forall i | 0 <= i < |s| - n ensures IsSpace(s[n..][i]) {
        if n + i < |front| { assert front[n..][i] == s[n + i]; }
      }
    } else {
      n := |s|;
    }
  }

  /** Trimming cuts whitespace off both ends, all of it, and nothing else. */
  lemma TrimExactly(s: string) returns (from: nat, to: nat)
    ensures from <= to <= |s| && Trim(s) == s[from..to]
    ensures AllSpace(s[..from]) && AllSpace(s[to..])
    ensures from < to ==> Edged(Trim(s))
  {
    from := TrimStartCuts(s);
    var n := TrimEndCuts(s[from..]);
    to := from + n;
    assert s[from..][..n] == s[from..to] && s[from..][n..] == s[to..];
  }

  lemma TrimEdged(s: string)
    requires Edged(s)
    ensures Trim(s) == s
  {
  }

  // ----- lines -----

  lemma JoinCons(first: string, rest: seq<string>)
    requires rest != []
    ensures Join([first] + rest) == first + "\n" + Join(rest)
  {
    assert ([first] + rest)[1..] == rest;
  }

  /** Splitting at newlines and joining again gives the text back. */
  lemma {:induction false} LinesJoin(s: string)
    ensures Join(Lines(s)) == s
    decreases |s|
  {
    hide Join;
    var at := IndexOfNewline(s, 0);
    if at >= 0 {
      LinesJoin(s[at + 1..]);
      JoinCons(s[..at], Lines(s[at + 1..]));
      assert s == s[..at] + "\n" + s[at + 1..];
    } else {
      JoinOne(s);
    }
  }

  lemma JoinOne(s: string)
    ensures Join([s]) == s
  {
  }

  lemma {:induction false} LinesHoldNoNewline(s: string, i: nat)
    requires i < |Lines(s)|
    ensures '\n' !in Lines(s)[i]
    decreases |s|
  {
    var at := IndexOfNewline(s, 0);
    if at >= 0 && i > 0 {
      LinesHoldNoNewline(s[at + 1..], i - 1);
    }
  }

  /** A carriage return, alone or with the newline after it, becomes one newline; other characters stay. */
  lemma {:induction false} NormalizeByParts(a: string, b: string)
    requires !(a != [] && a[|a| - 1] == '\r' && b != [] && b[0] == '\n')
    ensures NormalizeNewlines(a + b) == NormalizeNewlines(a) + NormalizeNewlines(b)
    decreases |a|
  {
    if a == [] {
      assert a + b == b;
    } else {
      var n := if a[0] == '\r' && 1 < |a| && a[1] == '\n' then 2 else 1;
      var head := if a[0] == '\r' then "\n" else [a[0]];
      hide NormalizeNewlines;
      assert (a + b)[n..] == a[n..] + b;
      NormalizeByParts(a[n..], b);
      NormalizeHead(a, n);
      NormalizeHead(a + b, n);
      assert head + NormalizeNewlines(a[n..]) + NormalizeNewlines(b)
          == head + (NormalizeNewlines(a[n..]) + NormalizeNewlines(b));
    }
  }

  lemma NormalizeHead(s: string, n: nat)
    requires s != [] && n == if s[0] == '\r' && 1 < |s| && s[1] == '\n' then 2 else 1
    ensures NormalizeNewlines(s) == (if s[0] == '\r' then "\n" else [s[0]]) + NormalizeNewlines(s[n..])
  {
  }

  lemma NormalizeUnits(c: char)
    ensures NormalizeNewlines("\r\n") == "\n"
    ensures NormalizeNewlines([c]) == if c == '\r' then "\n" else [c]
  {
    assert "\r\n"[2..] == [] && [c][1..] == [];
  }

  // ----- windows -----

  /** The last newline past the middle and not past the target, if there is one. */
  ghost predicate CutsAt(content: string, start: nat, target: nat, p: nat) {
    && start + target < |content| && p <= start + target && content[p] == '\n' && 2 * (p - start) > target
    && forall i :: p < i <= start + target ==> content[i] != '\n'
  }

  /** A window that does not reach the end ends before the last newline in its second half, or at the target. */
  lemma WindowEndsAtNewline(content: string, start: nat, target: nat)
    requires start < |content| && target > 0
    ensures start + target >= |content| ==> WindowEnd(content, start, target) == |content|
    ensures forall p: nat :: CutsAt(content, start, target, p) ==> WindowEnd(content, start, target) == p
    ensures start + target < |content| && (forall p: nat :: !CutsAt(content, start, target, p)) ==>
      WindowEnd(content, start, target) == start + target
  {
    if start + target < |content| {
      var newline := LastNewline(content, start + target);
      if 2 * (newline - start) > target {
        assert CutsAt(content, start, target, newline);
      }
    }
  }

  // ----- the carried tail -----

  /** Where the last `overlap` characters begin. */
  function TailFrom(content: string, overlap: nat): nat { if |content| > overlap then |content| - overlap else 0 }

  /** The first newline from a position on. */
  predicate FirstNewline(content: string, from: nat, p: nat) {
    from <= p < |content| && content[p] == '\n' && forall i :: from <= i < p ==> content[i] != '\n'
  }

  /**
   The tail is the text after the first newline among the last `overlap` characters, or all
   of those characters when they hold no newline, trimmed.
   */
  ghost predicate IsTail(tail: string, content: string, overlap: int) {
    if overlap <= 0 then tail == []
    else
      var from := TailFrom(content, overlap);
      && (forall p: nat :: FirstNewline(content, from, p) ==> tail == Trim(content[p + 1..]))
      && ((forall p: nat :: !FirstNewline(content, from, p)) ==> tail == Trim(content[from..]))
  }

  lemma TailByPosition(content: string, overlap: int)
    ensures IsTail(OverlapTail(content, overlap), content, overlap)
  {
    hide Trim;
    if overlap > 0 {
      var from := TailFrom(content, overlap);
      var newline := IndexOfNewline(content, from);
      if newline >= 0 {
        assert FirstNewline(content, from, newline);
      }
    }
  }

  // ----- sections and chunks -----

  ghost predicate AllEdged(texts: seq<string>) { forall i :: 0 <= i < |texts| ==> Edged(texts[i]) }

  /** Sections hold some ink and are trimmed. */
  lemma {:induction false} SectionsEdged(lines: seq<string>, current: seq<string>, boundary: string -> bool)
    ensures AllEdged(Sections(lines, current, boundary))
    decreases |lines|
  {
    hide Trim, Join, Edged;
    if HasInk(current) { InkyEdged(current); }
    if lines != [] {
      SectionsEdged(lines[1..], [lines[0]], boundary);
      SectionsEdged(lines[1..], current + [lines[0]], boundary);
    }
  }

  lemma InkyEdged(lines: seq<string>)
    requires HasInk(lines)
    ensures Edged(Trim(Join(lines)))
  {
    hide Trim, Join, Ink;
    var i :| 0 <= i < |lines| && Trim(lines[i]) != [];
    TrimEmpty(lines[i]);
    InkOfSome(lines, i);
    InkJoin(lines);
    TrimEmpty(Join(lines));
    var from, to := TrimExactly(Join(lines));
  }

  lemma {:induction false} InkOfSome(texts: seq<string>, i: nat)
    requires i < |texts| && Ink(texts[i]) != []
    ensures InkOf(texts) != []
  {
    hide Ink;
    if i < |texts| - 1 { InkOfSome(texts[..|texts| - 1], i); }
  }

  /** Glued with a newline, or alone when there is nothing before it. */
  function Glue(before: string, section: string): string {
    if before == [] then section else before + "\n" + section
  }

  lemma GlueEdged(before: string, section: string)
    requires (before == [] || Edged(before)) && Edged(section)
    ensures Edged(Glue(before, section))
  {
  }

  lemma TailEdged(content: string, overlap: int)
    ensures OverlapTail(content, overlap) == [] || Edged(OverlapTail(content, overlap))
  {
    hide Trim, Edged;
    if overlap > 0 {
      var newline := IndexOfNewline(content, TailFrom(content, overlap));
      var rest := content[if newline >= 0 then newline + 1 else TailFrom(content, overlap)..];
      var from, to := TrimExactly(rest);
    }
  }

  ghost predicate PendingEdged(p: Packing) { p.pending == [] || Edged(p.pending) }

  /** One section: a chunk is closed only when the section does not fit behind it, and the next begins with its tail. */
  lemma PackMeaning(p: Packing, section: string, target: nat, overlap: int)
    requires target > 0 && PendingEdged(p) && Edged(section)
    ensures var q := Pack(p, section, target, overlap);
      var closed := if p.pending == [] then p.contents else p.contents + [p.pending];
      && PendingEdged(q)
      && (|section| > target ==> q == Packing(closed + WindowTexts(section, 0, target, overlap), []))
      && (|section| <= target && |Glue(p.pending, section)| <= target ==>
            q == Packing(p.contents, Glue(p.pending, section)))
      && (|section| <= target < |Glue(p.pending, section)| ==>
            q.contents == closed && exists tail :: IsTail(tail, p.pending, overlap) && q.pending == Glue(tail, section))
  {
    hide WindowTexts, OverlapTail, Trim, IsTail, Edged;
    if p.pending != [] { TrimEdged(p.pending); }
    TailByPosition(p.pending, overlap);
    TailEdged(p.pending, overlap);
    GlueEdged(OverlapTail(p.pending, overlap), section);
    GlueEdged(p.pending, section);
    EdgedNonEmpty(section);
    assert Combine(OverlapTail(p.pending, overlap), section) == Glue(OverlapTail(p.pending, overlap), section);
  }

  lemma EdgedNonEmpty(s: string)
    requires Edged(s)
    ensures s != []
  {
  }

  lemma {:induction false} PendingStaysEdged(sections: seq<string>, target: nat, overlap: int)
    requires target > 0 && AllEdged(sections)
    ensures PendingEdged(PackAll(sections, target, overlap))
  {
    hide Pack, Edged;
    if sections != [] {
      PendingStaysEdged(sections[..|sections| - 1], target, overlap);
      PackMeaning(PackAll(sections[..|sections| - 1], target, overlap), sections[|sections| - 1], target, overlap);
    }
  }

  /** What later sections leave of a state: its chunks stay, and its pending text begins the next one. */
  ghost predicate Stays(p: Packing, q: Packing) {
    && p.contents <= q.contents
    && (p.pending != [] ==>
          || (q.contents == p.contents && p.pending <= q.pending)
          || (|q.contents| > |p.contents| && p.pending <= q.contents[|p.contents|]))
  }

  lemma PackStays(first: Packing, p: Packing, section: string, target: nat, overlap: int)
    requires target > 0 && PendingEdged(p) && Edged(section) && Stays(first, p)
    ensures Stays(first, Pack(p, section, target, overlap))
  {
    hide WindowTexts, IsTail, Edged, Pack;
    PackMeaning(p, section, target, overlap);
  }

  lemma {:induction false} LaterSections(sections: seq<string>, n: nat, target: nat, overlap: int)
    requires target > 0 && AllEdged(sections) && n <= |sections|
    ensures Stays(PackAll(sections[..n], target, overlap), PackAll(sections, target, overlap))
    decreases |sections|
  {
    hide Pack, Edged;
    if n == |sections| {
      assert sections[..n] == sections;
    } else {
      var front := sections[..|sections| - 1];
      assert front[..n] == sections[..n];
      LaterSections(front, n, target, overlap);
      PendingStaysEdged(front, target, overlap);
      PackStays(PackAll(sections[..n], target, overlap), PackAll(front, target, overlap),
                sections[|sections| - 1], target, overlap);
    }
  }

  lemma FinishedStays(p: Packing, q: Packing)
    requires Stays(p, q) && PendingEdged(q)
    ensures p.contents <= Finished(q)
    ensures p.pending != [] ==> |Finished(q)| > |p.contents| && p.pending <= Finished(q)[|p.contents|]
  {
    if q.pending != [] { TrimEdged(q.pending); }
  }

  /**
   Packing, section by section, as the chunks of any list of trimmed sections show it. Let k
   chunks be closed when a section comes and `pending` be collected. A section that fits goes
   behind it; one that does not closes chunk k as it is, and chunk k + 1 begins with the tail
   of chunk k, a newline and the section; a section beyond the target is windowed.
   */
  lemma PackingLaw(sections: seq<string>, n: nat, target: nat, overlap: int)
    requires target > 0 && AllEdged(sections) && n < |sections|
    ensures var (p, texts, section) :=
        (PackAll(sections[..n], target, overlap), Finished(PackAll(sections, target, overlap)), sections[n]);
      var k := |p.contents|;
      && p.contents <= texts
      && (|section| > target ==>
            (if p.pending == [] then p.contents else p.contents + [p.pending])
              + WindowTexts(section, 0, target, overlap) <= texts)
      && (|section| <= target && |Glue(p.pending, section)| <= target ==>
            k < |texts| && Glue(p.pending, section) <= texts[k])
      && (|section| <= target < |Glue(p.pending, section)| ==>
            && k + 1 < |texts| && texts[k] == p.pending
            && exists tail :: IsTail(tail, texts[k], overlap) && Glue(tail, section) <= texts[k + 1])
  {
    hide Pack, WindowTexts, Finished, IsTail, Edged;
    var p, section := PackAll(sections[..n], target, overlap), sections[n];
    var q := Pack(p, section, target, overlap);
    assert sections[..n + 1][..n] == sections[..n];
    assert PackAll(sections[..n + 1], target, overlap) == q;
    assert AllEdged(sections[..n]);
    PendingStaysEdged(sections[..n], target, overlap);
    PendingStaysEdged(sections, target, overlap);
    PackMeaning(p, section, target, overlap);
    LaterSections(sections, n + 1, target, overlap);
    FinishedStays(q, PackAll(sections, target, overlap));
    EdgedNonEmpty(section);
  }

  /** A file's chunks are those of its sections, which are trimmed; so the law holds for every file. */
  lemma ChunksFollowLaw(content: string, boundary: string -> bool, target: nat, overlap: int)
    returns (sections: seq<string>)
    requires target > 0
    ensures AllEdged(sections)
    ensures ChunkTexts(content, boundary, target, overlap) == Finished(PackAll(sections, target, overlap))
    ensures Trim(NormalizeNewlines(content)) != [] ==>
      sections == Sections(Lines(Trim(NormalizeNewlines(content))), [], boundary)
  {
    hide Trim, NormalizeNewlines, Sections, Lines, Edged;
    var normalized := Trim(NormalizeNewlines(content));
    if normalized == [] {
      sections := [];
      TrimNone();
    } else {
      sections := Sections(Lines(normalized), [], boundary);
      SectionsEdged(Lines(normalized), [], boundary);
    }
  }

  lemma TrimNone()
    ensures Trim([]) == []
  {
  }

  // ----- documents -----

  /** `less` is a strict order in which any two paths that are not ordered are equal. */
  ghost predicate StrictOrder(less: (string, string) -> bool) {
    && (forall a, b, c :: less(a, b) && less(b, c) ==> less(a, c))
    && (forall a, b :: less(a, b) ==> !less(b, a))
    && (forall a, b, c :: !less(a, b) && !less(b, c) ==> !less(a, c))
  }

  ghost predicate AllInOrder(documents: seq<Document>, less: (string, string) -> bool) {
    forall i, j :: 0 <= i < j < |documents| ==> !less(documents[j].filePath, documents[i].filePath)
  }

  lemma {:induction false} InsertedKeeps(document: Document, sorted: seq<Document>, less: (string, string) -> bool)
    ensures multiset(Inserted(document, sorted, less)) == multiset(sorted) + multiset{document}
  {
    if sorted != [] && less(document.filePath, sorted[|sorted| - 1].filePath) {
      InsertedKeeps(document, sorted[..|sorted| - 1], less);
      assert sorted == sorted[..|sorted| - 1] + [sorted[|sorted| - 1]];
    }
  }

  lemma AppendInOrder(documents: seq<Document>, last: Document, less: (string, string) -> bool)
    requires AllInOrder(documents, less)
    requires forall d: Document :: d in multiset(documents) ==> !less(last.filePath, d.filePath)
    ensures AllInOrder(documents + [last], less)
  {
    assert forall i :: 0 <= i < |documents| ==> documents[i] in multiset(documents);
  }

  lemma BelowLast(sorted: seq<Document>, less: (string, string) -> bool, path: string)
    requires StrictOrder(less) && AllInOrder(sorted, less) && sorted != []
    requires !less(path, sorted[|sorted| - 1].filePath)
    ensures forall d: Document :: d in multiset(sorted) ==> !less(path, d.filePath)
  {
    forall d: Document | d in multiset(sorted) ensures !less(path, d.filePath) {
      assert d in sorted;
      var i :| 0 <= i < |sorted| && sorted[i] == d;
      if i < |sorted| - 1 { assert !less(sorted[|sorted| - 1].filePath, sorted[i].filePath); }
    }
  }

  lemma {:induction false} InsertedInOrder(document: Document, sorted: seq<Document>, less: (string, string) -> bool)
    requires StrictOrder(less) && AllInOrder(sorted, less)
    ensures AllInOrder(Inserted(document, sorted, less), less)
  {
    hide AllInOrder, StrictOrder;
    if sorted == [] {
      AppendInOrder(sorted, document, less);
    } else if !less(document.filePath, sorted[|sorted| - 1].filePath) {
      BelowLast(sorted, less, document.filePath);
      AppendInOrder(sorted, document, less);
    } else {
      var front, last := sorted[..|sorted| - 1], sorted[|sorted| - 1];
      FrontInOrder(sorted, less);
      InsertedInOrder(document, front, less);
      InsertedKeeps(document, front, less);
      LastIsGreatest(sorted, document.filePath, less);
      AppendInOrder(Inserted(document, front, less), last, less);
    }
  }

  lemma FrontInOrder(sorted: seq<Document>, less: (string, string) -> bool)
    requires AllInOrder(sorted, less) && sorted != []
    ensures AllInOrder(sorted[..|sorted| - 1], less)
  {
  }

  lemma LastIsGreatest(sorted: seq<Document>, path: string, less: (string, string) -> bool)
    requires StrictOrder(less) && AllInOrder(sorted, less) && sorted != []
    requires less(path, sorted[|sorted| - 1].filePath)
    ensures !less(sorted[|sorted| - 1].filePath, path)
    ensures forall d: Document :: d in multiset(sorted[..|sorted| - 1]) ==>
      !less(sorted[|sorted| - 1].filePath, d.filePath)
  {
    var front := sorted[..|sorted| - 1];
    forall d: Document | d in multiset(front) ensures !less(sorted[|sorted| - 1].filePath, d.filePath) {
      assert d in front;
      var i :| 0 <= i < |front| && front[i] == d;
      assert sorted[i] == d;
    }
  }

  /** The documents are chunked in path order, each once. */
  lemma {:induction false} SortedInOrder(documents: seq<Document>, less: (string, string) -> bool)
    requires StrictOrder(less)
    ensures AllInOrder(Sorted(documents, less), less)
    ensures multiset(Sorted(documents, less)) == multiset(documents)
  {
    hide AllInOrder, StrictOrder, Inserted;
    if documents == [] {
      NothingInOrder(less);
    } else {
      var front, last := documents[..|documents| - 1], documents[|documents| - 1];
      SortedInOrder(front, less);
      InsertedInOrder(last, Sorted(front, less), less);
      InsertedKeeps(last, Sorted(front, less), less);
      assert documents == front + [last];
    }
  }

  lemma NothingInOrder(less: (string, string) -> bool)
    ensures AllInOrder([], less)
  {
  }

  /** The options: 2000 and 200 by default, a target of at least 200, an overlap of at most half the target. */
  lemma OptionsDecide(documents: seq<Document>, patterns: Patterns, less: (string, string) -> bool,
                      target: Option<int>, overlap: Option<int>)
    ensures var t := if target.Some? then target.value else 2000;
      var o := if overlap.Some? then overlap.value else 200;
      if t < 200 then ChunkDocuments(documents, patterns, less, target, overlap).Err?
      else ChunkDocuments(documents, patterns, less, target, overlap)
             == Ok(ChunkAll(Sorted(documents, less), patterns, t, if 2 * o <= t then o else t / 2))
  {
    hide ChunkAll, Sorted;
  }
}
