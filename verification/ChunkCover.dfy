/**
 What chunking keeps and how large chunks get. The ink of a text is what is left without
 whitespace; whitespace is the only thing chunking may drop.
 */
module ChunkCover {
  import opened Text
  import opened Chunker

  // ----- cover -----

  /** How much of the ink the slices reach. */
  function Reach(slices: seq<Span>): nat {
    if slices == [] then 0 else slices[|slices| - 1].end
  }

  /**
   Each text's ink is the given contiguous slice of the whole ink; the first slice starts
   at 0, each starts no later than the one before it ends, and none ends earlier.
   */
  ghost predicate Slices(texts: seq<string>, slices: seq<Span>, ink: string) {
    && |slices| == |texts|
    && (forall i :: 0 <= i < |texts| ==>
          && slices[i].start <= slices[i].end <= |ink|
          && Ink(texts[i]) == ink[slices[i].start..slices[i].end])
    && (slices != [] ==> slices[0].start == 0)
    && (forall i :: 0 < i < |slices| ==> slices[i].start <= slices[i - 1].end <= slices[i].end)
  }

  /** Slices that reach the end of the ink. */
  ghost predicate Covers(texts: seq<string>, slices: seq<Span>, ink: string) {
    Slices(texts, slices, ink) && Reach(slices) == |ink|
  }

  lemma AppendSlice(texts: seq<string>, slices: seq<Span>, ink: string, text: string, slice: Span)
    requires Slices(texts, slices, ink)
    requires slice.start <= Reach(slices) <= slice.end <= |ink|
    requires Ink(text) == ink[slice.start..slice.end]
    ensures Slices(texts + [text], slices + [slice], ink)
    ensures Reach(slices + [slice]) == slice.end
  {
    hide Ink;
    var texts', slices' := texts + [text], slices + [slice];
    forall i | 0 <= i < |texts'|
      ensures slices'[i].start <= slices'[i].end <= |ink|
      ensures Ink(texts'[i]) == ink[slices'[i].start..slices'[i].end]
    {
      if i < |texts| { assert texts'[i] == texts[i] && slices'[i] == slices[i]; }
    }
    forall i | 0 < i < |slices'|
      ensures slices'[i].start <= slices'[i - 1].end <= slices'[i].end
    {
      if i < |slices| { assert slices'[i] == slices[i] && slices'[i - 1] == slices[i - 1]; }
    }
  }

  /** `position` counts the ink before a place in a section that starts at ink offset `base`. */
  function At(base: nat, section: string, position: nat): nat
    requires position <= |section|
  {
    base + |Ink(section[..position])|
  }

  lemma AtMonotone(base: nat, section: string, a: nat, b: nat)
    requires a <= b <= |section|
    ensures At(base, section, a) <= At(base, section, b) <= base + |Ink(section)|
  {
    InkSlice(section, a, b);
  }

  /** The part is what stands in the whole from offset `base` on. */
  predicate Inside(part: string, base: nat, whole: string) {
    base + |part| <= |whole| && part == whole[base..base + |part|]
  }

  function Piece(s: string, from: nat, to: nat): string
    requires from <= to <= |s|
  {
    s[from..to]
  }

  lemma InsideSlice(part: string, base: nat, whole: string, x: nat, y: nat)
    requires Inside(part, base, whole) && x <= y <= |part|
    ensures base + y <= |whole| && Piece(part, x, y) == Piece(whole, base + x, base + y)
  {
    var inner, outer := part[x..y], whole[base + x..base + y];
    forall i | 0 <= i < y - x ensures inner[i] == outer[i] {
      assert inner[i] == part[x + i] == whole[base + x + i];
    }
  }

  lemma WindowInSection(section: string, a: nat, b: nat)
    requires a <= b <= |section|
    ensures |Ink(section[..a])| <= |Ink(section[..b])| <= |Ink(section)|
    ensures Ink(Trim(section[a..b])) == Piece(Ink(section), |Ink(section[..a])|, |Ink(section[..b])|)
  {
    hide Ink, Trim;
    InkSlice(section, a, b);
    InkTrim(section[a..b]);
  }

  lemma WindowInk(base: nat, section: string, a: nat, b: nat, ink: string)
    requires a <= b <= |section| && Inside(Ink(section), base, ink)
    ensures At(base, section, a) <= At(base, section, b) <= |ink|
    ensures Ink(Trim(section[a..b])) == Piece(ink, At(base, section, a), At(base, section, b))
  {
    hide Ink, Trim, Inside, Piece;
    WindowInSection(section, a, b);
    InsideSlice(Ink(section), base, ink, |Ink(section[..a])|, |Ink(section[..b])|);
  }

  /** The next window starts exactly `overlap` before this one ends, and ends after it. */
  lemma NextStart(section: string, start: nat, target: nat, overlap: int) returns (next: nat)
    requires target > 0 && 0 <= overlap <= Half(target)
    requires start < |section| && WindowEnd(section, start, target) < |section|
    ensures next == Max(WindowEnd(section, start, target) - overlap, start + 1)
    ensures next == WindowEnd(section, start, target) - overlap
    ensures start + Half(target) + 1 - overlap <= next < |section|
    ensures WindowEnd(section, start, target) < WindowEnd(section, next, target)
  {
    hide Half;
    next := WindowEnd(section, start, target) - overlap;
  }

  /** The windows of a section, from a start that is already reached, extend a cover to its end. */
  lemma {:induction false} WindowsCover(
    texts: seq<string>, slices: seq<Span>, ink: string,
    section: string, base: nat, start: nat, reached: nat, target: nat, overlap: int)
    returns (all: seq<Span>)
    requires target > 0 && 0 <= overlap <= Half(target)
    requires Slices(texts, slices, ink)
    requires Inside(Ink(section), base, ink)
    requires start <= reached <= |section| && Reach(slices) == At(base, section, reached)
    requires start < |section| ==> reached < WindowEnd(section, start, target) || reached == start
    requires start >= |section| ==> reached == |section|
    ensures Slices(texts + WindowTexts(section, start, target, overlap), all, ink)
    ensures Reach(all) == base + |Ink(section)|
    decreases |section| - start
  {
    hide Ink, Trim, Half, WindowTexts, WindowEnd, NonEmpty, Slices, Max;
    if start >= |section| {
      assert section[..|section|] == section;
      NoWindows(section, start, target, overlap);
      assert texts + [] == texts;
      all := slices;
    } else {
      var end := WindowEnd(section, start, target);
      var text := Trim(section[start..end]);
      var later := UnfoldWindow(section, start, target, overlap);
      WindowInk(base, section, start, end, ink);
      AtMonotone(base, section, start, reached);
      AtMonotone(base, section, reached, end);
      var slice := Span(At(base, section, start), At(base, section, end));
      var texts', slices' := texts + NonEmpty([text]), slices;
      OneText(text);
      if text != [] {
        AppendSlice(texts, slices, ink, text, slice);
        slices' := slices + [slice];
      } else {
        BlankWindow(text, ink, slice);
        assert texts' == texts;
      }
      assert Reach(slices') == At(base, section, end);
      if end >= |section| {
        assert section[..|section|] == section;
        assert texts' + [] == texts';
        all := slices';
      } else {
        var next := NextStart(section, start, target, overlap);
        all := WindowsCover(texts', slices', ink, section, base, next, end, target, overlap);
      }
      assert texts + WindowTexts(section, start, target, overlap) == texts' + later;
    }
  }

  lemma NoWindows(section: string, start: nat, target: nat, overlap: int)
    requires target > 0 && start >= |section|
    ensures WindowTexts(section, start, target, overlap) == []
  {
  }

  lemma OneText(text: string)
    ensures NonEmpty([text]) == if text != [] then [text] else []
  {
    assert [text][..0] == [];
  }

  lemma BlankWindow(text: string, ink: string, slice: Span)
    requires text == [] && slice.start <= slice.end <= |ink| && Ink(text) == ink[slice.start..slice.end]
    ensures slice.start == slice.end
  {
  }

  // ----- sections -----

  lemma {:induction false} BlankLines(lines: seq<string>)
    requires !HasInk(lines)
    ensures InkOf(lines) == []
  {
    hide Ink, Trim;
    if lines != [] {
      var front, last := lines[..|lines| - 1], lines[|lines| - 1];
      assert Trim(last) == [];
      TrimEmpty(last);
      forall i | 0 <= i < |front| ensures Trim(front[i]) == [] {
        assert front[i] == lines[i];
      }
      BlankLines(front);
    }
  }

  /** Cutting lines into sections keeps their ink, whatever counts as a boundary. */
  lemma {:induction false} SectionsInk(lines: seq<string>, current: seq<string>, boundary: string -> bool)
    ensures InkOf(Sections(lines, current, boundary)) == InkOf(current) + InkOf(lines)
    decreases |lines|
  {
    hide Ink, Trim, Join, HasInk, InkOf, Sections;
    if lines == [] {
      LastSection(current, boundary);
    } else {
      var line, rest := lines[0], lines[1..];
      LinesInk(lines);
      if boundary(line) && HasInk(current) {
        SectionsInk(rest, [line], boundary);
        SectionCut(lines, current, boundary);
        OneInk(line);
      } else {
        SectionsInk(rest, current + [line], boundary);
        SectionGrows(lines, current, boundary);
        InkOfSnoc(current, line);
      }
      Regrouped(InkOf(current), Ink(line), InkOf(rest));
    }
  }

  lemma LinesInk(lines: seq<string>)
    requires lines != []
    ensures InkOf(lines) == Ink(lines[0]) + InkOf(lines[1..])
  {
    hide Ink, InkOf;
    InkOfCons(lines[0], lines[1..]);
    assert [lines[0]] + lines[1..] == lines;
  }

  lemma OneInk(line: string)
    ensures InkOf([line]) == Ink(line)
  {
    hide Ink;
    InkOfCons(line, []);
    assert [line] + [] == [line];
  }

  lemma Regrouped(a: string, b: string, c: string)
    ensures a + b + c == a + (b + c)
  {
  }

  lemma JoinedInk(current: seq<string>)
    ensures Ink(Trim(Join(current))) == InkOf(current)
  {
    hide Ink, Trim, Join, InkOf;
    InkJoin(current);
    InkTrim(Join(current));
  }

  /** After the last line the collected lines are the last section, if they hold any ink. */
  lemma LastSection(current: seq<string>, boundary: string -> bool)
    ensures InkOf(Sections([], current, boundary)) == InkOf(current) + InkOf([])
  {
    hide Ink, Trim, Join, HasInk;
    if HasInk(current) {
      JoinedInk(current);
      OneInk(Trim(Join(current)));
    } else {
      BlankLines(current);
    }
  }

  /** A boundary closes the collected lines as one section. */
  lemma SectionCut(lines: seq<string>, current: seq<string>, boundary: string -> bool)
    requires lines != [] && boundary(lines[0]) && HasInk(current)
    ensures InkOf(Sections(lines, current, boundary))
         == InkOf(current) + InkOf(Sections(lines[1..], [lines[0]], boundary))
  {
    var joined, later := Trim(Join(current)), Sections(lines[1..], [lines[0]], boundary);
    assert Sections(lines, current, boundary) == [joined] + later;
    hide Ink, Trim, Join, HasInk, InkOf, Sections;
    JoinedInk(current);
    InkOfCons(joined, later);
  }

  lemma SectionGrows(lines: seq<string>, current: seq<string>, boundary: string -> bool)
    requires lines != [] && !(boundary(lines[0]) && HasInk(current))
    ensures Sections(lines, current, boundary) == Sections(lines[1..], current + [lines[0]], boundary)
  {
    hide Ink, Trim, Join, HasInk;
  }

  lemma InkOfSnoc(texts: seq<string>, text: string)
    ensures InkOf(texts + [text]) == InkOf(texts) + Ink(text)
  {
    hide Ink;
    assert (texts + [text])[..|texts|] == texts;
  }

  // ----- packing -----

  /** The carried tail is a suffix of what was pending, up to whitespace. */
  lemma TailInk(content: string, overlap: int) returns (k: nat)
    ensures k <= |Ink(content)| && Ink(OverlapTail(content, overlap)) == Ink(content)[k..]
  {
    hide Ink, Trim;
    if overlap <= 0 {
      k := |Ink(content)|;
      EmptyInk();
    } else {
      var start := Max(0, |content| - overlap);
      var newline := IndexOfNewline(content, start);
      var from := if newline >= 0 then newline + 1 else start;
      InkTrim(content[from..]);
      InkSlice(content, from, |content|);
      assert content[..|content|] == content && content[from..|content|] == content[from..];
      k := |Ink(content[..from])|;
    }
  }

  lemma CombineInk(pending: string, section: string)
    ensures Ink(Combine(pending, section)) == Ink(pending) + Ink(section)
  {
    InkConcat(pending + "\n", section);
    InkConcat(pending, "\n");
    InkSingle('\n');
  }

  /** What has been read so far is covered by the pushed texts and the pending one. */
  ghost predicate PackCovers(p: Packing, slices: seq<Span>, from: nat, read: nat, ink: string) {
    && Slices(p.contents, slices, ink)
    && from <= Reach(slices) <= read <= |ink|
    && Ink(p.pending) == ink[from..read]
    && (p.pending == [] ==> Reach(slices) == read)
  }

  lemma FlushCovers(p: Packing, slices: seq<Span>, from: nat, read: nat, ink: string) returns (all: seq<Span>)
    requires PackCovers(p, slices, from, read, ink)
    ensures Slices(Flush(p), all, ink) && Reach(all) == read
  {
    hide Ink, Trim, Slices;
    all := slices;
    if p.pending != [] {
      InkTrim(p.pending);
      AppendSlice(p.contents, slices, ink, Trim(p.pending), Span(from, read));
      all := slices + [Span(from, read)];
    }
  }

  lemma PackStepCovers(p: Packing, slices: seq<Span>, from: nat, read: nat, ink: string,
                       section: string, target: nat, overlap: int)
    returns (slices': seq<Span>, from': nat)
    requires target > 0 && 0 <= overlap <= Half(target)
    requires PackCovers(p, slices, from, read, ink)
    requires Inside(Ink(section), read, ink)
    ensures PackCovers(Pack(p, section, target, overlap), slices', from', read + |Ink(section)|, ink)
  {
    hide Ink, Trim, Half, WindowTexts, Slices, OverlapTail, Combine;
    var next := read + |Ink(section)|;
    EmptyInk();
    if |section| > target {
      var flushed := FlushCovers(p, slices, from, read, ink);
      assert section[..0] == [];
      slices' := WindowsCover(Flush(p), flushed, ink, section, read, 0, 0, target, overlap);
      from' := next;
    } else if |Combine(p.pending, section)| > target && p.pending != [] {
      slices' := FlushCovers(p, slices, from, read, ink);
      var k := TailInk(p.pending, overlap);
      CombineInk(OverlapTail(p.pending, overlap), section);
      from' := from + k;
      assert ink[from..read][k..] + ink[read..next] == ink[from'..next];
      CombineNotEmpty(OverlapTail(p.pending, overlap), section);
    } else {
      slices' := slices;
      CombineInk(p.pending, section);
      from' := from;
      assert ink[from..read] + ink[read..next] == ink[from..next];
      CombineNotEmpty(p.pending, section);
    }
  }

  /** Only an empty pending text and an empty section combine to nothing. */
  lemma CombineNotEmpty(pending: string, section: string)
    ensures Combine(pending, section) == [] ==> pending == [] && section == []
  {
  }

  lemma {:induction false} InkOfPrefix(texts: seq<string>, n: nat)
    requires n < |texts|
    ensures InkOf(texts[..n + 1]) == InkOf(texts[..n]) + Ink(texts[n])
    ensures |InkOf(texts[..n + 1])| <= |InkOf(texts)| && Inside(Ink(texts[n]), |InkOf(texts[..n])|, InkOf(texts))
    decreases |texts|
  {
    hide Ink;
    assert texts[..n + 1][..n] == texts[..n];
    if n + 1 < |texts| {
      var front := texts[..|texts| - 1];
      InkOfPrefix(front, n);
      assert front[..n] == texts[..n] && front[n] == texts[n];
    } else {
      assert texts[..n + 1] == texts;
    }
  }

  lemma {:induction false} PackAllCovers(sections: seq<string>, n: nat, target: nat, overlap: int)
    returns (slices: seq<Span>, from: nat)
    requires target > 0 && 0 <= overlap <= Half(target) && n <= |sections|
    ensures |InkOf(sections[..n])| <= |InkOf(sections)|
    ensures PackCovers(PackAll(sections[..n], target, overlap), slices, from, |InkOf(sections[..n])|, InkOf(sections))
    decreases n
  {
    hide *;
    if n == 0 {
      NothingPacked(InkOf(sections), target, overlap);
      assert sections[..0] == [];
      slices, from := [], 0;
    } else {
      slices, from := PackAllCovers(sections, n - 1, target, overlap);
      InkOfPrefix(sections, n - 1);
      PackAllNext(sections, n - 1, target, overlap);
      slices, from := PackStepCovers(PackAll(sections[..n - 1], target, overlap), slices, from,
        |InkOf(sections[..n - 1])|, InkOf(sections), sections[n - 1], target, overlap);
    }
  }

  lemma NothingPacked(ink: string, target: nat, overlap: int)
    requires target > 0
    ensures InkOf([]) == [] && PackCovers(PackAll([], target, overlap), [], 0, 0, ink)
  {
    EmptyInk();
  }

  lemma PackAllNext(sections: seq<string>, n: nat, target: nat, overlap: int)
    requires target > 0 && n < |sections|
    ensures PackAll(sections[..n + 1], target, overlap)
         == Pack(PackAll(sections[..n], target, overlap), sections[n], target, overlap)
  {
    hide Pack;
    assert sections[..n + 1][..n] == sections[..n];
  }

  /**
   Chunk cover: whatever counts as a boundary and whatever the carried overlap, the ink of
   the chunks are contiguous slices of the ink of the file; the first starts at 0, the
   last ends at the end, and each begins no later than the previous one ends.
   */
  lemma ChunksCoverFile(content: string, boundary: string -> bool, target: nat, overlap: int)
    returns (texts: seq<string>, slices: seq<Span>)
    requires target > 0 && 0 <= overlap <= Half(target)
    ensures texts == ChunkTexts(content, boundary, target, overlap)
    ensures Covers(texts, slices, Ink(content))
  {
    hide Ink, Trim, Half, Slices;
    texts := ChunkTexts(content, boundary, target, overlap);
    var normalized := Trim(NormalizeNewlines(content));
    InkTrim(NormalizeNewlines(content));
    InkNormalize(content);
    if normalized == [] {
      EmptyInk();
      slices := [];
      NoSlices(Ink(content));
    } else {
      var sections := Sections(Lines(normalized), [], boundary);
      SectionsInk(Lines(normalized), [], boundary);
      InkLines(normalized);
      assert [] + InkOf(Lines(normalized)) == InkOf(Lines(normalized));
      var from;
      slices, from := PackAllCovers(sections, |sections|, target, overlap);
      assert sections[..|sections|] == sections;
      hide Sections, Lines, PackAll;
      slices := FinishCovers(PackAll(sections, target, overlap), slices, from, Ink(content));
    }
  }

  lemma NoSlices(ink: string)
    ensures Slices([], [], ink)
  {
  }

  lemma FinishCovers(p: Packing, slices: seq<Span>, from: nat, ink: string) returns (all: seq<Span>)
    requires PackCovers(p, slices, from, |ink|, ink)
    ensures Covers(Finished(p), all, ink)
  {
    hide Ink, Trim, Slices;
    TrimEmpty(p.pending);
    if Trim(p.pending) != [] {
      InkTrim(p.pending);
      AppendSlice(p.contents, slices, ink, Trim(p.pending), Span(from, |ink|));
      all := slices + [Span(from, |ink|)];
    } else {
      all := slices;
    }
  }

  // ----- size -----

  /** No chunk is longer than this: a carried tail and a newline can precede a full section. */
  function SizeBound(target: nat, overlap: int): nat {
    if overlap <= 0 then target else target + overlap + 1
  }

  ghost predicate Within(texts: seq<string>, bound: nat) {
    forall i :: 0 <= i < |texts| ==> |texts[i]| <= bound
  }

  lemma WithinConcat(a: seq<string>, b: seq<string>, bound: nat)
    requires Within(a, bound) && Within(b, bound)
    ensures Within(a + b, bound)
  {
  }

  lemma WindowSize(section: string, start: nat, target: nat)
    requires target > 0 && start < |section|
    ensures Within(NonEmpty([Trim(section[start..WindowEnd(section, start, target)])]), target)
  {
    hide Trim, WindowEnd, NonEmpty, Ink;
    var end := WindowEnd(section, start, target);
    OneText(Trim(section[start..end]));
    InkTrim(section[start..end]);
  }

  lemma {:induction false} WindowSizes(section: string, start: nat, target: nat, overlap: int)
    requires target > 0
    ensures Within(WindowTexts(section, start, target, overlap), target)
    decreases |section| - start
  {
    hide Trim, Half, WindowTexts, WindowEnd, NonEmpty, Ink, Within;
    if start >= |section| {
      NoWindows(section, start, target, overlap);
      NothingWithin(target);
    } else {
      var later := UnfoldWindow(section, start, target, overlap);
      WindowSize(section, start, target);
      if WindowEnd(section, start, target) < |section| {
        WindowSizes(section, Max(WindowEnd(section, start, target) - overlap, start + 1), target, overlap);
      } else {
        NothingWithin(target);
      }
      WithinConcat(NonEmpty([Trim(section[start..WindowEnd(section, start, target)])]), later, target);
    }
  }

  lemma NothingWithin(bound: nat)
    ensures Within([], bound)
  {
  }

  lemma TailSize(content: string, overlap: int)
    ensures |OverlapTail(content, overlap)| <= if overlap <= 0 then 0 else overlap
  {
    hide Ink, Trim;
    if overlap > 0 {
      var start := Max(0, |content| - overlap);
      var newline := IndexOfNewline(content, start);
      InkTrim(content[if newline >= 0 then newline + 1 else start..]);
    }
  }

  ghost predicate PackWithin(p: Packing, target: nat, overlap: int) {
    Within(p.contents, SizeBound(target, overlap)) && |p.pending| <= SizeBound(target, overlap)
  }

  lemma PackStepSize(p: Packing, section: string, target: nat, overlap: int)
    requires target > 0 && PackWithin(p, target, overlap)
    ensures PackWithin(Pack(p, section, target, overlap), target, overlap)
  {
    hide Ink, Trim, WindowTexts, OverlapTail;
    InkTrim(p.pending);
    WindowSizes(section, 0, target, overlap);
    TailSize(p.pending, overlap);
  }

  lemma {:induction false} PackAllSize(sections: seq<string>, target: nat, overlap: int)
    requires target > 0
    ensures PackWithin(PackAll(sections, target, overlap), target, overlap)
  {
    hide Pack;
    if sections != [] {
      PackAllSize(sections[..|sections| - 1], target, overlap);
      hide PackWithin;
      PackStepSize(PackAll(sections[..|sections| - 1], target, overlap), sections[|sections| - 1], target, overlap);
    }
  }

  /** No chunk exceeds target + overlap + 1 characters, and none exceeds target without overlap. */
  lemma ChunkSizes(content: string, boundary: string -> bool, target: nat, overlap: int) returns (texts: seq<string>)
    requires target > 0
    ensures texts == ChunkTexts(content, boundary, target, overlap)
    ensures Within(texts, SizeBound(target, overlap))
  {
    hide Ink, Trim, Sections, Lines, PackAll;
    texts := ChunkTexts(content, boundary, target, overlap);
    var normalized := Trim(NormalizeNewlines(content));
    if normalized != [] {
      var sections := Sections(Lines(normalized), [], boundary);
      PackAllSize(sections, target, overlap);
      InkTrim(PackAll(sections, target, overlap).pending);
    }
  }

  // ----- windows -----

  /** Windows that cover a text from `start`, overlap by exactly `overlap`, and end ever later. */
  ghost predicate Tiles(windows: seq<Span>, content: string, start: nat, target: nat, overlap: int) {
    && (forall i :: 0 <= i < |windows| ==>
          windows[i].start < windows[i].end <= |content| && windows[i].end - windows[i].start <= target)
    && (start < |content| ==> windows != [] && windows[0].start == start
                              && windows[|windows| - 1].end == |content|)
    && (forall i :: 0 < i < |windows| ==>
          windows[i].start == windows[i - 1].end - overlap && windows[i - 1].end < windows[i].end)
  }

  /** How far each window moves on at least. */
  function Stride(target: nat, overlap: int): int { Half(target) + 1 - overlap }

  lemma TilesPrepend(first: Span, later: seq<Span>, content: string, next: nat, target: nat, overlap: int)
    requires Tiles(later, content, next, target, overlap) && next < |content|
    requires first.start < first.end <= |content| && first.end - first.start <= target
    requires next == first.end - overlap && first.end < later[0].end
    ensures Tiles([first] + later, content, first.start, target, overlap)
  {
    var all := [first] + later;
    forall i | 0 < i < |all|
      ensures all[i].start == all[i - 1].end - overlap && all[i - 1].end < all[i].end
    {
      assert all[i] == later[i - 1];
      if i > 1 { assert all[i - 1] == later[i - 2]; }
    }
    assert all[|all| - 1] == later[|later| - 1];
  }

  /**
   For an overlap between 0 and half the target: the windows of a section cover it from
   start to end, each at most target long, with strictly increasing ends, and neighbours
   overlap by exactly `overlap` (the start + 1 fallback is never taken).
   */
  lemma {:induction false} WindowsTile(content: string, start: nat, target: nat, overlap: int)
    requires target > 0 && 0 <= overlap <= Half(target)
    ensures Tiles(RawWindows(content, start, target, overlap), content, start, target, overlap)
    decreases |content| - start
  {
    if start < |content| {
      hide Half, WindowEnd;
      var end := WindowEnd(content, start, target);
      if end < |content| {
        var next := NextStart(content, start, target, overlap);
        WindowsTile(content, next, target, overlap);
        var later := RawWindows(content, next, target, overlap);
        FirstWindow(content, next, target, overlap);
        UnfoldRaw(content, start, target, overlap);
        hide RawWindows, Tiles, Max;
        TilesPrepend(Span(start, end), later, content, next, target, overlap);
      } else {
        assert RawWindows(content, start, target, overlap) == [Span(start, end)];
      }
    }
  }

  /** There are at most 1 + (length - 1) / stride windows. */
  lemma {:induction false} WindowCount(content: string, start: nat, target: nat, overlap: int)
    requires target > 0 && 0 <= overlap <= Half(target) && start < |content|
    ensures (|RawWindows(content, start, target, overlap)| - 1) * Stride(target, overlap) < |content| - start
    decreases |content| - start
  {
    hide Half, WindowEnd, RawWindows, Max;
    if WindowEnd(content, start, target) < |content| {
      var next := NextStart(content, start, target, overlap);
      WindowCount(content, next, target, overlap);
      UnfoldRaw(content, start, target, overlap);
      Distribute(|RawWindows(content, next, target, overlap)| - 1, Stride(target, overlap));
    } else {
      OneWindow(content, start, target, overlap);
    }
  }

  lemma OneWindow(content: string, start: nat, target: nat, overlap: int)
    requires target > 0 && start < |content| && WindowEnd(content, start, target) == |content|
    ensures RawWindows(content, start, target, overlap) == [Span(start, |content|)]
  {
    hide WindowEnd;
  }

  lemma Distribute(n: int, stride: int)
    ensures (n + 1) * stride == n * stride + stride
  {
  }

  lemma UnfoldRaw(content: string, start: nat, target: nat, overlap: int)
    requires target > 0 && start < |content| && WindowEnd(content, start, target) < |content|
    ensures RawWindows(content, start, target, overlap) == [Span(start, WindowEnd(content, start, target))]
      + RawWindows(content, Max(WindowEnd(content, start, target) - overlap, start + 1), target, overlap)
  {
    hide WindowEnd;
  }

  lemma FirstWindow(content: string, start: nat, target: nat, overlap: int)
    requires target > 0 && start < |content|
    ensures var windows := RawWindows(content, start, target, overlap);
      windows != [] && windows[0] == Span(start, WindowEnd(content, start, target))
  {
    hide WindowEnd;
  }

  /** The window texts are the trimmed raw windows, without the blank ones. */
  function Trimmed(content: string, windows: seq<Span>): seq<string>
    requires forall i :: 0 <= i < |windows| ==> windows[i].start <= windows[i].end <= |content|
  {
    if windows == [] then []
    else NonEmpty([Trim(content[windows[0].start..windows[0].end])]) + Trimmed(content, windows[1..])
  }

  lemma TrimmedCons(content: string, first: Span, later: seq<Span>)
    requires first.start <= first.end <= |content|
    requires forall i :: 0 <= i < |later| ==> later[i].start <= later[i].end <= |content|
    ensures forall i :: 0 <= i < |[first] + later| ==>
      ([first] + later)[i].start <= ([first] + later)[i].end <= |content|
    ensures Trimmed(content, [first] + later)
      == NonEmpty([Trim(content[first.start..first.end])]) + Trimmed(content, later)
  {
    hide NonEmpty, Trim;
    assert ([first] + later)[1..] == later;
  }

  lemma {:induction false} WindowTextsAreWindows(content: string, start: nat, target: nat, overlap: int)
    requires target > 0
    ensures var windows := RawWindows(content, start, target, overlap);
      && (forall i :: 0 <= i < |windows| ==> windows[i].start <= windows[i].end <= |content|)
      && WindowTexts(content, start, target, overlap) == Trimmed(content, windows)
    decreases |content| - start
  {
    hide Half, WindowEnd, Trim, NonEmpty, WindowTexts, RawWindows, Trimmed;
    if start >= |content| {
      NoWindows(content, start, target, overlap);
      NoRawWindows(content, start, target, overlap);
    } else {
      var end := WindowEnd(content, start, target);
      var later := UnfoldWindow(content, start, target, overlap);
      if end < |content| {
        var next := Max(end - overlap, start + 1);
        WindowTextsAreWindows(content, next, target, overlap);
        UnfoldRaw(content, start, target, overlap);
        TrimmedCons(content, Span(start, end), RawWindows(content, next, target, overlap));
      } else {
        LastRaw(content, start, target, overlap);
        TrimmedCons(content, Span(start, end), []);
        assert [Span(start, end)] + [] == [Span(start, end)];
        NoRawWindows(content, |content|, target, overlap);
      }
    }
  }

  lemma NoRawWindows(content: string, start: nat, target: nat, overlap: int)
    requires target > 0 && start >= |content|
    ensures RawWindows(content, start, target, overlap) == [] && Trimmed(content, []) == []
  {
  }

  lemma LastRaw(content: string, start: nat, target: nat, overlap: int)
    requires target > 0 && start < |content| && WindowEnd(content, start, target) == |content|
    ensures RawWindows(content, start, target, overlap) == [Span(start, |content|)]
  {
    hide WindowEnd;
  }

  // ----- where the bounds are reached -----

  lemma {:induction false} NormalizeNothing(s: string)
    requires forall i :: 0 <= i < |s| ==> s[i] != '\r'
    ensures NormalizeNewlines(s) == s
  {
    if s != [] {
      NormalizeNothing(s[1..]);
      assert [s[0]] + s[1..] == s;
    }
  }

  lemma TrimNothing(s: string)
    requires s != [] && !IsSpace(s[0]) && !IsSpace(s[|s| - 1])
    ensures Trim(s) == s
  {
  }

  lemma TrimOne(s: string)
    requires s != [] && NoSpace(s)
    ensures Trim(s) == s && NormalizeNewlines(s) == s && Lines(s) == [s]
  {
    assert !IsSpace(s[0]) && !IsSpace(s[|s| - 1]);
    TrimNothing(s);
    NormalizeNothing(s);
  }

  /** Two solid lines are two lines. */
  lemma TwoLines(a: string, b: string)
    requires a != [] && b != [] && NoSpace(a) && NoSpace(b)
    ensures var text := a + "\n" + b;
      Trim(text) == text && NormalizeNewlines(text) == text && Lines(text) == [a, b]
  {
    hide Lines, Trim, NormalizeNewlines, IsSpace;
    var text := a + "\n" + b;
    assert text[0] == a[0] && text[|text| - 1] == b[|b| - 1];
    TrimNothing(text);
    TwoLinesPlain(a, b);
    NormalizeNothing(text);
    TwoLinesSplit(a, b);
  }

  lemma SolidPlain(s: string)
    requires NoSpace(s)
    ensures forall i :: 0 <= i < |s| ==> s[i] != '\r' && s[i] != '\n'
  {
    forall i | 0 <= i < |s| ensures s[i] != '\r' && s[i] != '\n' {
      assert !IsSpace(s[i]);
    }
  }

  lemma TwoLinesPlain(a: string, b: string)
    requires NoSpace(a) && NoSpace(b)
    ensures var text := a + "\n" + b; forall i :: 0 <= i < |text| ==> text[i] != '\r'
  {
    hide NoSpace;
    SolidPlain(a);
    SolidPlain(b);
  }

  lemma TwoLinesSplit(a: string, b: string)
    requires b != [] && NoSpace(a) && NoSpace(b)
    ensures Lines(a + "\n" + b) == [a, b]
  {
    hide NoSpace, Trim, NormalizeNewlines, IndexOfNewline;
    var text := a + "\n" + b;
    SolidPlain(a);
    TrimOne(b);
    assert text[|a|] == '\n';
    assert forall k :: 0 <= k < |a| ==> text[k] == a[k];
    var at := IndexOfNewline(text, 0);
    assert at == |a|;
    assert text[..at] == a && text[at + 1..] == b;
  }

  lemma TailOfSolid(a: string, overlap: int)
    requires a != [] && NoSpace(a) && overlap == |a|
    ensures OverlapTail(a, overlap) == a
  {
    TrimOne(a);
    hide Trim;
    var newline := IndexOfNewline(a, 0);
    forall k | 0 <= k < |a| ensures a[k] != '\n' { assert !IsSpace(a[k]); }
    assert newline < 0;
    assert a[0..] == a;
  }

  lemma TwoSections(a: string, b: string, boundary: string -> bool)
    requires Trim(a) == a && Trim(b) == b && a != [] && b != [] && boundary(b)
    ensures Sections([a, b], [], boundary) == [a, b]
  {
    hide Trim;
    assert [a, b][1..] == [b] && [b][1..] == [];
    assert HasInk([a]) by { assert Trim([a][0]) != []; }
    assert HasInk([b]) by { assert Trim([b][0]) != []; }
    assert !HasInk([]);
    assert [] + [a] == [a];
    assert Sections([], [b], boundary) == [b];
    assert Sections([b], [a], boundary) == [a] + [b];
  }

  lemma PackTwo(a: string, b: string, target: nat, overlap: int)
    requires 0 < overlap <= Half(target)
    requires NoSpace(a) && |a| == overlap && |b| == target
    ensures PackAll([a, b], target, overlap) == Packing([a], a + "\n" + b)
  {
    TrimOne(a);
    TailOfSolid(a, overlap);
    hide Trim, OverlapTail, WindowTexts, Half;
    assert [a, b][..1] == [a] && [a][..0] == [];
    assert PackAll([], target, overlap) == Packing([], []);
    assert Pack(Packing([], []), a, target, overlap) == Packing([], a);
    assert PackAll([a], target, overlap) == Packing([], a);
    assert Pack(Packing([], a), b, target, overlap) == Packing([a], a + "\n" + b);
  }

  /**
   The size bound is reached, for every target and every overlap: a full section behind a
   line of `overlap` characters gives a chunk of target + overlap + 1 characters.
   */
  lemma SizeBoundReached(a: string, b: string, boundary: string -> bool, target: nat, overlap: int)
    requires 0 < overlap <= Half(target) && boundary(b)
    requires NoSpace(a) && |a| == overlap && NoSpace(b) && |b| == target
    ensures var texts := ChunkTexts(a + "\n" + b, boundary, target, overlap);
      texts == [a, a + "\n" + b] && |texts[1]| == SizeBound(target, overlap)
  {
    hide Trim, NormalizeNewlines, Lines, Sections, PackAll, NoSpace, Half;
    var text := a + "\n" + b;
    TwoLines(a, b);
    TrimOne(a);
    TrimOne(b);
    TwoSections(a, b, boundary);
    PackTwo(a, b, target, overlap);
    assert ChunkTexts(text, boundary, target, overlap) == Finished(Packing([a], text));
    assert Finished(Packing([a], text)) == [a] + [text];
  }

  lemma SolidWindows(content: string, target: nat, overlap: int)
    requires target > 0 && overlap < 0 && NoSpace(content) && |content| == target - overlap + 1
    ensures WindowTexts(content, 0, target, overlap) == [content[0..target], content[target - overlap..|content|]]
  {
    hide Trim, WindowEnd, Half, NonEmpty, WindowTexts, Lines, NormalizeNewlines, IsSpace;
    var gap := target - overlap;
    var first, last := content[0..target], content[gap..|content|];
    SolidEnd(content, 0, target);
    LastEnd(content, gap, target);
    assert NoSpace(first) && NoSpace(last);
    hide NoSpace;
    TrimOne(first);
    TrimOne(last);
    var later := UnfoldWindow(content, 0, target, overlap);
    assert Max(target - overlap, 1) == gap;
    hide Max;
    var rest := UnfoldWindow(content, gap, target, overlap);
    OneText(first);
    OneText(last);
    assert later == [last] + [];
  }

  lemma LastEnd(content: string, start: nat, target: nat)
    requires target > 0 && start < |content| <= start + target
    ensures WindowEnd(content, start, target) == |content|
  {
  }

  lemma SolidEnd(content: string, start: nat, target: nat)
    requires target > 0 && NoSpace(content) && start + target < |content|
    ensures WindowEnd(content, start, target) == start + target
  {
    var newline := LastNewline(content, start + target);
    forall k | 0 <= k < |content| ensures content[k] != '\n' { assert !IsSpace(content[k]); }
    assert newline < 0;
  }

  lemma OneSection(content: string, boundary: string -> bool)
    requires content != [] && NoSpace(content)
    ensures Sections([content], [], boundary) == [content]
  {
    TrimOne(content);
    hide Trim;
    assert [content][1..] == [];
    assert !HasInk([]);
    assert [] + [content] == [content];
    assert HasInk([content]) by { assert Trim([content][0]) != []; }
  }

  lemma FarApart(first: string, last: string, ink: string)
    requires Ink(first) == first && Ink(last) == last
    requires |first| + |last| < |ink|
    ensures forall slices: seq<Span> :: !Covers([first, last], slices, ink)
  {
    hide Ink, Covers;
    forall slices: seq<Span> ensures !Covers([first, last], slices, ink) {
      if Covers([first, last], slices, ink) {
        TwoTextsReach(first, last, slices, ink);
        assert false;
      }
    }
  }

  lemma TwoTextsReach(first: string, last: string, slices: seq<Span>, ink: string)
    requires Ink(first) == first && Ink(last) == last && Covers([first, last], slices, ink)
    ensures |ink| <= |first| + |last|
  {
    hide Ink;
    var texts := [first, last];
    assert Ink(texts[0]) == ink[slices[0].start..slices[0].end];
    assert Ink(texts[1]) == ink[slices[1].start..slices[1].end];
  }

  /**
   The overlap has to be non-negative: with any negative one the chunks of a file of
   target - overlap + 1 solid characters cover it in no way at all.
   */
  lemma NegativeOverlapDropsText(content: string, boundary: string -> bool, target: nat, overlap: int)
    returns (texts: seq<string>)
    requires target > 0 && overlap < 0 && NoSpace(content) && |content| == target - overlap + 1
    ensures texts == ChunkTexts(content, boundary, target, overlap)
    ensures forall slices: seq<Span> :: !Covers(texts, slices, Ink(content))
  {
    var first, last := content[0..target], content[target - overlap..|content|];
    assert NoSpace(first) && NoSpace(last);
    hide Covers, NoSpace, Trim, NormalizeNewlines, Lines, Sections, WindowTexts, Ink, Half;
    TrimOne(content);
    OneSection(content, boundary);
    SolidWindows(content, target, overlap);
    NoSpaceIsAllInk(content);
    NoSpaceIsAllInk(first);
    NoSpaceIsAllInk(last);
    FarApart(first, last, content);
    PackLong(content, target, overlap);
    TrimEmpty([]);
    EmptyInk();
    hide PackAll;
    texts := [first, last];
  }

  lemma PackLong(content: string, target: nat, overlap: int)
    requires target > 0 && |content| > target
    ensures PackAll([content], target, overlap) == Packing(WindowTexts(content, 0, target, overlap), [])
  {
    hide WindowTexts;
    assert [content][..0] == [];
    assert [] + WindowTexts(content, 0, target, overlap) == WindowTexts(content, 0, target, overlap);
  }
}
