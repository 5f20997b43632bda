/**
 The source chunker: a file is normalised, cut into sections at language boundaries, and
 the sections are packed into chunks with a carried tail, or windowed when too long.
 What the regular expressions match is left open.
 */
module Chunker {
  import opened Common
  import opened CodeChunks
  import opened Text

  datatype Document = Document(filePath: string, content: string)

  /** The regular expressions, as what they compute. */
  datatype Patterns = Patterns(
    boundary: string -> bool,
    symbol: string -> Option<string>,
    selectors: string -> seq<string>,
    routes: string -> seq<string>
  )

  datatype Span = Span(start: nat, end: nat)

  function Min(a: int, b: int): int { if a <= b then a else b }

  function Max(a: int, b: int): int { if a >= b then a else b }

  /** Math.floor(n / 2) */
  function Half(n: nat): (h: nat)
    ensures 2 * h <= n <= 2 * h + 1
  {
    n / 2
  }

  // ----- sections -----

  predicate HasInk(lines: seq<string>) {
    exists i :: 0 <= i < |lines| && Trim(lines[i]) != []
  }

  function Sections(lines: seq<string>, current: seq<string>, boundary: string -> bool): seq<string> {
    if lines == [] then
      if HasInk(current) then [Trim(Join(current))] else []
    else if boundary(lines[0]) && HasInk(current) then
      [Trim(Join(current))] + Sections(lines[1..], [lines[0]], boundary)
    else
      Sections(lines[1..], current + [lines[0]], boundary)
  }

  method LanguageSections(content: string, boundary: string -> bool) returns (sections: seq<string>)
    ensures sections == Sections(Lines(content), [], boundary)
  {
    var lines := Lines(content);
    sections := [];
    var current: seq<string> := [];
    for n := 0 to |lines|
      invariant sections + Sections(lines[n..], current, boundary) == Sections(lines, [], boundary)
    {
      assert lines[n..][1..] == lines[n + 1..];
      var line := lines[n];
      if boundary(line) && HasInk(current) {
        sections := sections + [Trim(Join(current))];
        current := [];
      }
      assert [] + [line] == [line];
      current := current + [line];
    }
    if HasInk(current) {
      sections := sections + [Trim(Join(current))];
    }
  }

  // ----- windows -----

  function WindowEnd(content: string, start: nat, target: nat): (end: nat)
    requires start < |content| && target > 0
    ensures start < end <= |content| && end - start <= target
    ensures end == |content| || end > start + Half(target)
  {
    var end := Min(start + target, |content|);
    if end < |content| then
      var newline := LastNewline(content, end);
      if newline > start + Half(target) then newline else end
    else end
  }

  /** The windows of a section, before trimming. */
  function RawWindows(content: string, start: nat, target: nat, overlap: int): seq<Span>
    requires target > 0
    decreases |content| - start
  {
    if start >= |content| then []
    else
      var end := WindowEnd(content, start, target);
      [Span(start, end)]
        + if end >= |content| then []
          else RawWindows(content, Max(end - overlap, start + 1), target, overlap)
  }

  /** The trimmed window texts from `start` on, without the empty ones. */
  function WindowTexts(content: string, start: nat, target: nat, overlap: int): seq<string>
    requires target > 0
    decreases |content| - start
  {
    if start >= |content| then []
    else
      var end := WindowEnd(content, start, target);
      NonEmpty([Trim(content[start..end])])
        + if end >= |content| then []
          else WindowTexts(content, Max(end - overlap, start + 1), target, overlap)
  }

  /** windows.filter(Boolean) */
  function NonEmpty(texts: seq<string>): seq<string> {
    if texts == [] then []
    else NonEmpty(texts[..|texts| - 1])
         + if texts[|texts| - 1] != [] then [texts[|texts| - 1]] else []
  }

  lemma NonEmptyAppend(texts: seq<string>, text: string)
    ensures NonEmpty(texts + [text]) == NonEmpty(texts) + NonEmpty([text])
  {
    assert (texts + [text])[..|texts + [text]| - 1] == texts;
    assert [text][..0] == [];
  }

  /** The windows pushed so far, followed by those from `start` on, are all the windows. */
  ghost predicate Pushed(raw: seq<string>, content: string, start: nat, target: nat, overlap: int)
    requires target > 0
  {
    NonEmpty(raw) + WindowTexts(content, start, target, overlap) == WindowTexts(content, 0, target, overlap)
  }

  lemma UnfoldWindow(content: string, start: nat, target: nat, overlap: int) returns (later: seq<string>)
    requires target > 0 && start < |content|
    ensures var end := WindowEnd(content, start, target);
      && later == (if end >= |content| then []
                   else WindowTexts(content, Max(end - overlap, start + 1), target, overlap))
      && WindowTexts(content, start, target, overlap) == NonEmpty([Trim(content[start..end])]) + later
  {
    hide WindowEnd, Trim, NonEmpty;
    var end := WindowEnd(content, start, target);
    later := if end >= |content| then [] else WindowTexts(content, Max(end - overlap, start + 1), target, overlap);
  }

  lemma AppendWindow(raw: seq<string>, content: string, start: nat, target: nat, overlap: int,
                     text: string, later: seq<string>)
    requires target > 0 && Pushed(raw, content, start, target, overlap)
    requires WindowTexts(content, start, target, overlap) == NonEmpty([text]) + later
    ensures NonEmpty(raw + [text]) + later == WindowTexts(content, 0, target, overlap)
  {
    hide WindowTexts, NonEmpty;
    NonEmptyAppend(raw, text);
    assert NonEmpty(raw) + (NonEmpty([text]) + later) == NonEmpty(raw) + NonEmpty([text]) + later;
  }

  lemma PushWindow(raw: seq<string>, content: string, start: nat, end: nat, target: nat, overlap: int)
    requires target > 0 && start < |content| && Pushed(raw, content, start, target, overlap)
    requires end == WindowEnd(content, start, target) < |content|
    ensures Pushed(raw + [Trim(content[start..end])], content, Max(end - overlap, start + 1), target, overlap)
  {
    hide WindowEnd, Trim, NonEmpty, WindowTexts, Max;
    var later := UnfoldWindow(content, start, target, overlap);
    AppendWindow(raw, content, start, target, overlap, Trim(content[start..end]), later);
  }

  lemma PushLastWindow(raw: seq<string>, content: string, start: nat, end: nat, target: nat, overlap: int)
    requires target > 0 && start < |content| && Pushed(raw, content, start, target, overlap)
    requires end == WindowEnd(content, start, target) == |content|
    ensures NonEmpty(raw + [Trim(content[start..end])]) == WindowTexts(content, 0, target, overlap)
  {
    hide WindowEnd, Trim, NonEmpty, WindowTexts, Max;
    var later := UnfoldWindow(content, start, target, overlap);
    AppendWindow(raw, content, start, target, overlap, Trim(content[start..end]), later);
  }

  method WindowText(content: string, target: nat, overlap: int) returns (windows: seq<string>)
    requires target > 0
    ensures windows == WindowTexts(content, 0, target, overlap)
  {
    var raw: seq<string> := [];
    var start: nat := 0;
    assert Pushed(raw, content, start, target, overlap);
    hide Pushed, NonEmpty, Trim, WindowTexts;
    while start < |content|
      invariant Pushed(raw, content, start, target, overlap)
    {
      var end: nat := Min(start + target, |content|);
      if end < |content| {
        var newline := LastNewline(content, end);
        if newline > start + Half(target) {
          end := newline;
        }
      }
      assert end == WindowEnd(content, start, target);
      if end >= |content| {
        PushLastWindow(raw, content, start, end, target, overlap);
        raw := raw + [Trim(content[start..end])];
        return NonEmpty(raw);
      }
      PushWindow(raw, content, start, end, target, overlap);
      raw := raw + [Trim(content[start..end])];
      start := Max(end - overlap, start + 1);
    }
    AllPushed(raw, content, start, target, overlap);
    windows := NonEmpty(raw);
  }

  lemma AllPushed(raw: seq<string>, content: string, start: nat, target: nat, overlap: int)
    requires target > 0 && start >= |content| && Pushed(raw, content, start, target, overlap)
    ensures NonEmpty(raw) == WindowTexts(content, 0, target, overlap)
  {
  }

  // ----- packing -----

  function OverlapTail(content: string, overlap: int): string {
    if overlap <= 0 then []
    else
      var start := Max(0, |content| - overlap);
      var newline := IndexOfNewline(content, start);
      Trim(content[if newline >= 0 then newline + 1 else start..])
  }

  function Combine(pending: string, section: string): string {
    if pending != [] then pending + "\n" + section else section
  }

  /** The chunk texts pushed so far, and the text carried to the next section. */
  datatype Packing = Packing(contents: seq<string>, pending: string)

  function Flush(p: Packing): seq<string> {
    if p.pending != [] then p.contents + [Trim(p.pending)] else p.contents
  }

  function Pack(p: Packing, section: string, target: nat, overlap: int): Packing
    requires target > 0
  {
    if |section| > target then
      Packing(Flush(p) + WindowTexts(section, 0, target, overlap), [])
    else if |Combine(p.pending, section)| > target && p.pending != [] then
      Packing(Flush(p), Combine(OverlapTail(p.pending, overlap), section))
    else
      Packing(p.contents, Combine(p.pending, section))
  }

  function PackAll(sections: seq<string>, target: nat, overlap: int): Packing
    requires target > 0
  {
    if sections == [] then Packing([], [])
    else Pack(PackAll(sections[..|sections| - 1], target, overlap), sections[|sections| - 1], target, overlap)
  }

  /** What is left to push after the last section. */
  function Finished(p: Packing): seq<string> {
    if Trim(p.pending) != [] then p.contents + [Trim(p.pending)] else p.contents
  }

  function ChunkTexts(content: string, boundary: string -> bool, target: nat, overlap: int): seq<string>
    requires target > 0
  {
    var normalized := Trim(NormalizeNewlines(content));
    if normalized == [] then []
    else Finished(PackAll(Sections(Lines(normalized), [], boundary), target, overlap))
  }

  function Drafts(filePath: string, texts: seq<string>, patterns: Patterns): (r: seq<Draft>)
    ensures |r| == |texts|
    ensures forall i :: 0 <= i < |texts| ==>
      r[i].filePath == filePath && r[i].chunkIndex == i && r[i].content == texts[i]
      && r[i].symbol == patterns.symbol(texts[i]) && r[i].selectors == patterns.selectors(texts[i])
      && r[i].routes == patterns.routes(texts[i])
  {
    seq(|texts|, i requires 0 <= i < |texts| =>
      Draft(filePath, i, texts[i], patterns.symbol(texts[i]), patterns.selectors(texts[i]), patterns.routes(texts[i])))
  }

  function Chunked(document: Document, patterns: Patterns, target: nat, overlap: int): seq<Draft>
    requires target > 0
  {
    Drafts(document.filePath, ChunkTexts(document.content, patterns.boundary, target, overlap), patterns)
  }

  method ChunkDocument(document: Document, patterns: Patterns, target: nat, overlap: int)
    returns (chunks: seq<Draft>)
    requires target > 0
    ensures chunks == Chunked(document, patterns, target, overlap)
  {
    hide Half, WindowTexts, Trim, OverlapTail;
    var normalized := Trim(NormalizeNewlines(document.content));
    if normalized == [] {
      return [];
    }
    var sections := LanguageSections(normalized, patterns.boundary);
    var contents: seq<string> := [];
    var pending: string := [];
    for n := 0 to |sections|
      invariant Packing(contents, pending) == PackAll(sections[..n], target, overlap)
    {
      assert sections[..n + 1][..n] == sections[..n];
      var section := sections[n];
      if |section| > target {
        if pending != [] {
          contents := contents + [Trim(pending)];
          pending := [];
        }
        var windows := WindowText(section, target, overlap);
        contents := contents + windows;
        continue;
      }
      var combined := Combine(pending, section);
      if |combined| > target && pending != [] {
        contents := contents + [Trim(pending)];
        pending := Combine(OverlapTail(pending, overlap), section);
      } else {
        pending := combined;
      }
    }
    assert sections[..|sections|] == sections;
    if Trim(pending) != [] {
      contents := contents + [Trim(pending)];
    }
    chunks := Drafts(document.filePath, contents, patterns);
  }

  // ----- documents -----

  /** A stable sort: each document goes after every earlier one that is not greater. */
  function Inserted(document: Document, sorted: seq<Document>, less: (string, string) -> bool): seq<Document> {
    if sorted == [] || !less(document.filePath, sorted[|sorted| - 1].filePath) then sorted + [document]
    else Inserted(document, sorted[..|sorted| - 1], less) + [sorted[|sorted| - 1]]
  }

  function Sorted(documents: seq<Document>, less: (string, string) -> bool): seq<Document> {
    if documents == [] then []
    else Inserted(documents[|documents| - 1], Sorted(documents[..|documents| - 1], less), less)
  }

  predicate InOrder(documents: seq<Document>, less: (string, string) -> bool) {
    forall i :: 0 < i < |documents| ==> !less(documents[i].filePath, documents[i - 1].filePath)
  }

  /** Files that arrive in path order are left in place. */
  lemma {:induction false} SortKeepsOrder(documents: seq<Document>, less: (string, string) -> bool)
    requires InOrder(documents, less)
    ensures Sorted(documents, less) == documents
  {
    if documents != [] {
      var front := documents[..|documents| - 1];
      assert InOrder(front, less) by {
        forall i | 0 < i < |front| ensures !less(front[i].filePath, front[i - 1].filePath) {
          assert front[i] == documents[i] && front[i - 1] == documents[i - 1];
        }
      }
      SortKeepsOrder(front, less);
      assert front + [documents[|documents| - 1]] == documents;
    }
  }

  function ChunkAll(documents: seq<Document>, patterns: Patterns, target: nat, overlap: int): seq<Draft>
    requires target > 0
  {
    if documents == [] then []
    else Chunked(documents[0], patterns, target, overlap) + ChunkAll(documents[1..], patterns, target, overlap)
  }

  datatype ChunkingError = TargetTooSmall

  /** `less` is the order of String.prototype.localeCompare. */
  function ChunkDocuments(documents: seq<Document>, patterns: Patterns, less: (string, string) -> bool,
                          targetCharacters: Option<int>, overlapCharacters: Option<int>)
    : Result<seq<Draft>, ChunkingError>
  {
    var target := if targetCharacters.Some? then targetCharacters.value else 2000;
    if target < 200 then Err(TargetTooSmall)
    else
      var overlap := Min(if overlapCharacters.Some? then overlapCharacters.value else 200, Half(target));
      Ok(ChunkAll(Sorted(documents, less), patterns, target, overlap))
  }
}
