/**
 The staging part of an index run: files are chunked one after the other, drafts are
 embedded in provider-sized batches and inserted in slices. The batched pipeline does
 the work of chunking all files at once, cut into batches and each batch into slices.
 */
module IndexingPipeline {
  import opened Common
  import opened CodeChunks
  import opened IndexStore
  import opened Chunker

  /** A file of the archive; no content when its bytes do not decode as text. */
  datatype SourceFile = SourceFile(repoPath: string, content: Option<string>)

  datatype Provider = OpenAI | Gemini | Azure | Ollama | OpenAICompatible

  datatype Limits = Limits(embedBatchSize: nat, insertBatchSize: nat)

  datatype Problem =
    | StaleGeneration | DatabaseFailed
    | HeadFailed | DownloadFailed | ExtractionFailed | UnreadableFile(repoPath: string)
    | NoFiles | NoChunks
    | EmbeddingFailed | VectorMismatch | InsertFailed

  /** How a statement that checks the generation ends. */
  datatype Check = Fresh | Outdated | Broken

  /** What the repository host and the work directory do for a run. */
  datatype Archive = Archive(resolves: bool, downloads: bool, extracts: bool, readable: string -> bool)

  /** What a run does, as it does it. */
  datatype Act = Checks | Reports | Resolves | Downloads | Extracts | Reads(repoPath: string) | Embeds | Inserts

  /** Acts that a check of the generation comes right before. */
  predicate NeedsCheck(act: Act) { act.Reports? || act.Reads? || act.Embeds? || act.Inserts? }

  ghost predicate Guarded(log: seq<Act>) {
    forall i :: 0 <= i < |log| && NeedsCheck(log[i]) ==> i > 0 && log[i - 1] == Checks
  }

  lemma GuardedMore(log: seq<Act>, act: Act)
    requires Guarded(log) && (NeedsCheck(act) ==> log != [] && log[|log| - 1] == Checks)
    ensures Guarded(log + [act])
  {
    var longer := log + [act];
    forall i | 0 <= i < |longer| && NeedsCheck(longer[i]) ensures i > 0 && longer[i - 1] == Checks {
      if i < |log| { assert log[i] == longer[i]; }
    }
  }

  /** How many acts of each kind a run has done, and the files it has read. */
  datatype Tally = Tally(checks: nat, reports: nat, embeds: nat, inserts: nat, paths: seq<string>)

  function Counted(log: seq<Act>): Tally {
    if log == [] then Tally(0, 0, 0, 0, [])
    else
      var c := Counted(log[..|log| - 1]);
      match log[|log| - 1]
      case Checks => c.(checks := c.checks + 1)
      case Reports => c.(reports := c.reports + 1)
      case Embeds => c.(embeds := c.embeds + 1)
      case Inserts => c.(inserts := c.inserts + 1)
      case Reads(repoPath) => c.(paths := c.paths + [repoPath])
      case _ => c
  }

  lemma CountedMore(log: seq<Act>, act: Act)
    ensures var (c, d) := (Counted(log), Counted(log + [act]));
      && d.checks == c.checks + (if act.Checks? then 1 else 0)
      && d.reports == c.reports + (if act.Reports? then 1 else 0)
      && d.embeds == c.embeds + (if act.Embeds? then 1 else 0)
      && d.inserts == c.inserts + (if act.Inserts? then 1 else 0)
      && d.paths == c.paths + (if act.Reads? then [act.repoPath] else [])
  {
    assert (log + [act])[..|log|] == log;
  }

  function Paths(files: seq<SourceFile>): seq<string> {
    seq(|files|, i requires 0 <= i < |files| => files[i].repoPath)
  }

  const TARGET: nat := 2000

  const OVERLAP: int := 200

  // ----- cutting a list into batches -----

  /** The list in pieces of n; the last piece may be shorter. */
  function Cut<T>(s: seq<T>, n: nat): seq<seq<T>>
    requires n > 0
  {
    if s == [] then []
    else if |s| <= n then [s]
    else [s[..n]] + Cut(s[n..], n)
  }

  function Flat<T>(parts: seq<seq<T>>): seq<T> {
    if parts == [] then [] else parts[0] + Flat(parts[1..])
  }

  lemma {:induction false} FlatAppend<T>(a: seq<seq<T>>, b: seq<seq<T>>)
    ensures Flat(a + b) == Flat(a) + Flat(b)
  {
    if a == [] {
      assert a + b == b;
    } else {
      FlatAppend(a[1..], b);
      assert (a + b)[1..] == a[1..] + b;
      assert Flat(a + b) == a[0] + Flat(a[1..] + b);
    }
  }

  /** Cutting loses nothing, keeps the order, and all pieces but the last are full. */
  lemma {:induction false} CutKeepsAll<T>(s: seq<T>, n: nat)
    requires n > 0
    ensures Flat(Cut(s, n)) == s
    ensures forall i :: 0 <= i < |Cut(s, n)| ==> 0 < |Cut(s, n)[i]| <= n
    ensures forall i :: 0 <= i < |Cut(s, n)| - 1 ==> |Cut(s, n)[i]| == n
  {
    if |s| > n {
      var rest := Cut(s[n..], n);
      CutKeepsAll(s[n..], n);
      assert Cut(s, n) == [s[..n]] + rest;
      assert Cut(s, n)[1..] == rest;
      assert s[..n] + s[n..] == s;
      forall i | 0 < i < |Cut(s, n)|
        ensures 0 < |Cut(s, n)[i]| <= n && (i < |Cut(s, n)| - 1 ==> |Cut(s, n)[i]| == n)
      {
        assert Cut(s, n)[i] == rest[i - 1];
      }
    } else if s != [] {
      assert Cut(s, n) == [s] && Cut(s, n)[1..] == [];
      assert s + [] == s;
    }
  }

  lemma CutFirst<T>(s: seq<T>, n: nat)
    requires n > 0 && |s| >= n
    ensures Cut(s, n) == [s[..n]] + Cut(s[n..], n)
  {
    if |s| == n {
      assert s[..n] == s;
    }
  }

  // ----- what the run should do -----

  function Documents(files: seq<SourceFile>): seq<Document> {
    if files == [] then []
    else
      (if files[0].content.Some? then [Document(files[0].repoPath, files[0].content.value)] else [])
        + Documents(files[1..])
  }

  function FileDrafts(file: SourceFile, patterns: Patterns): seq<Draft> {
    if file.content.Some? then Chunked(Document(file.repoPath, file.content.value), patterns, TARGET, OVERLAP)
    else []
  }

  /** The drafts of the files, one file after the other. */
  function AllDrafts(files: seq<SourceFile>, patterns: Patterns): seq<Draft> {
    if files == [] then [] else FileDrafts(files[0], patterns) + AllDrafts(files[1..], patterns)
  }

  lemma {:induction false} DraftsAreChunkAll(files: seq<SourceFile>, patterns: Patterns)
    ensures AllDrafts(files, patterns) == ChunkAll(Documents(files), patterns, TARGET, OVERLAP)
  {
    hide Chunked;
    if files != [] {
      DraftsAreChunkAll(files[1..], patterns);
      assert [] + Documents(files[1..]) == Documents(files[1..]);
      if files[0].content.Some? {
        assert Documents(files)[1..] == Documents(files[1..]);
      }
    }
  }

  /** Chunking file by file is chunking the whole sorted archive in one call. */
  lemma FileByFileIsAllAtOnce(files: seq<SourceFile>, patterns: Patterns, less: (string, string) -> bool)
    requires InOrder(Documents(files), less)
    ensures ChunkDocuments(Documents(files), patterns, less, None, None) == Ok(AllDrafts(files, patterns))
  {
    hide ChunkAll, AllDrafts, Sorted;
    SortKeepsOrder(Documents(files), less);
    DraftsAreChunkAll(files, patterns);
  }

  lemma {:induction false} DraftsSplit(files: seq<SourceFile>, n: nat, patterns: Patterns)
    requires n <= |files|
    ensures AllDrafts(files[..n], patterns) + AllDrafts(files[n..], patterns) == AllDrafts(files, patterns)
  {
    hide FileDrafts;
    if n == 0 {
      assert files[0..] == files && files[..0] == [];
    } else {
      DraftsSplit(files[1..], n - 1, patterns);
      assert files[..n][1..] == files[1..][..n - 1];
      assert files[n..] == files[1..][n - 1..];
    }
  }

  ghost predicate DistinctPaths(files: seq<SourceFile>) {
    forall i, j :: 0 <= i < j < |files| ==> files[i].repoPath != files[j].repoPath
  }

  /** Chunks are stored under their path and index. */
  ghost predicate DistinctDrafts(drafts: seq<Draft>) {
    forall i, j :: 0 <= i < j < |drafts| ==>
      drafts[i].filePath != drafts[j].filePath || drafts[i].chunkIndex != drafts[j].chunkIndex
  }

  ghost predicate NotIn(path: string, drafts: seq<Draft>) {
    forall i :: 0 <= i < |drafts| ==> drafts[i].filePath != path
  }

  lemma FileDraftsShape(file: SourceFile, patterns: Patterns)
    ensures var r := FileDrafts(file, patterns);
      forall i :: 0 <= i < |r| ==> r[i].filePath == file.repoPath && r[i].chunkIndex == i
  {
    hide ChunkTexts;
  }

  lemma {:induction false} OtherPaths(path: string, files: seq<SourceFile>, patterns: Patterns)
    requires forall i :: 0 <= i < |files| ==> files[i].repoPath != path
    ensures NotIn(path, AllDrafts(files, patterns))
  {
    hide FileDrafts;
    if files != [] {
      FileDraftsShape(files[0], patterns);
      OtherPaths(path, files[1..], patterns);
    }
  }

  /** Files with distinct paths never give two drafts that would be stored under one key. */
  lemma {:induction false} DraftKeysDistinct(files: seq<SourceFile>, patterns: Patterns)
    requires DistinctPaths(files)
    ensures DistinctDrafts(AllDrafts(files, patterns))
  {
    hide FileDrafts, NotIn;
    if files != [] {
      DraftKeysDistinct(files[1..], patterns);
      FileDraftsShape(files[0], patterns);
      OtherPaths(files[0].repoPath, files[1..], patterns);
      JoinDistinct(files[0].repoPath, FileDrafts(files[0], patterns), AllDrafts(files[1..], patterns));
    }
  }

  lemma JoinDistinct(path: string, a: seq<Draft>, b: seq<Draft>)
    requires forall i :: 0 <= i < |a| ==> a[i].filePath == path && a[i].chunkIndex == i
    requires NotIn(path, b) && DistinctDrafts(b)
    ensures DistinctDrafts(a + b)
  {
  }

  // ----- embeddings and slices -----

  function Pair(drafts: seq<Draft>, vectors: seq<Vector>): seq<Chunk> {
    seq(Min(|drafts|, |vectors|), i requires 0 <= i < |drafts| && i < |vectors| => Chunk(drafts[i], vectors[i]))
  }

  type Embedder = seq<Draft> -> Option<seq<Vector>>

  /** The reply to a batch is usable: one vector of the right dimension for each draft. */
  predicate Usable(embed: Embedder, dimension: nat, batch: seq<Draft>) {
    && embed(batch).Some?
    && |embed(batch).value| == |batch|
    && forall i :: 0 <= i < |batch| ==> |embed(batch).value[i]| == dimension
  }

  /** A batch with the vectors it was answered with. */
  function Answered(embed: Embedder, batch: seq<Draft>): seq<Chunk> {
    if embed(batch).Some? then Pair(batch, embed(batch).value) else []
  }

  /** The inserts that a list of batches leads to. */
  function Slices(embed: Embedder, batches: seq<seq<Draft>>, insertSize: nat): seq<seq<Chunk>>
    requires insertSize > 0
  {
    if batches == [] then []
    else Cut(Answered(embed, batches[0]), insertSize) + Slices(embed, batches[1..], insertSize)
  }

  lemma Regroup<T>(a: seq<T>, b: seq<T>, c: seq<T>)
    ensures a + (b + c) == a + b + c
  {
  }

  lemma {:induction false} SlicesAppend(embed: Embedder, a: seq<seq<Draft>>, b: seq<seq<Draft>>, insertSize: nat)
    requires insertSize > 0
    ensures Slices(embed, a + b, insertSize) == Slices(embed, a, insertSize) + Slices(embed, b, insertSize)
  {
    hide Cut, Answered;
    if a == [] {
      assert a + b == b;
    } else {
      SlicesAppend(embed, a[1..], b, insertSize);
      assert (a + b)[1..] == a[1..] + b && (a + b)[0] == a[0];
      Regroup(Cut(Answered(embed, a[0]), insertSize), Slices(embed, a[1..], insertSize), Slices(embed, b, insertSize));
    }
  }

  lemma {:induction false} SliceSizes(embed: Embedder, batches: seq<seq<Draft>>, insertSize: nat)
    requires insertSize > 0
    ensures forall i :: 0 <= i < |Slices(embed, batches, insertSize)| ==>
      0 < |Slices(embed, batches, insertSize)[i]| <= insertSize
  {
    hide Cut, Answered;
    if batches != [] {
      var first := Cut(Answered(embed, batches[0]), insertSize);
      CutKeepsAll(Answered(embed, batches[0]), insertSize);
      SliceSizes(embed, batches[1..], insertSize);
      assert Slices(embed, batches, insertSize) == first + Slices(embed, batches[1..], insertSize);
    }
  }

  /** The embedding of a text does not depend on the batch it is sent in. */
  ghost predicate Pointwise(embed: Embedder, dimension: nat, vector: Draft -> Vector) {
    forall batch, i :: Usable(embed, dimension, batch) && 0 <= i < |batch| ==>
      embed(batch).value[i] == vector(batch[i])
  }

  /** The whole list, each draft with its own vector. */
  function OwnVectors(drafts: seq<Draft>, vector: Draft -> Vector): seq<Chunk> {
    seq(|drafts|, i requires 0 <= i < |drafts| => Chunk(drafts[i], vector(drafts[i])))
  }

  /** However the drafts were batched, what is saved is the list with each draft's own vector. */
  lemma {:induction false} SavedInOrder(embed: Embedder, dimension: nat, batches: seq<seq<Draft>>, insertSize: nat,
                                        vector: Draft -> Vector)
    requires insertSize > 0 && Pointwise(embed, dimension, vector)
    requires forall i :: 0 <= i < |batches| ==> Usable(embed, dimension, batches[i])
    ensures Flat(Slices(embed, batches, insertSize)) == OwnVectors(Flat(batches), vector)
  {
    hide Cut, Usable, Answered, Pointwise, OwnVectors;
    if batches == [] {
      NoVectors(vector);
    } else {
      var slices := Cut(Answered(embed, batches[0]), insertSize);
      assert forall i :: 0 <= i < |batches[1..]| ==> batches[1..][i] == batches[i + 1];
      SavedInOrder(embed, dimension, batches[1..], insertSize, vector);
      FlatAppend(slices, Slices(embed, batches[1..], insertSize));
      CutKeepsAll(Answered(embed, batches[0]), insertSize);
      assert Usable(embed, dimension, batches[0]);
      AnsweredInOrder(embed, dimension, batches[0], vector);
      VectorsAppend(batches[0], Flat(batches[1..]), vector);
    }
  }

  lemma NoVectors(vector: Draft -> Vector)
    ensures OwnVectors([], vector) == []
  {
  }

  lemma VectorsAppend(a: seq<Draft>, b: seq<Draft>, vector: Draft -> Vector)
    ensures OwnVectors(a + b, vector) == OwnVectors(a, vector) + OwnVectors(b, vector)
  {
  }

  lemma AnsweredInOrder(embed: Embedder, dimension: nat, batch: seq<Draft>, vector: Draft -> Vector)
    requires Pointwise(embed, dimension, vector) && Usable(embed, dimension, batch)
    ensures Answered(embed, batch) == OwnVectors(batch, vector)
  {
  }

  function BatchSize(provider: Provider, limits: Limits): nat {
    Min(limits.embedBatchSize, if provider == Gemini then 100 else if provider == Ollama then 32 else 96)
  }

  /** The largest size that the configuration and the provider both allow. */
  lemma BatchSizeIsLargest(provider: Provider, limits: Limits, n: nat)
    ensures n <= BatchSize(provider, limits) <==>
      && n <= limits.embedBatchSize
      && (provider == Gemini ==> n <= 100) && (provider == Ollama ==> n <= 32)
      && (provider == OpenAI || provider == Azure || provider == OpenAICompatible ==> n <= 96)
  {
  }

  // ----- reports -----

  /** From 40 before the first file to 85 after the last, in equal steps. */
  function FilePercent(done: nat, total: nat): (percent: real)
    requires total > 0
    ensures (percent - 40.0) * total as real == 45.0 * done as real
  {
    40.0 + (done as real / total as real) * 45.0
  }

  /** The drafts embedded when `count` have been produced: all whole batches. */
  function WholeBatches(count: nat, size: nat): nat
    requires size > 0
  {
    count - count % size
  }

  /** The reports after each 25th file and after the last, up to file n. */
  function FileReports(files: seq<SourceFile>, n: nat, patterns: Patterns, size: nat): seq<Progress>
    requires n <= |files| && size > 0
  {
    if n == 0 then []
    else
      FileReports(files, n - 1, patterns, size)
        + if n % 25 == 0 || n == |files| then
            [Progress(Embedding, FilePercent(n, |files|), n, Some(|files|),
                      WholeBatches(|AllDrafts(files[..n], patterns)|, size))]
          else []
  }

  function Opening(total: nat): seq<Progress> {
    [Progress(Authenticating, 5.0, 0, None, 0), Progress(Downloading, 10.0, 0, None, 0),
     Progress(Scanning, 25.0, 0, None, 0), Progress(ChunkingFiles, 40.0, 0, Some(total), 0)]
  }

  /** The stages before the first file, act by act; the last check is that of the preparation. */
  const OPENING_ACTS: seq<Act> := [
    Checks, Reports, Resolves, Checks,
    Checks, Reports, Downloads, Checks,
    Checks, Reports, Extracts,
    Checks, Reports, Checks]

  function RunReports(files: seq<SourceFile>, patterns: Patterns, size: nat): seq<Progress>
    requires size > 0
  {
    Opening(|files|) + FileReports(files, |files|, patterns, size)
      + [Progress(Saving, 92.0, |files|, Some(|files|), |AllDrafts(files, patterns)|)]
  }

  ghost predicate NonDecreasing(reports: seq<Progress>) {
    forall i, j :: 0 <= i < j < |reports| ==>
      BoundedPercent(reports[i].percent) <= BoundedPercent(reports[j].percent)
      && reports[i].filesProcessed <= reports[j].filesProcessed && reports[i].chunkCount <= reports[j].chunkCount
  }

  lemma FilePercentGrows(a: nat, b: nat, total: nat)
    requires a <= b <= total && total > 0
    ensures 40.0 <= FilePercent(a, total) <= FilePercent(b, total) <= 85.0
  {
    var size := total as real;
    QuotientGrows(0.0, a as real, size);
    QuotientGrows(a as real, b as real, size);
    QuotientGrows(b as real, size, size);
  }

  lemma QuotientGrows(a: real, b: real, c: real)
    requires a <= b && c > 0.0
    ensures a / c <= b / c
  {
    var x, y := a / c, b / c;
    assert x * c == a && y * c == b;
    if x > y {
      ProductKeepsSign(x - y, c);
      assert false;
    }
  }

  lemma ProductKeepsSign(a: real, b: real)
    requires a > 0.0 && b > 0.0
    ensures a * b > 0.0
  {
  }

  lemma MulMonotone(a: int, b: int, c: nat)
    requires a <= b
    ensures a * c <= b * c
  {
  }

  lemma WholeBatchesGrow(a: nat, b: nat, size: nat)
    requires a <= b && size > 0
    ensures WholeBatches(a, size) <= WholeBatches(b, size) <= b
  {
    var p, q := a / size, b / size;
    assert a == p * size + a % size && b == q * size + b % size;
    if p > q {
      MulMonotone(q + 1, p, size);
      assert false;
    }
    MulMonotone(p, q, size);
  }

  lemma WholePlusRest(count: nat, rest: nat, size: nat)
    requires size > 0 && count % size == 0 && rest < size
    ensures WholeBatches(count + rest, size) == count
  {
    var q := count / size;
    assert count == q * size;
    assert (q * size + rest) / size == q && (q * size + rest) % size == rest by {
      DivModUnique(q, rest, size);
    }
  }

  lemma DivModUnique(q: nat, rest: nat, size: nat)
    requires rest < size
    ensures (q * size + rest) / size == q && (q * size + rest) % size == rest
  {
    var n := q * size + rest;
    var d := n / size;
    assert n == d * size + n % size;
    if d < q {
      MulMonotone(d + 1, q, size);
      assert false;
    } else if d > q {
      MulMonotone(q + 1, d, size);
      assert false;
    }
  }

  /** The last file report is no later than file n. */
  lemma {:induction false} FileReportsGrow(files: seq<SourceFile>, n: nat, patterns: Patterns, size: nat)
    requires n <= |files| && size > 0
    ensures var r := FileReports(files, n, patterns, size);
      && NonDecreasing(r)
      && forall i :: 0 <= i < |r| ==>
           && 40.0 <= r[i].percent <= FilePercent(n, |files|) <= 85.0
           && r[i].filesProcessed <= n
           && r[i].chunkCount <= WholeBatches(|AllDrafts(files[..n], patterns)|, size)
    decreases n
  {
    hide AllDrafts, WholeBatches, FilePercent;
    if n > 0 {
      FileReportsGrow(files, n - 1, patterns, size);
      FilePercentGrows(n - 1, n, |files|);
      DraftsSplit(files[..n], n - 1, patterns);
      assert files[..n][..n - 1] == files[..n - 1];
      WholeBatchesGrow(|AllDrafts(files[..n - 1], patterns)|, |AllDrafts(files[..n], patterns)|, size);
    }
  }

  /** In a run that gets as far as activation the percentage shown never goes back. */
  lemma RunReportsGrow(files: seq<SourceFile>, patterns: Patterns, size: nat)
    requires files != [] && size > 0
    ensures NonDecreasing(RunReports(files, patterns, size))
  {
    hide AllDrafts, FileReports, WholeBatches, FilePercent;
    FileReportsGrow(files, |files|, patterns, size);
    assert files[..|files|] == files;
    WholeBatchesGrow(|AllDrafts(files, patterns)|, |AllDrafts(files, patterns)|, size);
  }

  /**
   Batching does not show in the result: the saved chunks are the drafts of one call of the
   chunker on the whole archive, each with its own vector, and no call is too large.
   */
  lemma BatchedIsAllAtOnce(files: seq<SourceFile>, patterns: Patterns, less: (string, string) -> bool,
                           provider: Provider, limits: Limits,
                           embed: Embedder, dimension: nat, vector: Draft -> Vector)
    returns (drafts: seq<Draft>, batches: seq<seq<Draft>>, inserts: seq<seq<Chunk>>)
    requires limits.embedBatchSize > 0 && limits.insertBatchSize > 0
    requires InOrder(Documents(files), less) && Pointwise(embed, dimension, vector)
    requires forall i :: 0 <= i < |Cut(AllDrafts(files, patterns), BatchSize(provider, limits))| ==>
      Usable(embed, dimension, Cut(AllDrafts(files, patterns), BatchSize(provider, limits))[i])
    ensures batches == Cut(AllDrafts(files, patterns), BatchSize(provider, limits))
    ensures inserts == Slices(embed, batches, limits.insertBatchSize)
    ensures ChunkDocuments(Documents(files), patterns, less, None, None) == Ok(drafts)
    ensures Flat(batches) == drafts && Flat(inserts) == OwnVectors(drafts, vector)
    ensures forall i :: 0 <= i < |batches| ==>
      0 < |batches[i]| <= limits.embedBatchSize && |batches[i]| <= 100
      && (provider == Ollama ==> |batches[i]| <= 32) && (provider != Gemini ==> |batches[i]| <= 96)
    ensures forall i :: 0 <= i < |inserts| ==> 0 < |inserts[i]| <= limits.insertBatchSize
  {
    hide Cut, AllDrafts, Slices, Flat, Usable, Pointwise, OwnVectors, ChunkDocuments, InOrder, Documents;
    var size := BatchSize(provider, limits);
    drafts := AllDrafts(files, patterns);
    batches := Cut(drafts, size);
    inserts := Slices(embed, batches, limits.insertBatchSize);
    FileByFileIsAllAtOnce(files, patterns, less);
    CutKeepsAll(drafts, size);
    SavedInOrder(embed, dimension, batches, limits.insertBatchSize, vector);
    SliceSizes(embed, batches, limits.insertBatchSize);
  }

  // ----- the run -----

  lemma CutPrefix(all: seq<seq<Draft>>, calls: seq<seq<Draft>>, drafts: seq<Draft>, rest: seq<Draft>, n: nat)
    requires n > 0 && 0 < |drafts| <= n && (|drafts| == n || rest == [])
    requires calls + Cut(drafts + rest, n) == all
    ensures calls + [drafts] + Cut(rest, n) == all
    ensures calls + [drafts] <= all
  {
    var list := drafts + rest;
    assert Cut(list, n) == [drafts] + Cut(rest, n) by {
      if |drafts| == n {
        CutFirst(list, n);
        assert list[..n] == drafts && list[n..] == rest;
      } else {
        assert list == drafts;
      }
    }
  }

  lemma SlicesPrefix(embed: Embedder, a: seq<seq<Draft>>, b: seq<seq<Draft>>, insertSize: nat)
    requires insertSize > 0 && a <= b
    ensures Slices(embed, a, insertSize) <= Slices(embed, b, insertSize)
  {
    hide Slices;
    SlicesAppend(embed, a, b[|a|..], insertSize);
    assert a + b[|a|..] == b;
  }

  /**
   One run from its first report to the point of activation, with what it has asked of
   its collaborators. `check` and `insertWorks` say how the n-th check of the generation and
   the n-th insert end; `embed` is the embedding client.
   */
  class IndexRun {
    const patterns: Patterns
    const limits: Limits
    const batchSize: nat
    const dimension: nat
    const embed: Embedder
    const archive: Archive
    const check: nat -> Check
    const insertWorks: nat -> bool

    var checks: nat
    var embedCalls: seq<seq<Draft>>
    var inserts: seq<seq<Chunk>>
    var reports: seq<Progress>
    ghost var log: seq<Act>

    constructor (patterns: Patterns, provider: Provider, limits: Limits, dimension: nat,
                 embed: Embedder, archive: Archive, check: nat -> Check, insertWorks: nat -> bool)
      requires limits.embedBatchSize > 0 && limits.insertBatchSize > 0
      ensures this.patterns == patterns && this.limits == limits && batchSize == BatchSize(provider, limits)
      ensures this.dimension == dimension && this.embed == embed
      ensures this.archive == archive && this.check == check && this.insertWorks == insertWorks
      ensures checks == 0 && embedCalls == [] && inserts == [] && reports == [] && log == [] && InStep()
    {
      this.patterns, this.limits, this.dimension := patterns, limits, dimension;
      batchSize := BatchSize(provider, limits);
      this.embed, this.archive, this.check, this.insertWorks := embed, archive, check, insertWorks;
      checks, embedCalls, inserts, reports, log := 0, [], [], [], [];
    }

    /** Sizes are positive; every batch sent so far was usable and has been inserted whole. */
    ghost predicate InStep()
      reads this
    {
      && batchSize > 0 && limits.insertBatchSize > 0
      && (forall i :: 0 <= i < |embedCalls| ==> Usable(embed, dimension, embedCalls[i]))
      && inserts == Slices(embed, embedCalls, limits.insertBatchSize)
    }

    /** The log holds what was asked of the collaborators, each time. */
    ghost predicate Tallied()
      reads this
    {
      var c := Counted(log);
      c.checks == checks && c.reports == |reports| && c.embeds == |embedCalls| && c.inserts == |inserts|
    }

    /** Every check so far has found the generation current, every insert has worked, and each act had its check. */
    ghost predicate Orderly()
      reads this
    {
      && Guarded(log) && Tallied()
      && (forall i: nat :: i < checks ==> check(i) == Fresh)
      && (forall k: nat :: k < |inserts| ==> insertWorks(k))
    }

    /** The same after a failure, which the last check may have been. */
    ghost predicate Stopped()
      reads this
    {
      && Guarded(log) && Tallied()
      && (forall i: nat :: i + 1 < checks ==> check(i) == Fresh)
      && (forall k: nat :: k < |inserts| ==> insertWorks(k))
    }

    /** The checks that belong to no report, no call of the embedding client and no insert. */
    ghost function Extra(): int
      reads this
    {
      checks - |reports| - |embedCalls| - |inserts|
    }

    /** A failure names the collaborator that failed last; after a check that fails nothing else is done. */
    ghost predicate Explains(problem: Problem)
      reads this
    {
      match problem
      case StaleGeneration => checks > 0 && check(checks - 1) == Outdated && log != [] && log[|log| - 1] == Checks
      case DatabaseFailed => checks > 0 && check(checks - 1) == Broken && log != [] && log[|log| - 1] == Checks
      case HeadFailed => !archive.resolves
      case DownloadFailed => !archive.downloads
      case ExtractionFailed => !archive.extracts
      case UnreadableFile(repoPath) => !archive.readable(repoPath)
      case InsertFailed => !insertWorks(|inserts|)
      case EmbeddingFailed => embedCalls != [] && embed(embedCalls[|embedCalls| - 1]).None?
      case VectorMismatch =>
        && embedCalls != [] && embed(embedCalls[|embedCalls| - 1]).Some?
        && !Usable(embed, dimension, embedCalls[|embedCalls| - 1])
      case NoFiles => false
      case NoChunks => false
    }

    function Checked(c: Check): Result<(), Problem> {
      match c
      case Fresh => Ok(())
      case Outdated => Err(StaleGeneration)
      case Broken => Err(DatabaseFailed)
    }

    method EnsureCurrent() returns (r: Result<(), Problem>)
      requires Orderly()
      modifies this`checks, this`log
      ensures checks == old(checks) + 1 && log == old(log) + [Checks]
      ensures Counted(log).paths == old(Counted(log).paths)
      ensures r.Ok? ==> Orderly()
      ensures r.Err? ==> Explains(r.error) && Stopped()
    {
      hide Guarded, Counted;
      GuardedMore(log, Checks);
      CountedMore(log, Checks);
      r := Checked(check(checks));
      checks, log := checks + 1, log + [Checks];
    }

    /** A step of the repository host, or a file that is read after its check. */
    ghost method Note(act: Act)
      requires act.Resolves? || act.Downloads? || act.Extracts? || act.Reads?
      requires Orderly() && (NeedsCheck(act) ==> log != [] && log[|log| - 1] == Checks)
      modifies this`log
      ensures Orderly() && log == old(log) + [act]
      ensures Counted(log).paths == old(Counted(log).paths) + if act.Reads? then [act.repoPath] else []
    {
      hide Guarded, Counted;
      GuardedMore(log, act);
      CountedMore(log, act);
      log := log + [act];
    }

    method Report(p: Progress) returns (r: Result<(), Problem>)
      requires Orderly()
      modifies this`checks, this`reports, this`log
      ensures checks == old(checks) + 1
      ensures r.Ok? ==> Orderly() && log == old(log) + [Checks, Reports]
      ensures Counted(log).paths == old(Counted(log).paths)
      ensures r.Err? ==> Explains(r.error) && Stopped()
      ensures reports == if r.Ok? then old(reports) + [p] else old(reports)
    {
      hide Guarded, Counted;
      r := EnsureCurrent();
      if r.Ok? {
        GuardedMore(log, Reports);
        CountedMore(log, Reports);
        reports, log := reports + [p], log + [Reports];
      }
    }

    method SaveChunks(slice: seq<Chunk>) returns (r: Result<(), Problem>)
      requires Orderly()
      modifies this`checks, this`inserts, this`log
      ensures r.Ok? ==> inserts == if slice == [] then old(inserts) else old(inserts) + [slice]
      ensures r.Ok? ==> Orderly() && Extra() == old(Extra()) && Counted(log).paths == old(Counted(log).paths)
      ensures r.Err? ==> inserts == old(inserts) && Explains(r.error) && Stopped()
    {
      hide Guarded, Counted;
      if slice == [] {
        return Ok(());
      }
      r := EnsureCurrent();
      if r.Ok? {
        if insertWorks(|inserts|) {
          GuardedMore(log, Inserts);
          CountedMore(log, Inserts);
          inserts, log := inserts + [slice], log + [Inserts];
        } else {
          r := Err(InsertFailed);
        }
      }
    }

    /** One batch: embedded in one call, inserted slice by slice; after a failure a prefix is stored. */
    method EmbedAndSave(drafts: seq<Draft>) returns (r: Result<nat, Problem>)
      requires InStep() && Orderly() && 0 < |drafts| <= batchSize
      modifies this`checks, this`embedCalls, this`inserts, this`log
      ensures r.Ok? ==> Orderly() && Extra() == old(Extra()) && Counted(log).paths == old(Counted(log).paths)
      ensures r.Err? ==> Stopped()
      ensures r.Ok? ==> r.value == |drafts| && InStep() && embedCalls == old(embedCalls) + [drafts]
      ensures r.Err? ==> Explains(r.error) && old(embedCalls) <= embedCalls <= old(embedCalls) + [drafts]
      ensures r.Err? ==> inserts <= Slices(embed, old(embedCalls) + [drafts], limits.insertBatchSize)
      ensures !Usable(embed, dimension, drafts) ==> r.Err? && inserts == old(inserts)
      ensures r.Ok? ==> embed(drafts).Some? && |embed(drafts).value| == |drafts|
                        && forall i :: 0 <= i < |drafts| ==> |embed(drafts).value[i]| == dimension
    {
      hide Slices, Usable, Cut, Guarded, Counted;
      SlicesAppend(embed, embedCalls, [drafts], limits.insertBatchSize);
      var current := EnsureCurrent();
      if current.Err? {
        return Err(current.error);
      }
      GuardedMore(log, Embeds);
      CountedMore(log, Embeds);
      log := log + [Embeds];
      embedCalls := embedCalls + [drafts];
      var reply := embed(drafts);
      if reply.None? {
        NoneUnusable(embed, dimension, drafts);
        return Err(EmbeddingFailed);
      }
      if !Usable(embed, dimension, drafts) {
        return Err(VectorMismatch);
      }
      var vectors := reply.value;
      UsableMeans(embed, dimension, drafts);
      OneBatch(embed, dimension, drafts, limits.insertBatchSize);
      ghost var before, all := inserts, Pair(drafts, vectors);
      ghost var left := Cut(all, limits.insertBatchSize);
      assert all[0..] == all;
      var start := 0;
      while start < |drafts|
        invariant embedCalls == old(embedCalls) + [drafts] && Orderly() && Extra() == old(Extra())
        invariant Counted(log).paths == old(Counted(log).paths)
        invariant inserts + left == before + Cut(all, limits.insertBatchSize)
        invariant left == Cut(all[Min(start, |drafts|)..], limits.insertBatchSize)
        decreases |drafts| - start
      {
        var end := start + limits.insertBatchSize;
        var stop := Min(end, |drafts|);
        var slice := Pair(drafts[start..stop], vectors[start..stop]);
        NextSlice(drafts, vectors, start, limits.insertBatchSize);
        left := Cut(all[stop..], limits.insertBatchSize);
        NextPiece(inserts, slice, left, before + Cut(all, limits.insertBatchSize));
        var saved := SaveChunks(slice);
        if saved.Err? {
          return Err(saved.error);
        }
        start := end;
      }
      CutNothing<Chunk>(limits.insertBatchSize);
      assert all[|drafts|..] == [];
      assert inserts + [] == inserts;
      return Ok(|drafts|);
    }

    lemma HostExplained()
      requires Orderly()
      ensures Stopped()
      ensures !archive.resolves ==> Explains(HeadFailed)
      ensures !archive.downloads ==> Explains(DownloadFailed)
      ensures !archive.extracts ==> Explains(ExtractionFailed)
    {
    }

    method Authenticate() returns (r: Result<(), Problem>)
      requires Orderly()
      modifies this`checks, this`reports, this`log
      ensures r.Ok? ==> archive.resolves && reports == old(reports) + [Progress(Authenticating, 5.0, 0, None, 0)]
      ensures r.Ok? ==> Orderly() && Extra() == old(Extra()) + 1
      ensures r.Ok? ==> log == old(log) + [Checks, Reports, Resolves, Checks]
      ensures Counted(log).paths == old(Counted(log).paths)
      ensures r.Err? ==> Explains(r.error) && Stopped()
    {
      hide Orderly, Stopped, Explains, Counted;
      r := Report(Progress(Authenticating, 5.0, 0, None, 0));
      if r.Err? { return; }
      HostExplained();
      if !archive.resolves { return Err(HeadFailed); }
      Note(Resolves);
      r := EnsureCurrent();
    }

    method Download() returns (r: Result<(), Problem>)
      requires Orderly()
      modifies this`checks, this`reports, this`log
      ensures r.Ok? ==> archive.downloads && reports == old(reports) + [Progress(Downloading, 10.0, 0, None, 0)]
      ensures r.Ok? ==> Orderly() && Extra() == old(Extra()) + 1
      ensures r.Ok? ==> log == old(log) + [Checks, Reports, Downloads, Checks]
      ensures Counted(log).paths == old(Counted(log).paths)
      ensures r.Err? ==> Explains(r.error) && Stopped()
    {
      hide Orderly, Stopped, Explains, Counted;
      r := Report(Progress(Downloading, 10.0, 0, None, 0));
      if r.Err? { return; }
      HostExplained();
      if !archive.downloads { return Err(DownloadFailed); }
      Note(Downloads);
      r := EnsureCurrent();
    }

    /** Extraction, and the check of the preparation. */
    method Scan(files: seq<SourceFile>) returns (r: Result<(), Problem>)
      requires Orderly()
      modifies this`checks, this`reports, this`log
      ensures r.Ok? ==> files != [] && archive.extracts
      ensures r.Ok? ==>
        reports == old(reports) + [Progress(Scanning, 25.0, 0, None, 0)]
                   + [Progress(ChunkingFiles, 40.0, 0, Some(|files|), 0)]
      ensures r.Ok? ==> Orderly() && Extra() == old(Extra()) + 1
      ensures r.Ok? ==> log == old(log) + [Checks, Reports, Extracts, Checks, Reports, Checks]
      ensures Counted(log).paths == old(Counted(log).paths)
      ensures r.Err? ==> ((r.error == NoFiles && files == []) || Explains(r.error)) && Stopped()
    {
      hide Orderly, Stopped, Explains, Counted;
      r := Report(Progress(Scanning, 25.0, 0, None, 0));
      if r.Err? { return; }
      HostExplained();
      if !archive.extracts { return Err(ExtractionFailed); }
      Note(Extracts);
      HostExplained();
      if files == [] { return Err(NoFiles); }
      r := Report(Progress(ChunkingFiles, 40.0, 0, Some(|files|), 0));
      if r.Err? { return; }
      r := EnsureCurrent();
    }

    /** The stages before the first file. */
    method Open(files: seq<SourceFile>) returns (r: Result<(), Problem>)
      requires reports == [] && log == [] && Orderly()
      modifies this`checks, this`reports, this`log
      ensures r.Ok? ==> files != [] && reports == Opening(|files|)
      ensures r.Ok? ==> archive.resolves && archive.downloads && archive.extracts
      ensures r.Ok? ==> Orderly() && Extra() == old(Extra()) + 3 && log == OPENING_ACTS
      ensures Counted(log).paths == old(Counted(log).paths)
      ensures r.Err? ==> ((r.error == NoFiles && files == []) || Explains(r.error)) && Stopped()
    {
      hide Orderly, Stopped, Explains, Counted;
      r := Authenticate();
      if r.Err? { return; }
      r := Download();
      if r.Err? { return; }
      r := Scan(files);
    }

    /**
     The batches that are full; `rest` is what later files will add. `whole` lists all
     batches of the run, of which those sent are always the first ones.
     */
    method SendFullBatches(drafts: seq<Draft>, ghost rest: seq<Draft>, ghost whole: seq<seq<Draft>>)
      returns (r: Result<nat, Problem>, pending: seq<Draft>)
      requires InStep() && Orderly() && embedCalls + Cut(drafts + rest, batchSize) == whole
      modifies this`checks, this`embedCalls, this`inserts, this`log
      ensures r.Ok? ==> Orderly() && Extra() == old(Extra()) && Counted(log).paths == old(Counted(log).paths)
      ensures r.Err? ==> Stopped()
      ensures r.Ok? ==> InStep() && |pending| < batchSize && r.value % batchSize == 0
      ensures r.Ok? ==> r.value + |pending| == |drafts| && embedCalls + Cut(pending + rest, batchSize) == whole
      ensures r.Err? ==> Explains(r.error) && embedCalls <= whole
      ensures r.Err? ==> inserts <= Slices(embed, whole, limits.insertBatchSize)
    {
      hide Slices, Usable, Cut, Explains, Orderly, Stopped, Counted;
      var chunkCount := 0;
      pending := drafts;
      while |pending| >= batchSize
        invariant InStep() && chunkCount % batchSize == 0 && chunkCount + |pending| == |drafts|
        invariant Orderly() && Extra() == old(Extra()) && Counted(log).paths == old(Counted(log).paths)
        invariant embedCalls + Cut(pending + rest, batchSize) == whole
        decreases |pending|
      {
        var batch := pending[..batchSize];
        assert pending + rest == batch + (pending[batchSize..] + rest);
        pending := pending[batchSize..];
        CutPrefix(whole, embedCalls, batch, pending + rest, batchSize);
        SlicesPrefix(embed, embedCalls + [batch], whole, limits.insertBatchSize);
        var saved := EmbedAndSave(batch);
        if saved.Err? {
          return Err(saved.error), pending;
        }
        WholeAddition(chunkCount, saved.value, batchSize);
        chunkCount := chunkCount + saved.value;
      }
      r := Ok(chunkCount);
    }

    /** After every 25th file and after the last. */
    method ReportFile(files: seq<SourceFile>, filesProcessed: nat, chunkCount: nat) returns (r: Result<(), Problem>)
      requires batchSize > 0 && 0 < filesProcessed <= |files|
      requires chunkCount == WholeBatches(|AllDrafts(files[..filesProcessed], patterns)|, batchSize)
      requires reports == Opening(|files|) + FileReports(files, filesProcessed - 1, patterns, batchSize) && Orderly()
      modifies this`checks, this`reports, this`log
      ensures r.Ok? ==> reports == Opening(|files|) + FileReports(files, filesProcessed, patterns, batchSize)
      ensures r.Ok? ==> Orderly() && Extra() == old(Extra()) && Counted(log).paths == old(Counted(log).paths)
      ensures r.Err? ==> Explains(r.error) && Stopped()
    {
      hide AllDrafts, FileReports, WholeBatches, Opening, Orderly, Stopped, Explains, Counted;
      NextReport(files, filesProcessed, patterns, batchSize);
      if filesProcessed % 25 == 0 || filesProcessed == |files| {
        var percent := 40.0 + (filesProcessed as real / |files| as real) * 45.0;
        r := Report(Progress(Embedding, percent, filesProcessed, Some(|files|), chunkCount));
      } else {
        r := Ok(());
      }
    }

    /** After n files: what is pending and what later files add are the batches still to be sent. */
    ghost predicate Underway(files: seq<SourceFile>, n: nat, pending: seq<Draft>, chunkCount: nat,
                             whole: seq<seq<Draft>>)
      reads this
    {
      && InStep() && Orderly() && Extra() == 3 + n && n <= |files| && |pending| < batchSize
      && Counted(log).paths == Paths(files[..n])
      && (forall i :: 0 <= i < n ==> archive.readable(files[i].repoPath))
      && embedCalls + Cut(pending + AllDrafts(files[n..], patterns), batchSize) == whole
      && chunkCount % batchSize == 0
      && chunkCount + |pending| == |AllDrafts(files[..n], patterns)|
      && reports == Opening(|files|) + FileReports(files, n, patterns, batchSize)
    }

    lemma UnreadableExplained(repoPath: string)
      requires !archive.readable(repoPath)
      ensures Explains(UnreadableFile(repoPath))
    {
    }

    /** One turn of the loop over the files. */
    method IndexFile(files: seq<SourceFile>, n: nat, pending: seq<Draft>, chunkCount: nat, ghost whole: seq<seq<Draft>>)
      returns (r: Result<nat, Problem>, left: seq<Draft>)
      requires n < |files| && Underway(files, n, pending, chunkCount, whole)
      modifies this
      ensures r.Ok? ==> Underway(files, n + 1, left, r.value, whole)
      ensures r.Err? ==> Explains(r.error) && Stopped() && embedCalls <= whole
      ensures r.Err? ==> inserts <= Slices(embed, whole, limits.insertBatchSize)
    {
      hide Slices, Usable, Cut, AllDrafts, FileDrafts, FileReports, WholeBatches, FilePercent, Explains, Opening;
      hide Guarded, Counted, Paths;
      left := pending;
      SlicesPrefix(embed, embedCalls, whole, limits.insertBatchSize);
      var current := EnsureCurrent();
      if current.Err? {
        return Err(current.error), left;
      }
      if !archive.readable(files[n].repoPath) {
        UnreadableExplained(files[n].repoPath);
        return Err(UnreadableFile(files[n].repoPath)), left;
      }
      Note(Reads(files[n].repoPath));
      NextPath(files, n);
      NextFile(files, n, patterns);
      ghost var rest := AllDrafts(files[n + 1..], patterns);
      assert pending + (FileDrafts(files[n], patterns) + rest) == pending + FileDrafts(files[n], patterns) + rest;
      left := pending + FileDrafts(files[n], patterns);
      r, left := SendFullBatches(left, rest, whole);
      if r.Err? {
        return;
      }
      WholeAddition(chunkCount, r.value, batchSize);
      WholePlusRest(chunkCount + r.value, |left|, batchSize);
      SlicesPrefix(embed, embedCalls, whole, limits.insertBatchSize);
      var reported := ReportFile(files, n + 1, chunkCount + r.value);
      r := if reported.Ok? then Ok(chunkCount + r.value) else Err(reported.error);
    }

    /** What is pending after the last file goes out as the last batch. */
    method SendRest(files: seq<SourceFile>, pending: seq<Draft>, chunkCount: nat, ghost whole: seq<seq<Draft>>)
      returns (r: Result<nat, Problem>)
      requires Underway(files, |files|, pending, chunkCount, whole)
      modifies this`checks, this`embedCalls, this`inserts, this`log
      ensures r.Ok? ==> InStep() && embedCalls == whole && r.value == |AllDrafts(files, patterns)|
      ensures r.Ok? ==> Orderly() && Extra() == old(Extra()) && Counted(log).paths == old(Counted(log).paths)
      ensures r.Err? ==> Explains(r.error) && Stopped() && embedCalls <= whole
      ensures r.Err? ==> inserts <= Slices(embed, whole, limits.insertBatchSize)
    {
      hide Slices, Usable, Cut, AllDrafts, FileReports, Explains, Opening, Orderly, Stopped, Counted;
      assert files[|files|..] == [] && files[..|files|] == files;
      assert pending + [] == pending;
      NoDrafts(patterns);
      CutNothing<Draft>(batchSize);
      if pending == [] {
        return Ok(chunkCount);
      }
      CutPrefix(whole, embedCalls, pending, [], batchSize);
      SlicesPrefix(embed, embedCalls + [pending], whole, limits.insertBatchSize);
      r := EmbedAndSave(pending);
      if r.Ok? {
        r := Ok(chunkCount + r.value);
      }
    }

    lemma AtStart(files: seq<SourceFile>)
      requires InStep() && Orderly() && Extra() == 3 && embedCalls == [] && reports == Opening(|files|)
      requires Counted(log).paths == []
      ensures Underway(files, 0, [], 0, Cut(AllDrafts(files, patterns), batchSize))
    {
      hide Slices, Usable, Cut, Opening, AllDrafts, FileReports, Orderly, Counted;
      var all := AllDrafts(files, patterns);
      assert files[0..] == files && files[..0] == [];
      NoDrafts(patterns);
      NoReports(files, patterns, batchSize);
      assert [] + all == all;
      assert [] + Cut(all, batchSize) == Cut(all, batchSize);
      assert reports + [] == reports;
    }

    /**
     The run. On success the drafts of all files were embedded in order, in batches of the
     provider's size, and every batch inserted in slices, each draft with its own vector;
     on failure what was sent and stored is a prefix of that. Every report, read, embedding
     call and insert comes right after a check that found the generation current, and a run
     that succeeds has made exactly these checks, three more before the first file and one
     more at the end, all of them with success.
     */
    method Process(files: seq<SourceFile>) returns (r: Result<nat, Problem>)
      requires checks == 0 && embedCalls == [] && inserts == [] && reports == [] && log == [] && InStep()
      modifies this
      ensures r.Ok? ==> forall i: nat :: i < checks ==> check(i) == Fresh
      ensures r.Ok? ==> checks == |reports| + |files| + |embedCalls| + |inserts| + 4
      ensures r.Ok? ==> archive.resolves && archive.downloads && archive.extracts
      ensures r.Ok? ==> forall i :: 0 <= i < |files| ==> archive.readable(files[i].repoPath)
      ensures forall k: nat :: k < |inserts| ==> insertWorks(k)
      ensures r.Err? ==> forall i: nat :: i + 1 < checks ==> check(i) == Fresh
      ensures Guarded(log) && Tallied()
      ensures r.Ok? ==> Counted(log).paths == Paths(files)
      ensures r.Ok? ==> files != [] && AllDrafts(files, patterns) != [] && r.value == |AllDrafts(files, patterns)|
      ensures r.Ok? ==> InStep() && embedCalls == Cut(AllDrafts(files, patterns), batchSize)
      ensures r.Ok? ==> reports == RunReports(files, patterns, batchSize)
      ensures r.Err? ==> embedCalls <= Cut(AllDrafts(files, patterns), batchSize)
      ensures r.Err? ==>
        inserts <= Slices(embed, Cut(AllDrafts(files, patterns), batchSize), limits.insertBatchSize)
      ensures r.Err? ==>
        || (r.error == NoFiles && files == [])
        || (r.error == NoChunks && AllDrafts(files, patterns) == [])
        || Explains(r.error)
    {
      hide Slices, Usable, Cut, AllDrafts, FileReports, WholeBatches, Opening, Underway, Guarded, Counted, Paths;
      ghost var whole := Cut(AllDrafts(files, patterns), batchSize);
      SlicesPrefix(embed, [], whole, limits.insertBatchSize);
      NoSlices(embed, limits.insertBatchSize);
      NothingDone();
      var start := Open(files);
      if start.Err? {
        return Err(start.error);
      }
      AtStart(files);
      hide Explains;
      var pending: seq<Draft> := [];
      var chunkCount, filesProcessed := 0, 0;
      while filesProcessed < |files|
        invariant filesProcessed <= |files| && Underway(files, filesProcessed, pending, chunkCount, whole)
      {
        r, pending := IndexFile(files, filesProcessed, pending, chunkCount, whole);
        if r.Err? {
          return;
        }
        chunkCount := r.value;
        filesProcessed := filesProcessed + 1;
      }
      ReportsAtEnd(files, pending, chunkCount, whole);
      r := SendRest(files, pending, chunkCount, whole);
      if r.Err? {
        return;
      }
      SlicesPrefix(embed, embedCalls, whole, limits.insertBatchSize);
      chunkCount := r.value;
      if chunkCount == 0 {
        return Err(NoChunks);
      }
      var saving := Report(Progress(Saving, 92.0, |files|, Some(|files|), chunkCount));
      if saving.Err? {
        return Err(saving.error);
      }
      var current := EnsureCurrent();
      r := if current.Ok? then Ok(chunkCount) else Err(current.error);
    }

    lemma NothingDone()
      requires checks == 0 && embedCalls == [] && inserts == [] && reports == [] && log == []
      ensures Orderly() && Counted(log).paths == []
    {
    }

    lemma ReportsAtEnd(files: seq<SourceFile>, pending: seq<Draft>, chunkCount: nat, whole: seq<seq<Draft>>)
      requires Underway(files, |files|, pending, chunkCount, whole)
      ensures reports == Opening(|files|) + FileReports(files, |files|, patterns, batchSize)
      ensures Extra() == 3 + |files| && forall i :: 0 <= i < |files| ==> archive.readable(files[i].repoPath)
      ensures Counted(log).paths == Paths(files)
    {
      assert files[..|files|] == files;
    }
  }

  lemma NextPath(files: seq<SourceFile>, n: nat)
    requires n < |files|
    ensures Paths(files[..n + 1]) == Paths(files[..n]) + [files[n].repoPath]
  {
  }

  lemma NextPiece<T>(done: seq<seq<T>>, piece: seq<T>, left: seq<seq<T>>, whole: seq<seq<T>>)
    requires done + ([piece] + left) == whole
    ensures done + [piece] + left == whole && done <= whole
  {
  }

  lemma NoneUnusable(embed: Embedder, dimension: nat, batch: seq<Draft>)
    requires embed(batch).None?
    ensures !Usable(embed, dimension, batch)
  {
  }

  lemma UsableMeans(embed: Embedder, dimension: nat, batch: seq<Draft>)
    requires Usable(embed, dimension, batch)
    ensures embed(batch).Some? && |embed(batch).value| == |batch|
    ensures forall i :: 0 <= i < |batch| ==> |embed(batch).value[i]| == dimension
  {
  }

  lemma OneBatch(embed: Embedder, dimension: nat, drafts: seq<Draft>, insertSize: nat)
    requires insertSize > 0 && Usable(embed, dimension, drafts)
    ensures |embed(drafts).value| == |drafts|
    ensures Slices(embed, [drafts], insertSize) == Cut(Pair(drafts, embed(drafts).value), insertSize)
  {
    hide Cut;
    assert [drafts][1..] == [];
  }

  lemma CutNothing<T>(n: nat)
    requires n > 0
    ensures Cut<T>([], n) == []
  {
  }

  /** The slice built at `start` is the next piece of the paired batch. */
  lemma NextSlice(drafts: seq<Draft>, vectors: seq<Vector>, start: nat, insertSize: nat)
    requires |vectors| == |drafts| && start < |drafts| && insertSize > 0
    ensures var stop := Min(start + insertSize, |drafts|);
      && Pair(drafts[start..stop], vectors[start..stop]) != []
      && Cut(Pair(drafts, vectors)[start..], insertSize)
         == [Pair(drafts[start..stop], vectors[start..stop])] + Cut(Pair(drafts, vectors)[stop..], insertSize)
  {
    var stop := Min(start + insertSize, |drafts|);
    var all := Pair(drafts, vectors);
    assert all[start..][..stop - start] == Pair(drafts[start..stop], vectors[start..stop]);
    assert all[start..][stop - start..] == all[stop..];
    if start + insertSize <= |drafts| {
      CutFirst(all[start..], insertSize);
    } else {
      assert all[start..] == Pair(drafts[start..stop], vectors[start..stop]);
    }
  }

  lemma NoSlices(embed: Embedder, insertSize: nat)
    requires insertSize > 0
    ensures Slices(embed, [], insertSize) == []
  {
  }

  lemma NoDrafts(patterns: Patterns)
    ensures AllDrafts([], patterns) == []
  {
  }

  lemma NoReports(files: seq<SourceFile>, patterns: Patterns, size: nat)
    requires size > 0
    ensures FileReports(files, 0, patterns, size) == []
  {
  }

  lemma NextReport(files: seq<SourceFile>, n: nat, patterns: Patterns, size: nat)
    requires 0 < n <= |files| && size > 0
    ensures FileReports(files, n, patterns, size)
        == FileReports(files, n - 1, patterns, size)
           + if n % 25 == 0 || n == |files| then
               [Progress(Embedding, 40.0 + (n as real / |files| as real) * 45.0, n, Some(|files|),
                         WholeBatches(|AllDrafts(files[..n], patterns)|, size))]
             else []
  {
  }

  lemma WholeAddition(a: nat, b: nat, size: nat)
    requires size > 0 && a % size == 0 && b % size == 0
    ensures (a + b) % size == 0
  {
    var p, q := a / size, b / size;
    assert a == p * size && b == q * size;
    assert a + b == (p + q) * size;
    DivModUnique(p + q, 0, size);
  }

  lemma NextFile(files: seq<SourceFile>, n: nat, patterns: Patterns)
    requires n < |files|
    ensures AllDrafts(files[n..], patterns) == FileDrafts(files[n], patterns) + AllDrafts(files[n + 1..], patterns)
    ensures |AllDrafts(files[..n + 1], patterns)|
         == |AllDrafts(files[..n], patterns)| + |FileDrafts(files[n], patterns)|
  {
    hide FileDrafts;
    assert files[n..][1..] == files[n + 1..];
    DraftsSplit(files, n, patterns);
    DraftsSplit(files, n + 1, patterns);
  }
}
