/**
 The branch-index store: one repo_branch_indexes row, the code_chunks rows that
 belong to it and the organisation's embedding credential.

 Every database statement of the store is a function from the data it reads to the
 data it leaves, so that IndexProtocol can interleave statements of many workers.
 The class PrismaIndexStore runs the same statements in the order in which the store's
 methods issue them.
 */
module IndexStore {
  import opened Common
  import opened CodeChunks

  datatype Status = Blocked | Pending | Indexing | Ready | Failed

  datatype StageName =
    | Queued | Authenticating | Downloading | Scanning
    | ChunkingFiles | Embedding | Saving | Complete

  /** The configuration hash covers the vector dimension, so it determines it. */
  datatype Fingerprint = Fingerprint(configuration: string, dimension: nat)

  datatype Row = Row(
    status: Status,
    stage: StageName,
    progressPercent: int,
    filesProcessed: nat,
    totalFiles: Option<nat>,
    chunkCount: nat,
    activeGeneration: Option<nat>,
    requestedGeneration: nat,
    commitSha: Option<string>,
    embeddingFingerprint: Option<Fingerprint>,
    embeddingDimension: Option<nat>,
    deleted: bool
  )

  /** The unique index of code_chunks, for the one branch index modelled here. */
  datatype Key = Key(generation: nat, filePath: string, chunkIndex: nat)

  type Table = map<Key, Chunk>

  datatype Context = Context(
    generation: nat,
    activeGeneration: Option<nat>,
    commitSha: Option<string>,
    indexedFingerprint: Option<Fingerprint>,
    fingerprint: Fingerprint,
    chunkCount: nat
  )

  datatype StoreError = Stale | BlockedIndex | Failure

  // ----- reading -----

  predicate Current(row: Row, generation: nat) {
    row.requestedGeneration == generation && !row.deleted
  }

  function ContextOf(row: Row, generation: nat, fingerprint: Fingerprint): Context {
    Context(generation, row.activeGeneration, row.commitSha, row.embeddingFingerprint,
            fingerprint, row.chunkCount)
  }

  predicate CredentialMatches(credential: Option<Fingerprint>, context: Context) {
    credential == Some(context.fingerprint)
  }

  function GenerationKeys(chunks: Table, generation: nat): set<Key> {
    set k | k in chunks && k.generation == generation
  }

  function StoredCount(chunks: Table, generation: nat): nat {
    |GenerationKeys(chunks, generation)|
  }

  // ----- statements on the branch-index row -----

  predicate Claimable(row: Row, generation: nat) {
    Current(row, generation) && row.status != Indexing
  }

  function ClaimRow(row: Row, generation: nat): Row {
    if Claimable(row, generation) then
      row.(status := Indexing, stage := Authenticating, progressPercent := 2,
           filesProcessed := 0, totalFiles := None)
    else row
  }

  function BlockRow(row: Row, generation: nat): Row {
    if Current(row, generation) then
      row.(status := Blocked, stage := Authenticating, progressPercent := 0)
    else row
  }

  datatype Progress = Progress(
    stage: StageName, percent: real, filesProcessed: nat, totalFiles: Option<nat>, chunkCount: nat)

  /** Rounds half up and clamps to 0..100. */
  function BoundedPercent(value: real): (percent: int)
    ensures 0 <= percent <= 100
    ensures -0.5 <= value < 100.5 ==> -0.5 <= value - percent as real < 0.5
    ensures value < -0.5 ==> percent == 0
    ensures value >= 100.5 ==> percent == 100
  {
    var rounded := (value + 0.5).Floor;
    if rounded < 0 then 0 else if rounded > 100 then 100 else rounded
  }

  function ProgressRow(row: Row, generation: nat, p: Progress): Row {
    if Current(row, generation) then
      row.(stage := p.stage, progressPercent := BoundedPercent(p.percent),
           filesProcessed := p.filesProcessed, totalFiles := p.totalFiles, chunkCount := p.chunkCount)
    else row
  }

  function ActivateRow(row: Row, context: Context, commitSha: string, chunkCount: nat): Row {
    if Current(row, context.generation) then
      row.(status := Ready, stage := Complete, progressPercent := 100, chunkCount := chunkCount,
           activeGeneration := Some(context.generation), commitSha := Some(commitSha),
           embeddingFingerprint := Some(context.fingerprint),
           embeddingDimension := Some(context.fingerprint.dimension))
    else row
  }

  predicate UnchangedApplies(row: Row, context: Context) {
    Current(row, context.generation) && row.activeGeneration == context.activeGeneration
  }

  function CompleteUnchangedRow(row: Row, context: Context, commitSha: string): Row {
    if UnchangedApplies(row, context) then
      row.(status := Ready, stage := Complete, progressPercent := 100, commitSha := Some(commitSha),
           embeddingFingerprint := Some(context.fingerprint),
           embeddingDimension := Some(context.fingerprint.dimension))
    else row
  }

  function FailRow(row: Row, context: Context, blocked: bool): Row {
    if Current(row, context.generation) then
      row.(status := if blocked then Blocked else Failed, progressPercent := 0,
           chunkCount := context.chunkCount)
    else row
  }

  // ----- statements on the chunk rows -----

  function DeleteGeneration(chunks: Table, generation: nat): Table {
    map k | k in chunks && k.generation != generation :: chunks[k]
  }

  function KeepOnly(chunks: Table, generation: nat): Table {
    map k | k in chunks && k.generation == generation :: chunks[k]
  }

  function KeyOf(generation: nat, chunk: Chunk): Key {
    Key(generation, chunk.draft.filePath, chunk.draft.chunkIndex)
  }

  predicate DistinctKeys(generation: nat, batch: seq<Chunk>) {
    forall i, j :: 0 <= i < j < |batch| ==> KeyOf(generation, batch[i]) != KeyOf(generation, batch[j])
  }

  /** The unique index and the vector literal both have to accept every row of the insert. */
  predicate Insertable(chunks: Table, generation: nat, batch: seq<Chunk>) {
    && DistinctKeys(generation, batch)
    && (forall i :: 0 <= i < |batch| ==> KeyOf(generation, batch[i]) !in chunks)
    && (forall i :: 0 <= i < |batch| ==> |batch[i].embedding| > 0)
  }

  function Rows(generation: nat, batch: seq<Chunk>): Table {
    if batch == [] then map[]
    else Rows(generation, batch[..|batch| - 1])[KeyOf(generation, batch[|batch| - 1]) := batch[|batch| - 1]]
  }

  function InsertRows(chunks: Table, generation: nat, batch: seq<Chunk>): Table {
    if Insertable(chunks, generation, batch) then chunks + Rows(generation, batch) else chunks
  }

  /** Rows holds exactly the keys of the batch; every value is the batch entry of its key. */
  lemma {:induction false} RowsHoldBatch(generation: nat, batch: seq<Chunk>)
    ensures forall k :: k in Rows(generation, batch) ==>
      exists i :: 0 <= i < |batch| && KeyOf(generation, batch[i]) == k && Rows(generation, batch)[k] == batch[i]
    ensures forall i :: 0 <= i < |batch| ==> KeyOf(generation, batch[i]) in Rows(generation, batch)
  {
    if batch != [] {
      var front := batch[..|batch| - 1];
      RowsHoldBatch(generation, front);
      forall k | k in Rows(generation, batch)
        ensures exists i :: 0 <= i < |batch| && KeyOf(generation, batch[i]) == k
                            && Rows(generation, batch)[k] == batch[i]
      {
        if k == KeyOf(generation, batch[|batch| - 1]) {
          assert Rows(generation, batch)[k] == batch[|batch| - 1];
        } else {
          assert k in Rows(generation, front) && Rows(generation, batch)[k] == Rows(generation, front)[k];
          var i :| 0 <= i < |front| && KeyOf(generation, front[i]) == k && Rows(generation, front)[k] == front[i];
          assert batch[i] == front[i];
        }
      }
      forall i | 0 <= i < |batch| ensures KeyOf(generation, batch[i]) in Rows(generation, batch) {
        if i < |front| { assert batch[i] == front[i]; }
      }
    }
  }

  /** What the database holds for a generation is exactly this list of chunks, nothing twice. */
  ghost predicate Exactly(chunks: Table, generation: nat, list: seq<Chunk>) {
    && DistinctKeys(generation, list)
    && (forall i :: 0 <= i < |list| ==>
          KeyOf(generation, list[i]) in chunks && chunks[KeyOf(generation, list[i])] == list[i])
    && (forall k :: k in chunks && k.generation == generation ==>
          exists i :: 0 <= i < |list| && KeyOf(generation, list[i]) == k)
  }

  // ----- what the statements on chunk rows do, row by row -----

  /** The rows of the generation are gone, the others as before. */
  ghost predicate Removed(before: Table, after: Table, generation: nat) {
    forall k: Key :: (k in after <==> k in before && k.generation != generation)
                     && (k in after ==> after[k] == before[k])
  }

  /** The rows of the generation are as before, the others gone. */
  ghost predicate Swept(before: Table, after: Table, generation: nat) {
    forall k: Key :: (k in after <==> k in before && k.generation == generation)
                     && (k in after ==> after[k] == before[k])
  }

  lemma SweptExactly(before: Table, after: Table, generation: nat)
    ensures Swept(before, after, generation) <==> after == KeepOnly(before, generation)
  {
    if Swept(before, after, generation) {
      assert forall k: Key :: k in after <==> k in KeepOnly(before, generation);
      assert after == KeepOnly(before, generation);
    }
  }

  lemma RemovedExactly(before: Table, after: Table, generation: nat)
    ensures Removed(before, after, generation) <==> after == DeleteGeneration(before, generation)
  {
    if Removed(before, after, generation) {
      assert forall k: Key :: k in after <==> k in DeleteGeneration(before, generation);
      assert after == DeleteGeneration(before, generation);
    }
  }

  /** The row a chunk of the batch is stored in. */
  ghost predicate StoredIn(generation: nat, batch: seq<Chunk>, i: nat, k: Key) {
    && i < |batch| && k.generation == generation
    && k.filePath == batch[i].draft.filePath && k.chunkIndex == batch[i].draft.chunkIndex
  }

  /** One new row for each chunk of the batch, the others as before. */
  ghost predicate Added(before: Table, after: Table, generation: nat, batch: seq<Chunk>) {
    && (forall k :: k in before ==> k in after && after[k] == before[k])
    && (forall i: nat, k :: StoredIn(generation, batch, i, k) ==> k in after && after[k] == batch[i])
    && (forall k :: k in after && k !in before ==> exists i: nat :: StoredIn(generation, batch, i, k))
  }

  /** No two chunks of the batch share path and index, none of their rows is there yet, and each has a vector. */
  ghost predicate Fits(chunks: Table, generation: nat, batch: seq<Chunk>) {
    && (forall i: nat, j: nat, k :: StoredIn(generation, batch, i, k) && StoredIn(generation, batch, j, k) ==> i == j)
    && (forall i: nat, k :: StoredIn(generation, batch, i, k) ==> k !in chunks)
    && (forall i :: 0 <= i < |batch| ==> batch[i].embedding != [])
  }

  lemma StoredInKey(generation: nat, batch: seq<Chunk>, i: nat, k: Key)
    ensures StoredIn(generation, batch, i, k) <==> i < |batch| && k == KeyOf(generation, batch[i])
  {
  }

  lemma FitsExactly(chunks: Table, generation: nat, batch: seq<Chunk>)
    ensures Fits(chunks, generation, batch) <==> Insertable(chunks, generation, batch)
  {
    hide StoredIn, KeyOf;
    forall i: nat, k ensures StoredIn(generation, batch, i, k) <==> i < |batch| && k == KeyOf(generation, batch[i]) {
      StoredInKey(generation, batch, i, k);
    }
    if Fits(chunks, generation, batch) {
      forall i: nat, j: nat | i < j < |batch| ensures KeyOf(generation, batch[i]) != KeyOf(generation, batch[j]) {
        assert StoredIn(generation, batch, i, KeyOf(generation, batch[i]));
        assert StoredIn(generation, batch, j, KeyOf(generation, batch[j]));
      }
      forall i: nat | i < |batch| ensures KeyOf(generation, batch[i]) !in chunks {
        assert StoredIn(generation, batch, i, KeyOf(generation, batch[i]));
      }
    }
  }

  lemma InsertAdds(chunks: Table, generation: nat, batch: seq<Chunk>)
    requires Insertable(chunks, generation, batch)
    ensures Added(chunks, InsertRows(chunks, generation, batch), generation, batch)
  {
    RowsHoldBatch(generation, batch);
    var rows, after := Rows(generation, batch), InsertRows(chunks, generation, batch);
    hide Rows, StoredIn, KeyOf;
    forall i: nat, k ensures StoredIn(generation, batch, i, k) <==> i < |batch| && k == KeyOf(generation, batch[i]) {
      StoredInKey(generation, batch, i, k);
    }
    assert after == chunks + rows;
    assert forall k :: k in rows ==> k !in chunks;
    forall i: nat, k | StoredIn(generation, batch, i, k) ensures k in after && after[k] == batch[i] {
      assert k in rows;
      var j :| 0 <= j < |batch| && KeyOf(generation, batch[j]) == k && rows[k] == batch[j];
      assert j == i;
    }
    forall k | k in chunks ensures k in after && after[k] == chunks[k] {
      assert k !in rows;
    }
    forall k | k in after && k !in chunks ensures exists i: nat :: StoredIn(generation, batch, i, k) {
      assert k in rows;
      var j: nat :| j < |batch| && KeyOf(generation, batch[j]) == k && rows[k] == batch[j];
      assert StoredIn(generation, batch, j, k);
    }
  }

  /** Those rows and no others: the table after an insert is determined. */
  lemma AddedExactly(before: Table, after: Table, generation: nat, batch: seq<Chunk>)
    requires Insertable(before, generation, batch) && Added(before, after, generation, batch)
    ensures after == InsertRows(before, generation, batch)
  {
    InsertAdds(before, generation, batch);
    var other := InsertRows(before, generation, batch);
    hide InsertRows, StoredIn, Insertable;
    forall k | k in after ensures k in other && after[k] == other[k] {
      SameRow(before, after, other, generation, batch, k);
    }
    forall k | k in other ensures k in after {
      SameRow(before, other, after, generation, batch, k);
    }
  }

  lemma SameRow(before: Table, a: Table, b: Table, generation: nat, batch: seq<Chunk>, k: Key)
    requires Added(before, a, generation, batch) && Added(before, b, generation, batch) && k in a
    ensures k in b && a[k] == b[k]
  {
    hide StoredIn;
    if k !in before {
      var i: nat :| StoredIn(generation, batch, i, k);
    }
  }

  // ----- the store object -----

  class PrismaIndexStore {
    var row: Row
    var chunks: Table
    var credential: Option<Fingerprint>

    constructor (row: Row, chunks: Table, credential: Option<Fingerprint>)
      ensures this.row == row && this.chunks == chunks && this.credential == credential
    {
      this.row, this.chunks, this.credential := row, chunks, credential;
    }

    /** The row is not deleted and still asks for the generation. */
    predicate AsksFor(generation: nat)
      reads this`row
    {
      row.requestedGeneration == generation && !row.deleted
    }

    /** `healthy` is the outcome of the git-credential, tenant and decryption checks. */
    method Claim(generation: nat, healthy: bool) returns (r: Result<Context, StoreError>)
      modifies this`row
      ensures !old(AsksFor(generation)) ==> r == Err(Stale) && row == old(row)
      ensures old(AsksFor(generation)) && (!healthy || credential.None?) ==>
        r == Err(BlockedIndex) && row == old(row).(status := Blocked, stage := Authenticating, progressPercent := 0)
      ensures old(AsksFor(generation)) && healthy && credential.Some? && old(row).status == Indexing ==>
        r == Err(Stale) && row == old(row)
      ensures old(AsksFor(generation)) && healthy && credential.Some? && old(row).status != Indexing ==>
        && row == old(row).(status := Indexing, stage := Authenticating, progressPercent := 2,
                            filesProcessed := 0, totalFiles := None)
        && r == Ok(Context(generation, old(row).activeGeneration, old(row).commitSha, old(row).embeddingFingerprint,
                           credential.value, old(row).chunkCount))
    {
      if !Current(row, generation) {
        return Err(Stale);
      }
      if !healthy || credential.None? {
        row := BlockRow(row, generation);
        return Err(BlockedIndex);
      }
      var context := ContextOf(row, generation, credential.value);
      if !Claimable(row, generation) {
        return Err(Stale);
      }
      row := ClaimRow(row, generation);
      return Ok(context);
    }

    method EnsureCurrent(context: Context) returns (r: Result<(), StoreError>)
      ensures r == if AsksFor(context.generation) then Ok(()) else Err(Stale)
    {
      return if Current(row, context.generation) then Ok(()) else Err(Stale);
    }

    method UpdateProgress(context: Context, p: Progress) returns (r: Result<(), StoreError>)
      modifies this`row
      ensures r == if old(AsksFor(context.generation)) then Ok(()) else Err(Stale)
      ensures r.Err? ==> row == old(row)
      ensures r.Ok? ==>
        row == old(row).(stage := p.stage, progressPercent := BoundedPercent(p.percent),
                         filesProcessed := p.filesProcessed, totalFiles := p.totalFiles, chunkCount := p.chunkCount)
    {
      r := if Current(row, context.generation) then Ok(()) else Err(Stale);
      row := ProgressRow(row, context.generation, p);
    }

    method PrepareGeneration(context: Context) returns (r: Result<(), StoreError>)
      modifies this`chunks
      ensures r == if AsksFor(context.generation) then Ok(()) else Err(Stale)
      ensures r.Ok? ==> Removed(old(chunks), chunks, context.generation)
      ensures r.Err? ==> chunks == old(chunks)
    {
      r := EnsureCurrent(context);
      if r.Ok? {
        chunks := DeleteGeneration(chunks, context.generation);
      }
    }

    /** One all-or-nothing insert; an empty batch returns before the generation is checked. */
    method SaveChunks(context: Context, batch: seq<Chunk>) returns (r: Result<(), StoreError>)
      modifies this`chunks
      ensures batch == [] ==> r == Ok(())
      ensures batch != [] && !AsksFor(context.generation) ==> r == Err(Stale)
      ensures batch != [] && AsksFor(context.generation) ==>
        r == if Fits(old(chunks), context.generation, batch) then Ok(()) else Err(Failure)
      ensures r.Ok? ==> Added(old(chunks), chunks, context.generation, batch)
      ensures r.Err? ==> chunks == old(chunks)
    {
      if batch == [] {
        return Ok(());
      }
      r := EnsureCurrent(context);
      if r.Ok? {
        FitsExactly(chunks, context.generation, batch);
        if Insertable(chunks, context.generation, batch) {
          InsertAdds(chunks, context.generation, batch);
          chunks := InsertRows(chunks, context.generation, batch);
        } else {
          r := Err(Failure);
        }
      }
    }

    /** `sweepFails` is the outcome of the delete after the commit, which is only logged. */
    method Activate(context: Context, commitSha: string, chunkCount: nat, sweepFails: bool)
      returns (r: Result<(), StoreError>)
      modifies this`row, this`chunks
      ensures r.Ok? <==> chunkCount > 0 && old(RowCount(context.generation)) == chunkCount
                         && credential == Some(context.fingerprint) && old(AsksFor(context.generation))
      ensures r.Ok? ==>
        row == old(row).(status := Ready, stage := Complete, progressPercent := 100, chunkCount := chunkCount,
                         activeGeneration := Some(context.generation), commitSha := Some(commitSha),
                         embeddingFingerprint := Some(context.fingerprint),
                         embeddingDimension := Some(context.fingerprint.dimension))
      ensures r.Ok? ==> if sweepFails then chunks == old(chunks) else Swept(old(chunks), chunks, context.generation)
      ensures r.Ok? ==> RowCount(context.generation) == chunkCount
      ensures r.Err? ==> row == old(row) && chunks == old(chunks)
      ensures r.Err? ==>
        r.error == if chunkCount == 0 || old(RowCount(context.generation)) != chunkCount then Failure else Stale
    {
      if chunkCount <= 0 {
        return Err(Failure);
      }
      var stored := StoredCount(chunks, context.generation);
      if stored != chunkCount {
        return Err(Failure);
      }
      if !CredentialMatches(credential, context) {
        return Err(Stale);
      }
      if !Current(row, context.generation) {
        return Err(Stale);
      }
      row := ActivateRow(row, context, commitSha, chunkCount);
      if !sweepFails {
        ghost var before := chunks;
        chunks := KeepOnly(chunks, context.generation);
        assert GenerationKeys(chunks, context.generation) == GenerationKeys(before, context.generation);
      }
      return Ok(());
    }

    /** The rows of one generation, counted. */
    function RowCount(generation: nat): nat
      reads this`chunks
    {
      |set k | k in chunks && k.generation == generation|
    }

    method CompleteUnchanged(context: Context, commitSha: string) returns (r: Result<(), StoreError>)
      modifies this`row
      ensures r.Ok? <==> credential == Some(context.fingerprint) && old(AsksFor(context.generation))
                         && old(row).activeGeneration == context.activeGeneration
      ensures r.Ok? ==>
        row == old(row).(status := Ready, stage := Complete, progressPercent := 100, commitSha := Some(commitSha),
                         embeddingFingerprint := Some(context.fingerprint),
                         embeddingDimension := Some(context.fingerprint.dimension))
      ensures r.Err? ==> r == Err(Stale) && row == old(row)
    {
      if !CredentialMatches(credential, context) || !UnchangedApplies(row, context) {
        return Err(Stale);
      }
      row := CompleteUnchangedRow(row, context, commitSha);
      return Ok(());
    }

    method Fail(context: Context, blocked: bool)
      modifies this`row
      ensures !old(AsksFor(context.generation)) ==> row == old(row)
      ensures old(AsksFor(context.generation)) ==>
        row == old(row).(status := if blocked then Blocked else Failed, progressPercent := 0,
                         chunkCount := context.chunkCount)
    {
      row := FailRow(row, context, blocked);
    }

    method CleanupGeneration(context: Context)
      modifies this`chunks
      ensures if context.activeGeneration == Some(context.generation) then chunks == old(chunks)
              else Removed(old(chunks), chunks, context.generation)
    {
      if context.activeGeneration == Some(context.generation) {
        return;
      }
      chunks := DeleteGeneration(chunks, context.generation);
    }
  }
}
