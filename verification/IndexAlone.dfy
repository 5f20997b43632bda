/**
 One worker alone with the database, statement by statement: from a claim to the count of
 the activation transaction, or through the shortcut for an unchanged branch head.
 */
module IndexAlone {
  import opened Common
  import opened CodeChunks
  import opened IndexStore
  import opened IndexProtocol
  import opened IndexIntegrity

  datatype Cell = Cell(db: Db, w: Worker)

  /** Nothing fails: no fault, and a healthy embedding configuration. */
  predicate Sound(input: Input) { !input.Fault? && !input.Unhealthy? }

  /** A sound statement that is neither an activation nor a sweep nor the end of a failed job. */
  predicate Quiet(c: Cell, input: Input) {
    && Accepts(c.w, input) && Sound(input) && c.w.pc != Sweep && c.w.pc != Flip
    && WorkerAfter(c.db, c.w, input).pc != Finished(Threw)
  }

  function Next(c: Cell, input: Input): Cell
    requires Accepts(c.w, input)
  {
    Cell(Db(RowAfter(c.db.row, c.w, input), ChunksAfter(c.db.chunks, c.w, input), c.db.credential),
         WorkerAfter(c.db, c.w, input))
  }

  predicate QuietRun(c: Cell, inputs: seq<Input>)
    decreases |inputs|, 0
  {
    inputs == [] || (QuietRun(c, inputs[..|inputs| - 1])
                     && Quiet(After(c, inputs[..|inputs| - 1]), inputs[|inputs| - 1]))
  }

  function After(c: Cell, inputs: seq<Input>): Cell
    requires QuietRun(c, inputs)
    decreases |inputs|, 1
  {
    if inputs == [] then c else Next(After(c, inputs[..|inputs| - 1]), inputs[|inputs| - 1])
  }

  lemma Push(first: Cell, inputs: seq<Input>, input: Input)
    returns (longer: seq<Input>, c: Cell)
    requires QuietRun(first, inputs) && Quiet(After(first, inputs), input)
    ensures longer == inputs + [input] && QuietRun(first, longer)
    ensures c == After(first, longer) == Next(After(first, inputs), input)
  {
    longer := inputs + [input];
    assert longer[..|longer| - 1] == inputs;
    c := After(first, longer);
  }

  /** Chunks that one insert accepts. */
  predicate Storable(generation: nat, drafts: seq<Chunk>) {
    && 0 < |drafts|
    && DistinctKeys(generation, drafts)
    && forall i :: 0 <= i < |drafts| ==> |drafts[i].embedding| > 0
  }

  // ----- a job on its own -----

  /** A worker just delivered, with a generation it can claim. */
  predicate Ready2Claim(c: Cell) {
    && c.w == NewWorker(c.w.generation, c.w.force)
    && Claimable(c.db.row, c.w.generation)
    && c.db.credential.Some?
  }

  predicate Working(c: Cell, pc: Pc, generation: nat) {
    && c.w.pc == pc && c.w.generation == generation
    && Current(c.db.row, generation)
    && CredentialMatches(c.db.credential, c.w.context)
  }

  lemma QuietNothing(c: Cell)
    ensures QuietRun(c, []) && After(c, []) == c
  {
  }

  /** The live rows, the active generation and the credential are as before. */
  predicate Keeps(c: Cell, d: Cell) {
    d.db.chunks == c.db.chunks && d.db.row.activeGeneration == c.db.row.activeGeneration
    && d.db.credential == c.db.credential
  }

  /** An unforced job that finds the head and the embedding configuration of the active generation unchanged. */
  predicate HeadUnchanged(c: Cell, sha: string)
    requires c.db.credential.Some?
  {
    && !c.w.force && c.db.row.activeGeneration.Some?
    && c.db.row.commitSha == Some(sha) && c.db.row.embeddingFingerprint == c.db.credential
  }

  lemma Claims(c: Cell) returns (inputs: seq<Input>)
    requires Ready2Claim(c)
    ensures QuietRun(c, inputs)
    ensures var d := After(c, inputs);
      && Working(d, ReportStart, c.w.generation) && Keeps(c, d)
      && d.w == c.w.(pc := ReportStart, context := ContextOf(c.db.row, c.w.generation, c.db.credential.value))
  {
    hide QuietRun, After, Quiet, Next, WorkerAfter, RowAfter, ChunksAfter, Claimable;
    var d;
    inputs := [];
    QuietNothing(c);
    LoadStep(c);
    inputs, d := Push(c, inputs, Proceed);
    EmbeddingStep(d);
    inputs, d := Push(c, inputs, Proceed);
    ClaimStep(d);
    inputs, d := Push(c, inputs, Proceed);
  }

  lemma LoadStep(c: Cell)
    requires Ready2Claim(c)
    ensures Quiet(c, Proceed)
    ensures Next(c, Proceed) == c.(w := c.w.(pc := ReadEmbedding,
      context := ContextOf(c.db.row, c.w.generation, c.w.context.fingerprint)))
  {
  }

  lemma EmbeddingStep(c: Cell)
    requires c.w.pc == ReadEmbedding && c.db.credential.Some?
    ensures Quiet(c, Proceed)
    ensures Next(c, Proceed) == c.(w := c.w.(pc := ClaimIndex,
      context := c.w.context.(fingerprint := c.db.credential.value)))
  {
  }

  lemma ClaimStep(c: Cell)
    requires c.w.pc == ClaimIndex && Claimable(c.db.row, c.w.generation)
    ensures Quiet(c, Proceed)
    ensures var d := Next(c, Proceed);
      d.w == c.w.(pc := ReportStart) && Current(d.db.row, c.w.generation) && Keeps(c, d)
  {
  }

  /** A check or report of a current generation goes on to the next statement. */
  lemma GuardedStep(c: Cell, next: Pc)
    requires Working(c, c.w.pc, c.w.generation) && Accepts(c.w, Proceed) && c.w.pc != Flip
    requires GuardedNext(c.w, Proceed) == Some(next)
    ensures Quiet(c, Proceed)
    ensures var d := Next(c, Proceed);
      Working(d, next, c.w.generation) && d.w == c.w.(pc := next) && Keeps(c, d)
  {
  }

  lemma HeadStep(c: Cell, sha: string)
    requires Working(c, FetchHead, c.w.generation)
    ensures Quiet(c, Head(sha))
    ensures var d := Next(c, Head(sha));
      && Working(d, ConfirmHead, c.w.generation)
      && d.w == c.w.(pc := ConfirmHead, plan := c.w.plan.(head := sha)) && Keeps(c, d)
  {
  }

  lemma ChunkingStep(c: Cell, drafts: seq<Chunk>)
    requires Working(c, ReportChunking, c.w.generation)
    ensures Quiet(c, Prepared(1, drafts))
    ensures var d := Next(c, Prepared(1, drafts));
      && Working(d, ConfirmPrepare, c.w.generation)
      && d.w.plan == c.w.plan.(files := 1, drafts := drafts) && d.db.chunks == c.db.chunks
  {
  }

  /** From the claim to the check that follows the head request. */
  lemma Resolves(c: Cell, sha: string) returns (inputs: seq<Input>)
    requires Working(c, ReportStart, c.w.generation)
    ensures QuietRun(c, inputs)
    ensures var d := After(c, inputs);
      && Working(d, ConfirmHead, c.w.generation) && Keeps(c, d)
      && d.w == c.w.(pc := ConfirmHead, plan := c.w.plan.(head := sha))
  {
    hide QuietRun, After, Quiet, Next, WorkerAfter, RowAfter, ChunksAfter;
    var d;
    inputs := [];
    QuietNothing(c);
    GuardedStep(c, FetchHead);
    inputs, d := Push(c, inputs, Proceed);
    HeadStep(d, sha);
    inputs, d := Push(c, inputs, Head(sha));
  }

  /** The unchanged shortcut: the row is READY again and everything else as it was. */
  predicate ShortcutDone(c: Cell, d: Cell, sha: string) {
    && d.w.pc == Finished(WasUnchanged) && Keeps(c, d)
    && d.db.row.status == Ready && d.db.row.commitSha == Some(sha)
  }

  lemma CheckStep(c: Cell)
    requires Working(c, CheckUnchanged, c.w.generation)
    ensures Quiet(c, Proceed)
    ensures var d := Next(c, Proceed);
      Working(d, WriteUnchanged, c.w.generation) && d.w == c.w.(pc := WriteUnchanged) && Keeps(c, d)
  {
  }

  lemma WriteUnchangedStep(c: Cell)
    requires Working(c, WriteUnchanged, c.w.generation) && c.w.context.generation == c.w.generation
    requires c.db.row.activeGeneration == c.w.context.activeGeneration
    ensures Quiet(c, Proceed) && ShortcutDone(c, Next(c, Proceed), c.w.plan.head)
  {
  }

  lemma TakesIt(c: Cell) returns (inputs: seq<Input>)
    requires Working(c, ConfirmHead, c.w.generation) && TakesShortcut(c.w)
    requires c.w.context.generation == c.w.generation && c.db.row.activeGeneration == c.w.context.activeGeneration
    ensures QuietRun(c, inputs) && ShortcutDone(c, After(c, inputs), c.w.plan.head)
  {
    hide QuietRun, After, Quiet, Next, WorkerAfter, RowAfter, ChunksAfter;
    var d;
    inputs := [];
    QuietNothing(c);
    GuardedStep(c, CheckUnchanged);
    inputs, d := Push(c, inputs, Proceed);
    CheckStep(d);
    inputs, d := Push(c, inputs, Proceed);
    WriteUnchangedStep(d);
    inputs, d := Push(c, inputs, Proceed);
  }

  /** From the head through archive and scan to a prepared generation. */
  lemma Prepares(c: Cell, drafts: seq<Chunk>) returns (inputs: seq<Input>)
    requires Working(c, ConfirmHead, c.w.generation) && !TakesShortcut(c.w)
    ensures QuietRun(c, inputs)
    ensures var d := After(c, inputs);
      && Working(d, ClearGeneration, c.w.generation) && d.db.chunks == c.db.chunks
      && d.w.plan.head == c.w.plan.head && d.w.plan.drafts == drafts
  {
    hide QuietRun, After, Quiet, Next, WorkerAfter, RowAfter, ChunksAfter;
    var d;
    inputs := [];
    QuietNothing(c);
    GuardedStep(c, ReportDownload);
    inputs, d := Push(c, inputs, Proceed);
    GuardedStep(d, ConfirmDownload);
    inputs, d := Push(c, inputs, Proceed);
    GuardedStep(d, ReportScan);
    inputs, d := Push(c, inputs, Proceed);
    GuardedStep(d, ReportChunking);
    inputs, d := Push(c, inputs, Proceed);
    ChunkingStep(d, drafts);
    inputs, d := Push(c, inputs, Prepared(1, drafts));
    GuardedStep(d, ClearGeneration);
    inputs, d := Push(c, inputs, Proceed);
  }

  lemma InsertGivesExactly(chunks: Table, generation: nat, drafts: seq<Chunk>)
    requires NoRows(chunks, generation) && Storable(generation, drafts)
    ensures Insertable(chunks, generation, drafts)
    ensures Exactly(InsertRows(chunks, generation, drafts), generation, drafts)
    ensures StoredCount(InsertRows(chunks, generation, drafts), generation) == |drafts|
  {
    RowsHoldBatch(generation, drafts);
    var after := InsertRows(chunks, generation, drafts);
    forall i | 0 <= i < |drafts|
      ensures KeyOf(generation, drafts[i]) in after && after[KeyOf(generation, drafts[i])] == drafts[i]
    {
      var k := KeyOf(generation, drafts[i]);
      var j :| 0 <= j < |drafts| && KeyOf(generation, drafts[j]) == k && Rows(generation, drafts)[k] == drafts[j];
      assert i == j;
    }
    assert GenerationKeys(after, generation) == KeySet(generation, drafts);
    DistinctSize(generation, drafts);
  }

  lemma {:induction false} DistinctSize(generation: nat, drafts: seq<Chunk>)
    requires DistinctKeys(generation, drafts)
    ensures |KeySet(generation, drafts)| == |drafts|
  {
    if drafts != [] {
      hide KeySet;
      var n := |drafts| - 1;
      KeySetNext(generation, drafts, n);
      DistinctSize(generation, drafts[..n]);
    } else {
      assert KeySet(generation, drafts) == {};
    }
  }

  lemma KeySetNext(generation: nat, drafts: seq<Chunk>, n: nat)
    requires |drafts| == n + 1 && DistinctKeys(generation, drafts)
    ensures KeySet(generation, drafts) == KeySet(generation, drafts[..n]) + {KeyOf(generation, drafts[n])}
    ensures KeyOf(generation, drafts[n]) !in KeySet(generation, drafts[..n])
  {
    hide KeyOf;
    var front := drafts[..n];
    assert forall i :: 0 <= i < n ==> front[i] == drafts[i];
    forall k | k in KeySet(generation, drafts)
      ensures k in KeySet(generation, front) + {KeyOf(generation, drafts[n])}
    {
      var i :| 0 <= i < |drafts| && KeyOf(generation, drafts[i]) == k;
      if i < n { assert KeyOf(generation, front[i]) == k; }
    }
    forall k | k in KeySet(generation, front) ensures k in KeySet(generation, drafts) {
      var i :| 0 <= i < |front| && KeyOf(generation, front[i]) == k;
      assert KeyOf(generation, drafts[i]) == k;
    }
  }

  lemma InsertStep(c: Cell)
    requires Working(c, InsertBatch, c.w.generation) && Storable(c.w.generation, c.w.plan.drafts)
    requires c.w.plan.saved == 0 && c.w.plan.batch == |c.w.plan.drafts| && NoRows(c.db.chunks, c.w.generation)
    ensures Quiet(c, Proceed)
    ensures var d := Next(c, Proceed);
      && Working(d, Stage, c.w.generation)
      && d.w.plan == c.w.plan.(saved := |c.w.plan.drafts|)
      && Exactly(d.db.chunks, c.w.generation, c.w.plan.drafts)
      && StoredCount(d.db.chunks, c.w.generation) == |c.w.plan.drafts|
  {
    InsertGivesExactly(c.db.chunks, c.w.generation, c.w.plan.drafts);
    assert Batch(c.w) == c.w.plan.drafts;
    hide Exactly, StoredCount, InsertRows, Insertable, NoRows, Storable, RowAfter;
  }

  lemma ClearStep(c: Cell)
    requires Working(c, ClearGeneration, c.w.generation) && Storable(c.w.generation, c.w.plan.drafts)
    ensures Quiet(c, Proceed)
    ensures var d := Next(c, Proceed);
      && Working(d, Stage, c.w.generation)
      && d.w.plan == c.w.plan.(saved := 0)
      && NoRows(d.db.chunks, c.w.generation)
      && Quiet(d, TakeBatch(|c.w.plan.drafts|))
  {
  }

  lemma BatchSteps(c: Cell, n: nat)
    requires Working(c, Stage, c.w.generation) && Quiet(c, TakeBatch(n))
    ensures Quiet(Next(c, TakeBatch(n)), Proceed)
    ensures var d := Next(Next(c, TakeBatch(n)), Proceed);
      && Working(d, InsertBatch, c.w.generation)
      && d.w.plan == c.w.plan.(batch := n) && d.db.chunks == c.db.chunks
  {
  }

  /** Clears the generation and inserts the drafts. */
  lemma Inserts(c: Cell) returns (inputs: seq<Input>)
    requires Working(c, ClearGeneration, c.w.generation) && Storable(c.w.generation, c.w.plan.drafts)
    ensures QuietRun(c, inputs)
    ensures var d := After(c, inputs);
      && Working(d, Stage, c.w.generation)
      && d.w.plan.head == c.w.plan.head && d.w.plan.drafts == c.w.plan.drafts
      && d.w.plan.saved == |c.w.plan.drafts|
      && Exactly(d.db.chunks, c.w.generation, c.w.plan.drafts)
      && StoredCount(d.db.chunks, c.w.generation) == |c.w.plan.drafts|
  {
    hide QuietRun, After, Quiet, Next, Exactly, StoredCount, NoRows, WorkerAfter, RowAfter, ChunksAfter;
    var d;
    inputs := [];
    QuietNothing(c);
    ClearStep(c);
    inputs, d := Push(c, inputs, Proceed);
    BatchSteps(d, |c.w.plan.drafts|);
    inputs, d := Push(c, inputs, TakeBatch(|c.w.plan.drafts|));
    inputs, d := Push(c, inputs, Proceed);
    InsertStep(d);
    inputs, d := Push(c, inputs, Proceed);
  }

  lemma DoneStep(c: Cell)
    requires Working(c, Stage, c.w.generation) && 0 < c.w.plan.saved == |c.w.plan.drafts|
    ensures Quiet(c, Done)
    ensures var d := Next(c, Done);
      Working(d, ReportSaving, c.w.generation) && d.w.plan == c.w.plan && d.db == c.db
  {
  }

  /** The last report and check, and the count. */
  lemma Counts(c: Cell) returns (inputs: seq<Input>)
    requires Working(c, Stage, c.w.generation) && 0 < c.w.plan.saved == |c.w.plan.drafts|
    ensures QuietRun(c, inputs)
    ensures var d := After(c, inputs);
      && Working(d, CheckEmbedding, c.w.generation)
      && d.w.plan.head == c.w.plan.head && d.w.plan.drafts == c.w.plan.drafts
      && d.w.plan.stored == StoredCount(c.db.chunks, c.w.generation)
      && d.db.chunks == c.db.chunks
  {
    hide QuietRun, After, Quiet, Next, WorkerAfter, RowAfter, ChunksAfter, StoredCount;
    var d;
    inputs := [];
    QuietNothing(c);
    DoneStep(c);
    inputs, d := Push(c, inputs, Done);
    GuardedStep(d, ConfirmSaving);
    inputs, d := Push(c, inputs, Proceed);
    GuardedStep(d, CountStored);
    inputs, d := Push(c, inputs, Proceed);
    CountStep(d);
    inputs, d := Push(c, inputs, Proceed);
  }

  lemma CountStep(c: Cell)
    requires Working(c, CountStored, c.w.generation)
    ensures Quiet(c, Proceed)
    ensures var d := Next(c, Proceed);
      && Working(d, CheckEmbedding, c.w.generation) && d.db.chunks == c.db.chunks
      && d.w.plan.head == c.w.plan.head && d.w.plan.drafts == c.w.plan.drafts
      && d.w.plan.stored == StoredCount(c.db.chunks, c.w.generation)
  {
    hide StoredCount;
  }
}
