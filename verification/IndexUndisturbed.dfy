/**
 One worker alone, however its run goes: every continuation of a run by one job without a
 fault, in whatever batches, with whatever checks and reports in between, ends in one of
 the two ways in which the job can end.
 */
module IndexUndisturbed {
  import opened Common
  import opened CodeChunks
  import opened IndexStore
  import opened IndexProtocol
  import opened IndexFencing
  import opened IndexIntegrity
  import opened IndexAlone
  import opened IndexScenario

  /** Nothing fails, and this head and these drafts are the answers. */
  predicate Smooth(input: Input, sha: string, drafts: seq<Chunk>) {
    && Sound(input)
    && (input.Head? ==> input.sha == sha)
    && (input.Prepared? ==> input.drafts == drafts)
  }

  // ----- what the worker has reached -----

  predicate Early(pc: Pc) {
    pc.ReportStart? || pc.FetchHead? || pc.ConfirmHead? || pc.CheckUnchanged? || pc.WriteUnchanged?
  }

  predicate Preparing(pc: Pc) {
    pc.ReportDownload? || pc.ConfirmDownload? || pc.ReportScan? || pc.ReportChunking? || pc.ConfirmPrepare?
    || pc.ClearGeneration?
  }

  /** From the claim to the head request, and through the shortcut: the rows are as they were. */
  predicate SoFarEarly(c0: Cell, w: Worker, chunks: Table, sha: string)
    requires c0.db.credential.Some?
  {
    && chunks == c0.db.chunks
    && (w.pc.ConfirmHead? || w.pc.CheckUnchanged? || w.pc.WriteUnchanged? ==> w.plan.head == sha)
    && (w.pc.CheckUnchanged? || w.pc.WriteUnchanged? ==> HeadUnchanged(c0, sha))
  }

  predicate SoFarPreparing(w: Worker, sha: string, drafts: seq<Chunk>) {
    && w.plan.head == sha
    && (w.pc.ConfirmPrepare? || w.pc.ClearGeneration? ==> w.plan.drafts == drafts)
  }

  /** The rows of the generation are the first n drafts. */
  ghost predicate StoredPrefix(chunks: Table, generation: nat, drafts: seq<Chunk>, n: nat) {
    && n <= |drafts|
    && (forall i :: 0 <= i < n ==>
          KeyOf(generation, drafts[i]) in chunks && chunks[KeyOf(generation, drafts[i])] == drafts[i])
    && (forall k :: k in chunks && k.generation == generation ==>
          exists i :: 0 <= i < n && KeyOf(generation, drafts[i]) == k)
  }

  /** While staging the rows are a prefix of the drafts, and afterwards they are the drafts. */
  ghost predicate SoFarStaging(w: Worker, chunks: Table, sha: string, drafts: seq<Chunk>) {
    && w.plan.head == sha && w.plan.drafts == drafts
    && if StagingPc(w.pc) then
         && StoredPrefix(chunks, w.generation, drafts, w.plan.saved)
         && (w.pc == ConfirmInsert || w.pc == InsertBatch ==>
               0 < w.plan.batch && w.plan.saved + w.plan.batch <= |drafts|)
       else
         && Exactly(chunks, w.generation, drafts)
         && (w.pc == CheckEmbedding || w.pc == Flip ==> w.plan.stored == |drafts|)
  }

  /** The claim still stands, and the context is the one it was made with. */
  predicate StillHeld(c0: Cell, c: Cell)
    requires c0.db.credential.Some?
  {
    && Current(c.db.row, c.w.generation) && c.db.row.activeGeneration == c0.db.row.activeGeneration
    && c.w.context == ContextOf(c0.db.row, c.w.generation, c0.db.credential.value)
  }

  predicate Starting(c0: Cell, c: Cell)
    requires c0.db.credential.Some?
  {
    && c.db == c0.db
    && match c.w.pc
       case LoadRow => c.w == c0.w
       case ReadEmbedding => c.w.context == ContextOf(c0.db.row, c.w.generation, c0.w.context.fingerprint)
       case _ => c.w.pc == ClaimIndex
                 && c.w.context == ContextOf(c0.db.row, c.w.generation, c0.db.credential.value)
  }

  /** The row names this generation as active, built from this head, and its rows are the drafts. */
  ghost predicate Activated(c0: Cell, c: Cell, sha: string, drafts: seq<Chunk>)
    requires c0.db.credential.Some?
  {
    && c.db.row.activeGeneration == Some(c.w.generation) && c.db.row.commitSha == Some(sha)
    && Exactly(c.db.chunks, c.w.generation, drafts) && !HeadUnchanged(c0, sha)
    && (c.w.pc != Sweep ==> forall k :: k in c.db.chunks ==> k.generation == c.w.generation)
  }

  ghost predicate Along(c0: Cell, c: Cell, sha: string, drafts: seq<Chunk>)
    requires c0.db.credential.Some?
  {
    && c.w.generation == c0.w.generation && c.w.force == c0.w.force && c.db.credential == c0.db.credential
    && if c.w.pc.LoadRow? || c.w.pc.ReadEmbedding? || c.w.pc.ClaimIndex? then Starting(c0, c)
       else if c.w.pc == Sweep || c.w.pc == Finished(WasReady) then Activated(c0, c, sha, drafts)
       else if c.w.pc == Finished(WasUnchanged) then HeadUnchanged(c0, sha) && ShortcutDone(c0, c, sha)
       else
         && StillHeld(c0, c)
         && if Early(c.w.pc) then SoFarEarly(c0, c.w, c.db.chunks, sha)
            else if Preparing(c.w.pc) then !HeadUnchanged(c0, sha) && SoFarPreparing(c.w, sha, drafts)
            else
              && !HeadUnchanged(c0, sha) && (StagingPc(c.w.pc) || ActivatingPc(c.w.pc))
              && SoFarStaging(c.w, c.db.chunks, sha, drafts)
  }

  // ----- staging in batches -----

  lemma FreshKey(chunks: Table, generation: nat, drafts: seq<Chunk>, n: nat, i: nat)
    requires DistinctKeys(generation, drafts) && StoredPrefix(chunks, generation, drafts, n) && n <= i < |drafts|
    ensures KeyOf(generation, drafts[i]) !in chunks
  {
    assert forall j :: 0 <= j < n ==> KeyOf(generation, drafts[j]) != KeyOf(generation, drafts[i]);
    assert KeyOf(generation, drafts[i]).generation == generation;
  }

  lemma BatchInsertable(chunks: Table, generation: nat, drafts: seq<Chunk>, n: nat, size: nat)
    requires Storable(generation, drafts) && n + size <= |drafts| && StoredPrefix(chunks, generation, drafts, n)
    ensures Insertable(chunks, generation, drafts[n..n + size])
  {
    hide KeyOf, StoredPrefix;
    var batch := drafts[n..n + size];
    assert forall i :: 0 <= i < size ==> batch[i] == drafts[n + i];
    forall i | 0 <= i < size ensures KeyOf(generation, batch[i]) !in chunks {
      FreshKey(chunks, generation, drafts, n, n + i);
    }
  }

  /** A batch inserted after a prefix gives the longer prefix. */
  lemma BatchExtends(chunks: Table, generation: nat, drafts: seq<Chunk>, n: nat, size: nat)
    requires Storable(generation, drafts) && n + size <= |drafts| && StoredPrefix(chunks, generation, drafts, n)
    ensures StoredPrefix(InsertRows(chunks, generation, drafts[n..n + size]), generation, drafts, n + size)
  {
    var batch := drafts[n..n + size];
    hide Rows, Insertable, KeyOf, DistinctKeys;
    BatchInsertable(chunks, generation, drafts, n, size);
    var after := InsertRows(chunks, generation, batch);
    assert after == chunks + Rows(generation, batch);
    hide InsertRows;
    forall i | 0 <= i < n + size
      ensures KeyOf(generation, drafts[i]) in after && after[KeyOf(generation, drafts[i])] == drafts[i]
    {
      KeyStored(chunks, generation, drafts, n, size, i);
    }
    forall k | k in after && k.generation == generation
      ensures exists i :: 0 <= i < n + size && KeyOf(generation, drafts[i]) == k
    {
      var i := StoredAt(chunks, generation, drafts, n, size, k);
    }
  }

  /** Which draft a row of the generation belongs to after the batch. */
  lemma StoredAt(chunks: Table, generation: nat, drafts: seq<Chunk>, n: nat, size: nat, k: Key) returns (i: nat)
    requires n + size <= |drafts| && StoredPrefix(chunks, generation, drafts, n)
    requires k in chunks + Rows(generation, drafts[n..n + size]) && k.generation == generation
    ensures i < n + size && KeyOf(generation, drafts[i]) == k
  {
    hide Rows, KeyOf;
    var batch := drafts[n..n + size];
    RowsHoldBatch(generation, batch);
    if k in Rows(generation, batch) {
      var j :| 0 <= j < |batch| && KeyOf(generation, batch[j]) == k && Rows(generation, batch)[k] == batch[j];
      i := n + j;
      assert batch[j] == drafts[i];
    } else {
      i :| 0 <= i < n && KeyOf(generation, drafts[i]) == k;
    }
  }

  lemma KeyStored(chunks: Table, generation: nat, drafts: seq<Chunk>, n: nat, size: nat, i: nat)
    requires DistinctKeys(generation, drafts) && n + size <= |drafts| && StoredPrefix(chunks, generation, drafts, n)
    requires i < n + size
    ensures var (k, after) := (KeyOf(generation, drafts[i]), chunks + Rows(generation, drafts[n..n + size]));
      k in after && after[k] == drafts[i]
  {
    hide Rows, KeyOf;
    var batch, k := drafts[n..n + size], KeyOf(generation, drafts[i]);
    RowsHoldBatch(generation, batch);
    assert forall j :: 0 <= j < size ==> batch[j] == drafts[n + j];
    if i >= n { assert KeyOf(generation, batch[i - n]) == k; }
    if k in Rows(generation, batch) {
      var j :| 0 <= j < |batch| && KeyOf(generation, batch[j]) == k && Rows(generation, batch)[k] == batch[j];
      assert n + j == i;
    }
  }

  lemma WholePrefix(chunks: Table, generation: nat, drafts: seq<Chunk>)
    requires DistinctKeys(generation, drafts)
    ensures StoredPrefix(chunks, generation, drafts, |drafts|) ==> Exactly(chunks, generation, drafts)
  {
  }

  lemma ExactlyCounts(chunks: Table, generation: nat, drafts: seq<Chunk>)
    requires Exactly(chunks, generation, drafts)
    ensures StoredCount(chunks, generation) == |drafts|
  {
    assert GenerationKeys(chunks, generation) == KeySet(generation, drafts);
    DistinctSize(generation, drafts);
  }

  lemma NothingStored(chunks: Table, generation: nat, drafts: seq<Chunk>)
    requires NoRows(chunks, generation)
    ensures StoredPrefix(chunks, generation, drafts, 0)
  {
  }

  // ----- every smooth statement -----

  lemma StartStep(c0: Cell, c: Cell, input: Input, sha: string, drafts: seq<Chunk>)
    requires Ready2Claim(c0) && Along(c0, c, sha, drafts)
    requires c.w.pc.LoadRow? || c.w.pc.ReadEmbedding? || c.w.pc.ClaimIndex?
    requires Accepts(c.w, input) && Smooth(input, sha, drafts)
    ensures Along(c0, Next(c, input), sha, drafts)
  {
  }

  lemma EarlyStep(c0: Cell, c: Cell, input: Input, sha: string, drafts: seq<Chunk>)
    requires c0.db.credential.Some? && Along(c0, c, sha, drafts) && Early(c.w.pc)
    requires Accepts(c.w, input) && Smooth(input, sha, drafts)
    ensures Along(c0, Next(c, input), sha, drafts)
  {
  }

  /** A check or report that succeeds moves the worker on and leaves all but the row's progress alone. */
  lemma GuardedMoves(c: Cell, input: Input)
    requires Accepts(c.w, input) && !input.Fault? && GuardedNext(c.w, input).Some? && c.w.pc != Flip
    requires Current(c.db.row, c.w.generation)
    ensures var d := Next(c, input);
      && d.db == c.db.(row := d.db.row) && Current(d.db.row, c.w.generation)
      && d.db.row.activeGeneration == c.db.row.activeGeneration
      && d.w == c.w.(pc := GuardedNext(c.w, input).value,
                     plan := if input.Prepared? then c.w.plan.(files := input.files, drafts := input.drafts)
                             else c.w.plan)
  {
  }

  lemma GuardedKeeps(c0: Cell, c: Cell, input: Input)
    requires c0.db.credential.Some? && StillHeld(c0, c)
    requires Accepts(c.w, input) && !input.Fault? && GuardedNext(c.w, input).Some? && c.w.pc != Flip
    ensures var d := Next(c, input);
      && d.db == c.db.(row := d.db.row) && StillHeld(c0, d)
      && d.w == c.w.(pc := GuardedNext(c.w, input).value,
                     plan := if input.Prepared? then c.w.plan.(files := input.files, drafts := input.drafts)
                             else c.w.plan)
  {
    hide Next, GuardedNext, Accepts;
    GuardedMoves(c, input);
  }

  lemma PreparingStep(c0: Cell, c: Cell, input: Input, sha: string, drafts: seq<Chunk>)
    requires c0.db.credential.Some? && Along(c0, c, sha, drafts) && Preparing(c.w.pc)
    requires Accepts(c.w, input) && Smooth(input, sha, drafts)
    ensures Along(c0, Next(c, input), sha, drafts)
  {
    hide HeadUnchanged, ContextOf, Starting, Activated, SoFarEarly;
    if c.w.pc == ClearGeneration {
      hide StoredPrefix, Exactly;
      NothingStored(DeleteGeneration(c.db.chunks, c.w.generation), c.w.generation, drafts);
    } else {
      hide Next, WorkerAfter, RowAfter, ChunksAfter, SoFarStaging, StillHeld;
      GuardedKeeps(c0, c, input);
    }
  }

  lemma StagingStep(c0: Cell, c: Cell, input: Input, sha: string, drafts: seq<Chunk>)
    requires c0.db.credential.Some? && Storable(c0.w.generation, drafts)
    requires Along(c0, c, sha, drafts) && StagingPc(c.w.pc) && c.w.pc != ClearGeneration
    requires Accepts(c.w, input) && Smooth(input, sha, drafts)
    ensures Along(c0, Next(c, input), sha, drafts)
  {
    hide HeadUnchanged, ContextOf, Starting, SoFarEarly;
    hide Next, WorkerAfter, RowAfter, ChunksAfter, Exactly, StoredPrefix, Storable, DistinctKeys;
    if c.w.pc == InsertBatch {
      InsertMoves(c, drafts);
    } else if input.TakeBatch? || input.Done? {
      StorableMeans(c0.w.generation, drafts);
      StageMoves(c, input);
      WholePrefix(c.db.chunks, c.w.generation, drafts);
    } else {
      GuardedKeeps(c0, c, input);
    }
  }

  lemma StorableMeans(generation: nat, drafts: seq<Chunk>)
    requires Storable(generation, drafts)
    ensures 0 < |drafts| && DistinctKeys(generation, drafts)
  {
  }

  lemma StageMoves(c: Cell, input: Input)
    requires c.w.pc == Stage && Accepts(c.w, input) && (input.TakeBatch? || input.Done?) && c.w.plan.drafts != []
    ensures Next(c, input) == c.(w :=
      if input.TakeBatch? then c.w.(pc := ConfirmInsert, plan := c.w.plan.(batch := input.size))
      else c.w.(pc := ReportSaving))
  {
  }

  lemma InsertMoves(c: Cell, drafts: seq<Chunk>)
    requires c.w.pc == InsertBatch && c.w.plan.drafts == drafts && Storable(c.w.generation, drafts)
    requires c.w.plan.saved + c.w.plan.batch <= |drafts|
    requires StoredPrefix(c.db.chunks, c.w.generation, drafts, c.w.plan.saved)
    ensures var (d, n) := (Next(c, Proceed), c.w.plan.saved + c.w.plan.batch);
      && d.db == c.db.(chunks := d.db.chunks) && StoredPrefix(d.db.chunks, c.w.generation, drafts, n)
      && d.w == c.w.(pc := Stage, plan := c.w.plan.(saved := n))
  {
    hide StoredPrefix, InsertRows, Insertable, Storable;
    BatchInsertable(c.db.chunks, c.w.generation, drafts, c.w.plan.saved, c.w.plan.batch);
    BatchExtends(c.db.chunks, c.w.generation, drafts, c.w.plan.saved, c.w.plan.batch);
  }

  lemma HeldMatches(c0: Cell, c: Cell)
    requires c0.db.credential.Some? && c.db.credential == c0.db.credential && StillHeld(c0, c)
    ensures CredentialMatches(c.db.credential, c.w.context) && c.w.context.generation == c.w.generation
  {
  }

  lemma CountingStep(c0: Cell, c: Cell, input: Input, sha: string, drafts: seq<Chunk>)
    requires c0.db.credential.Some? && Along(c0, c, sha, drafts)
    requires c.w.pc == ReportSaving || c.w.pc == ConfirmSaving || c.w.pc == CountStored
    requires Accepts(c.w, input) && Smooth(input, sha, drafts)
    ensures Along(c0, Next(c, input), sha, drafts)
  {
    hide HeadUnchanged, ContextOf, Starting, Activated, SoFarEarly, SoFarPreparing;
    hide Next, WorkerAfter, RowAfter, ChunksAfter, Exactly, StoredCount, StoredPrefix;
    if c.w.pc == CountStored {
      ExactlyCounts(c.db.chunks, c.w.generation, drafts);
      CountMoves(c);
    } else {
      GuardedKeeps(c0, c, input);
    }
  }

  lemma CommittingStep(c0: Cell, c: Cell, input: Input, sha: string, drafts: seq<Chunk>)
    requires c0.db.credential.Some? && Along(c0, c, sha, drafts)
    requires c.w.pc == CheckEmbedding || c.w.pc == Flip
    requires Accepts(c.w, input) && Smooth(input, sha, drafts)
    ensures Along(c0, Next(c, input), sha, drafts)
  {
    hide HeadUnchanged, ContextOf, Starting, SoFarEarly, SoFarPreparing;
    hide Next, WorkerAfter, RowAfter, ChunksAfter, Exactly, StoredPrefix, CredentialMatches;
    HeldMatches(c0, c);
    if c.w.pc == CheckEmbedding {
      CheckMoves(c);
    } else {
      FlipMoves(c);
    }
  }

  lemma CountMoves(c: Cell)
    requires c.w.pc == CountStored
    ensures Next(c, Proceed) == c.(w := c.w.(pc := CheckEmbedding,
      plan := c.w.plan.(stored := StoredCount(c.db.chunks, c.w.generation), sweptSinceCount := false)))
  {
    hide StoredCount;
  }

  lemma CheckMoves(c: Cell)
    requires c.w.pc == CheckEmbedding && c.w.plan.stored == |c.w.plan.drafts|
    requires CredentialMatches(c.db.credential, c.w.context)
    ensures Next(c, Proceed) == c.(w := c.w.(pc := Flip))
  {
  }

  lemma FlipMoves(c: Cell)
    requires c.w.pc == Flip && Current(c.db.row, c.w.generation) && c.w.context.generation == c.w.generation
    ensures var d := Next(c, Proceed);
      && d.w == c.w.(pc := Sweep) && d.db == c.db.(row := d.db.row)
      && d.db.row.activeGeneration == Some(c.w.generation) && d.db.row.commitSha == Some(c.w.plan.head)
  {
  }

  lemma SweepStep(c0: Cell, c: Cell, input: Input, sha: string, drafts: seq<Chunk>)
    requires c0.db.credential.Some? && Along(c0, c, sha, drafts) && c.w.pc == Sweep
    requires Accepts(c.w, input) && Smooth(input, sha, drafts)
    ensures Along(c0, Next(c, input), sha, drafts)
  {
    hide HeadUnchanged, ContextOf, Starting, SoFarEarly;
    var swept := KeepOnly(c.db.chunks, c.w.generation);
    assert SameRows(c.db.chunks, swept, c.w.generation);
    SameRowsKeeps(c.db.chunks, swept, c.w.generation, drafts, 0);
    hide Exactly;
  }

  lemma SmoothStep(c0: Cell, c: Cell, input: Input, sha: string, drafts: seq<Chunk>)
    requires Ready2Claim(c0) && Storable(c0.w.generation, drafts) && Along(c0, c, sha, drafts)
    requires Accepts(c.w, input) && Smooth(input, sha, drafts)
    ensures Along(c0, Next(c, input), sha, drafts)
  {
    hide Next, Smooth, Storable, Starting, Activated, SoFarEarly, SoFarPreparing, SoFarStaging, StillHeld;
    if c.w.pc.LoadRow? || c.w.pc.ReadEmbedding? || c.w.pc.ClaimIndex? {
      StartStep(c0, c, input, sha, drafts);
    } else if c.w.pc == Sweep {
      SweepStep(c0, c, input, sha, drafts);
    } else if Early(c.w.pc) {
      EarlyStep(c0, c, input, sha, drafts);
    } else if Preparing(c.w.pc) {
      PreparingStep(c0, c, input, sha, drafts);
    } else if StagingPc(c.w.pc) {
      StagingStep(c0, c, input, sha, drafts);
    } else if c.w.pc == CheckEmbedding || c.w.pc == Flip {
      CommittingStep(c0, c, input, sha, drafts);
    } else {
      CountingStep(c0, c, input, sha, drafts);
    }
  }

  // ----- every smooth continuation -----

  /** The longer run adds statements of one worker only, all of them smooth. */
  ghost predicate OnlySmooth(events: seq<Event>, longer: seq<Event>, id: nat, sha: string, drafts: seq<Chunk>) {
    OnlyBy(events, longer, id)
    && forall n :: |events| <= n < |longer| ==> longer[n].Work? && Smooth(longer[n].input, sha, drafts)
  }

  /** Where the continuation has got to: one worker along its way, the builds unchanged up to its activation. */
  ghost predicate Reaches(s: State, t: State, id: nat, sha: string, drafts: seq<Chunk>)
    requires id in s.workers && Ready2Claim(CellOf(s, id))
  {
    && id in t.workers && Along(CellOf(s, id), CellOf(t, id), sha, drafts)
    && (t.workers[id].pc != Sweep && t.workers[id].pc != Finished(WasReady) ==> t.built == s.built)
  }

  lemma ReachesFurther(s: State, t: State, id: nat, input: Input, sha: string, drafts: seq<Chunk>)
    requires id in s.workers && Ready2Claim(CellOf(s, id)) && Storable(s.workers[id].generation, drafts)
    requires Reaches(s, t, id, sha, drafts) && Enabled(t, Work(id, input)) && Smooth(input, sha, drafts)
    ensures Reaches(s, Step(t, Work(id, input)), id, sha, drafts)
  {
    hide Step, WorkersAfter, WorkerAfter, RowAfter, ChunksAfter, Along, Smooth, Storable, Ready2Claim;
    WorkShape(t, Work(id, input));
    PcFrame(t.db, t.workers[id], input);
    SmoothStep(CellOf(s, id), CellOf(t, id), input, sha, drafts);
  }

  lemma {:induction false} SmoothRun(events: seq<Event>, longer: seq<Event>, id: nat, sha: string, drafts: seq<Chunk>)
    requires Valid(INIT, events) && Valid(INIT, longer) && OnlySmooth(events, longer, id, sha, drafts)
    requires var s := Exec(INIT, events);
      id in s.workers && Ready2Claim(CellOf(s, id)) && Storable(s.workers[id].generation, drafts)
    ensures Reaches(Exec(INIT, events), Exec(INIT, longer), id, sha, drafts)
    decreases |longer|
  {
    hide Step, Enabled, Along, Smooth, Storable;
    if |longer| == |events| {
      assert longer == events;
      StandsAtStart(Exec(INIT, events), id, sha, drafts);
    } else {
      var front, e := longer[..|longer| - 1], longer[|longer| - 1];
      assert OnlySmooth(events, front, id, sha, drafts);
      SmoothRun(events, front, id, sha, drafts);
      assert e == Work(id, e.input);
      ReachesFurther(Exec(INIT, events), Exec(INIT, front), id, e.input, sha, drafts);
    }
  }

  lemma StandsAtStart(s: State, id: nat, sha: string, drafts: seq<Chunk>)
    requires id in s.workers && Ready2Claim(CellOf(s, id))
    ensures Reaches(s, s, id, sha, drafts)
  {
  }

  /**
   A job that can claim its generation and is then left alone: whatever batches it inserts
   and whatever it checks and reports in between, if no statement fails and it is answered
   with this head and these drafts, it can only end as unchanged, with everything in place,
   or with exactly its drafts live and nothing else in the table - the first exactly when
   the row it found names this head and the current embedding configuration.
   */
  lemma UndisturbedJobEnds(events: seq<Event>, longer: seq<Event>, s: State, t: State,
                           id: nat, sha: string, drafts: seq<Chunk>)
    requires Valid(INIT, events) && Exec(INIT, events) == s && Valid(INIT, longer) && Exec(INIT, longer) == t
    requires OnlySmooth(events, longer, id, sha, drafts)
    requires id in s.workers && Ready2Claim(CellOf(s, id)) && Storable(s.workers[id].generation, drafts)
    requires id in t.workers && !Live(t.workers[id])
    ensures HeadUnchanged(CellOf(s, id), sha) ==> LeftUnchanged(s, t, id, sha)
    ensures !HeadUnchanged(CellOf(s, id), sha) ==> AloneAndWhole(t, id, s.workers[id].generation, sha, drafts)
  {
    hide Exec, Valid, OnlySmooth, Storable, Exactly, Ready2Claim;
    SmoothRun(events, longer, id, sha, drafts);
  }
}
