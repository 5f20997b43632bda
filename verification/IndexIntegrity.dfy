/**
 Index integrity under the queue's discipline: one delivery of a generation at a time, and
 again only after `process` threw or its worker was lost. A worker may be lost anywhere.

 The chunk rows of the active generation are exactly what its job staged, in every state
 of a run, if and only if the run contains none of three events:
   - a sweep that lands after a later activation (it deletes the newer, live generation);
   - an activation that commits although a sweep of another generation landed between
     the count of its own transaction and the row update;
   - a redelivered job that clears or extends the rows of its generation although that is
     the live one, because the worker before it was lost between activation and sweep.
 */
module IndexIntegrity {
  import opened Common
  import opened CodeChunks
  import opened IndexStore
  import opened IndexProtocol
  import opened IndexFencing

  predicate Disciplined(s: State, e: Event) { e.Deliver? ==> e.generation in s.queue }

  // ----- one job per generation -----

  predicate SameJob(w: Worker, v: Worker) { Live(w) && Live(v) && w.generation == v.generation }

  ghost predicate OneJob(s: State) {
    forall i, j :: i in s.workers && j in s.workers && SameJob(s.workers[i], s.workers[j]) ==> i == j
  }

  ghost predicate BuiltUpTo(s: State) {
    && (forall g :: g in s.built ==> g in s.enqueued && Active(s).Some? && g <= Active(s).value)
    && (Active(s).Some? ==> Active(s).value in s.built)
  }

  ghost predicate OutOfQueue(s: State) {
    forall i :: i in s.workers && Live(s.workers[i]) ==>
      s.workers[i].generation !in s.queue && (s.workers[i].pc == Sweep ==> s.workers[i].generation in s.built)
  }

  /** The snapshot a worker took names its own generation as active exactly when that was activated before. */
  ghost predicate KnowsBuild(built: map<nat, Build>, w: Worker) {
    Live(w) && w.pc != LoadRow && w.pc != Sweep ==>
      && (w.context.activeGeneration == Some(w.generation) <==> w.generation in built)
      && (w.context.activeGeneration.Some? ==> w.context.activeGeneration.value <= w.generation)
  }

  ghost predicate Snapshots(s: State) {
    forall i :: i in s.workers ==> KnowsBuild(s.built, s.workers[i])
  }

  ghost predicate JobInv(s: State) {
    FenceInv(s) && OneJob(s) && BuiltUpTo(s) && OutOfQueue(s) && Snapshots(s)
  }

  lemma ContextFrame(db: Db, w: Worker, input: Input)
    requires Accepts(w, input)
    ensures var w' := WorkerAfter(db, w, input);
      && (w.pc != LoadRow && Live(w') ==>
            && w'.pc != LoadRow
            && w'.context.activeGeneration == w.context.activeGeneration
            && w'.context.commitSha == w.context.commitSha
            && w'.context.indexedFingerprint == w.context.indexedFingerprint)
      && (w.pc == LoadRow && Live(w') ==>
            && Current(db.row, w.generation)
            && w'.context == ContextOf(db.row, w.generation, w.context.fingerprint))
  {
  }

  lemma PcFrame(db: Db, w: Worker, input: Input)
    requires Accepts(w, input)
    ensures Live(w) && WorkerAfter(db, w, input).generation == w.generation
    ensures w.pc == Sweep ==> WorkerAfter(db, w, input).pc == Finished(WasReady)
    ensures WorkerAfter(db, w, input).pc == Sweep <==>
      w.pc == Flip && input.Proceed? && Current(db.row, w.generation)
  {
  }

  lemma ActivationExactly(row: Row, w: Worker, input: Input)
    requires Live(w) && w.pc != LoadRow ==> w.context.generation == w.generation
    ensures RowAfter(row, w, input).activeGeneration ==
      if w.pc == Flip && !input.Fault? && Current(row, w.generation) then Some(w.generation) else row.activeGeneration
  {
  }

  /** Being marked as swept changes nothing but the mark. */
  predicate SameButMark(v: Worker, w: Worker) {
    v == w || v == w.(plan := w.plan.(sweptSinceCount := true))
  }

  /** A work step moves one worker; the others can at most be marked as swept. */
  lemma WorkShape(s: State, e: Event)
    requires Enabled(s, e) && e.Work?
    ensures var (w, t) := (s.workers[e.id], Step(s, e));
      && t.workers.Keys == s.workers.Keys
      && t.workers[e.id] == WorkerAfter(s.db, w, e.input)
      && t.db == Db(RowAfter(s.db.row, w, e.input), ChunksAfter(s.db.chunks, w, e.input), s.db.credential)
      && t.enqueued == s.enqueued
      && t.built == (if Flips(s, e)
                     then s.built[w.generation := Build(w.plan.head, w.context.fingerprint, w.plan.drafts)]
                     else s.built)
      && t.queue == (if WorkerAfter(s.db, w, e.input).pc == Finished(Threw) then s.queue + {w.generation} else s.queue)
      && (forall i :: i in s.workers && i != e.id ==>
            && SameButMark(t.workers[i], s.workers[i])
            && (!Sweeps(s, e) || s.workers[i].generation == w.generation ==> t.workers[i] == s.workers[i])
            && (Sweeps(s, e) && s.workers[i].generation != w.generation ==> t.workers[i].plan.sweptSinceCount))
  {
    hide WorkerAfter, RowAfter, ChunksAfter;
  }

  lemma WorkKeepsOneJob(s: State, e: Event)
    requires OneJob(s) && Enabled(s, e) && e.Work?
    ensures OneJob(Step(s, e))
  {
    WorkShape(s, e);
    PcFrame(s.db, s.workers[e.id], e.input);
    hide Step, WorkersAfter, WorkerAfter, RowAfter, ChunksAfter, Accepts, Sweeps, Flips;
  }

  lemma WorkKeepsBuiltUpTo(s: State, e: Event)
    requires FenceInv(s) && BuiltUpTo(s) && Enabled(s, e) && e.Work?
    ensures BuiltUpTo(Step(s, e))
  {
    var w := s.workers[e.id];
    assert WorkerBelongs(s, w);
    WorkShape(s, e);
    PcFrame(s.db, w, e.input);
    ActivationExactly(s.db.row, w, e.input);
    hide WorkerBelongs, Step, WorkersAfter, WorkerAfter, RowAfter, ChunksAfter, Sweeps;
  }

  lemma WorkKeepsOutOfQueue(s: State, e: Event)
    requires OneJob(s) && OutOfQueue(s) && Enabled(s, e) && e.Work?
    ensures OutOfQueue(Step(s, e))
  {
    hide Step, WorkersAfter, WorkerAfter, RowAfter, ChunksAfter, Sweeps, Accepts;
    var w, t := s.workers[e.id], Step(s, e);
    WorkShape(s, e);
    PcFrame(s.db, w, e.input);
    forall i | i in t.workers && Live(t.workers[i])
      ensures t.workers[i].generation !in t.queue && (t.workers[i].pc == Sweep ==> t.workers[i].generation in t.built)
    {
      assert i != e.id ==> !SameJob(s.workers[i], w);
    }
  }

  /** The worker's own statement: a loaded row tells it whether its generation is already active. */
  lemma OwnStepKnowsBuild(s: State, e: Event)
    requires FenceInv(s) && BuiltUpTo(s) && Enabled(s, e) && e.Work? && KnowsBuild(s.built, s.workers[e.id])
    ensures KnowsBuild(Step(s, e).built, Step(s, e).workers[e.id])
  {
    hide Step, WorkersAfter, WorkerAfter, RowAfter, ChunksAfter, Sweeps, Accepts;
    var w := s.workers[e.id];
    assert WorkerBelongs(s, w);
    WorkShape(s, e);
    PcFrame(s.db, w, e.input);
    ContextFrame(s.db, w, e.input);
  }

  lemma WorkKeepsSnapshots(s: State, e: Event)
    requires JobInv(s) && Enabled(s, e) && e.Work?
    ensures Snapshots(Step(s, e))
  {
    hide Step, WorkersAfter, WorkerAfter, RowAfter, ChunksAfter, Sweeps, Accepts, FenceInv, OutOfQueue;
    OwnStepKnowsBuild(s, e);
    WorkShape(s, e);
  }

  lemma StepKeepsJobs(s: State, e: Event)
    requires JobInv(s) && Enabled(s, e) && Disciplined(s, e)
    ensures JobInv(Step(s, e))
  {
    StepKeepsFence(s, e);
    if e.Work? {
      WorkKeepsOneJob(s, e);
      WorkKeepsBuiltUpTo(s, e);
      WorkKeepsOutOfQueue(s, e);
      WorkKeepsSnapshots(s, e);
    } else {
      OtherKeepsJobs(s, e);
    }
  }

  lemma OtherKeepsJobs(s: State, e: Event)
    requires JobInv(s) && Enabled(s, e) && Disciplined(s, e) && !e.Work?
    ensures JobInv(Step(s, e))
  {
    hide FenceInv, OneJob, BuiltUpTo, OutOfQueue, Snapshots, Step, Enabled, Disciplined;
    StepKeepsFence(s, e);
    OtherKeepsOneJob(s, e);
    OtherKeepsBuiltUpTo(s, e);
    OtherKeepsOutOfQueue(s, e);
    OtherKeepsSnapshots(s, e);
  }

  lemma OtherKeepsOneJob(s: State, e: Event)
    requires FenceInv(s) && OneJob(s) && OutOfQueue(s) && Enabled(s, e) && Disciplined(s, e) && !e.Work?
    ensures OneJob(Step(s, e))
  {
    hide WorkerAfter, RowAfter, ChunksAfter, WorkersAfter, Accepts, FenceInv;
  }

  lemma OtherKeepsBuiltUpTo(s: State, e: Event)
    requires BuiltUpTo(s) && Enabled(s, e) && !e.Work?
    ensures BuiltUpTo(Step(s, e))
  {
    hide WorkerAfter, RowAfter, ChunksAfter, WorkersAfter, Accepts;
  }

  lemma OtherKeepsOutOfQueue(s: State, e: Event)
    requires FenceInv(s) && OneJob(s) && OutOfQueue(s) && Enabled(s, e) && Disciplined(s, e) && !e.Work?
    ensures OutOfQueue(Step(s, e))
  {
    hide WorkerAfter, RowAfter, ChunksAfter, WorkersAfter, Accepts;
  }

  lemma OtherKeepsSnapshots(s: State, e: Event)
    requires Snapshots(s) && Enabled(s, e) && !e.Work?
    ensures Snapshots(Step(s, e))
  {
    hide WorkerAfter, RowAfter, ChunksAfter, WorkersAfter, Accepts;
  }

  // ----- what a job has staged -----

  ghost predicate SameRows(before: Table, after: Table, generation: nat) {
    forall k: Key :: k.generation == generation ==>
      (k in before <==> k in after) && (k in before ==> before[k] == after[k])
  }

  ghost predicate NoRows(chunks: Table, generation: nat) {
    forall k :: k in chunks ==> k.generation != generation
  }

  /** Every stored row of the generation is one of the first `n` drafts. */
  ghost predicate StagedFrom(chunks: Table, generation: nat, drafts: seq<Chunk>, n: nat) {
    forall k :: k in chunks && k.generation == generation ==>
      exists i :: 0 <= i < n && i < |drafts| && KeyOf(generation, drafts[i]) == k && chunks[k] == drafts[i]
  }

  function KeySet(generation: nat, drafts: seq<Chunk>): set<Key> {
    set i | 0 <= i < |drafts| :: KeyOf(generation, drafts[i])
  }

  /** A list of n entries has at most n keys, and n only when no key is repeated. */
  lemma {:induction false} KeySetSize(generation: nat, drafts: seq<Chunk>)
    ensures |KeySet(generation, drafts)| <= |drafts|
    ensures |KeySet(generation, drafts)| == |drafts| ==> DistinctKeys(generation, drafts)
  {
    if drafts != [] {
      var n := |drafts| - 1;
      var front, last := drafts[..n], KeyOf(generation, drafts[n]);
      KeySetSize(generation, front);
      assert KeySet(generation, drafts) == KeySet(generation, front) + {last} by {
        forall k | k in KeySet(generation, drafts) ensures k in KeySet(generation, front) + {last} {
          var i :| 0 <= i < |drafts| && KeyOf(generation, drafts[i]) == k;
          if i < n { assert front[i] == drafts[i]; }
        }
        forall k | k in KeySet(generation, front) ensures k in KeySet(generation, drafts) {
          var i :| 0 <= i < |front| && KeyOf(generation, front[i]) == k;
          assert drafts[i] == front[i];
        }
      }
      if |KeySet(generation, drafts)| == |drafts| {
        assert last !in KeySet(generation, front);
        forall i, j | 0 <= i < j < |drafts|
          ensures KeyOf(generation, drafts[i]) != KeyOf(generation, drafts[j])
        {
          assert drafts[i] == front[i];
          if j < n { assert drafts[j] == front[j]; }
        }
      }
    }
  }

  lemma SubsetOfSameSize<T>(a: set<T>, b: set<T>)
    requires a <= b && |a| >= |b|
    ensures a == b
  {
    assert |b - a| == |b| - |a|;
  }

  /**
   The count check is enough: rows that all come from the list, as many as the list is
   long, are the list, with no key twice and none missing.
   */
  lemma CountProvesExactly(chunks: Table, generation: nat, drafts: seq<Chunk>)
    requires StagedFrom(chunks, generation, drafts, |drafts|)
    requires StoredCount(chunks, generation) == |drafts|
    ensures Exactly(chunks, generation, drafts)
  {
    KeySetSize(generation, drafts);
    SubsetOfSameSize(GenerationKeys(chunks, generation), KeySet(generation, drafts));
    forall i | 0 <= i < |drafts|
      ensures KeyOf(generation, drafts[i]) in chunks && chunks[KeyOf(generation, drafts[i])] == drafts[i]
    {
      var k := KeyOf(generation, drafts[i]);
      assert k in KeySet(generation, drafts);
      assert k in GenerationKeys(chunks, generation);
      var j :| 0 <= j < |drafts| && KeyOf(generation, drafts[j]) == k && chunks[k] == drafts[j];
      assert i == j;
    }
  }

  lemma SameRowsKeeps(before: Table, after: Table, generation: nat, drafts: seq<Chunk>, n: nat)
    requires SameRows(before, after, generation)
    ensures StagedFrom(before, generation, drafts, n) ==> StagedFrom(after, generation, drafts, n)
    ensures Exactly(before, generation, drafts) <==> Exactly(after, generation, drafts)
    ensures NoRows(before, generation) <==> NoRows(after, generation)
  {
    if StagedFrom(before, generation, drafts, n) {
      forall k | k in after && k.generation == generation
        ensures exists i :: 0 <= i < n && i < |drafts| && KeyOf(generation, drafts[i]) == k && after[k] == drafts[i]
      {
        assert k in before;
      }
    }
    assert forall k :: k in after && k.generation == generation ==> k in before;
    assert forall k :: k in before && k.generation == generation ==> k in after;
    assert forall i :: 0 <= i < |drafts| ==> KeyOf(generation, drafts[i]).generation == generation;
    if Exactly(before, generation, drafts) { assert Exactly(after, generation, drafts); }
    if Exactly(after, generation, drafts) { assert Exactly(before, generation, drafts); }
  }

  /** A statement leaves the rows of other generations alone, except a sweep, which removes them. */
  lemma ChunksFrame(chunks: Table, w: Worker, input: Input, generation: nat)
    requires generation != w.generation
    ensures !(w.pc == Sweep && !input.Fault?) ==> SameRows(chunks, ChunksAfter(chunks, w, input), generation)
    ensures w.pc == Sweep && !input.Fault? ==> NoRows(ChunksAfter(chunks, w, input), generation)
  {
    if w.pc == InsertBatch && InsertSucceeds(chunks, w) {
      RowsHoldBatch(w.generation, Batch(w));
    }
  }

  /** What a worker's generation holds, at each point of staging and activation. */
  ghost predicate WorkerStaged(chunks: Table, w: Worker) {
    match w.pc
    case Stage => w.plan.saved <= |w.plan.drafts|
                  && StagedFrom(chunks, w.generation, w.plan.drafts, w.plan.saved)
    case ConfirmInsert => w.plan.saved + w.plan.batch <= |w.plan.drafts| && 0 < w.plan.batch
                          && StagedFrom(chunks, w.generation, w.plan.drafts, w.plan.saved)
    case InsertBatch => w.plan.saved + w.plan.batch <= |w.plan.drafts| && 0 < w.plan.batch
                        && StagedFrom(chunks, w.generation, w.plan.drafts, w.plan.saved)
    case ReportSaving => AllStaged(chunks, w)
    case ConfirmSaving => AllStaged(chunks, w)
    case CountStored => AllStaged(chunks, w)
    case CheckEmbedding => Counted(chunks, w)
    case Flip => Counted(chunks, w) && w.plan.stored == |w.plan.drafts|
    case _ => true
  }

  ghost predicate AllStaged(chunks: Table, w: Worker) {
    0 < |w.plan.drafts| && StagedFrom(chunks, w.generation, w.plan.drafts, |w.plan.drafts|)
  }

  /** Between the count and the row update only a foreign sweep can touch the rows, and it takes all. */
  ghost predicate Counted(chunks: Table, w: Worker) {
    && 0 < |w.plan.drafts|
    && (w.plan.sweptSinceCount ==> NoRows(chunks, w.generation))
    && (!w.plan.sweptSinceCount && w.plan.stored == |w.plan.drafts| ==>
          Exactly(chunks, w.generation, w.plan.drafts))
  }

  /** Which draft a row of the generation holds after the next batch has been inserted. */
  lemma StagedKey(chunks: Table, generation: nat, drafts: seq<Chunk>, saved: nat, batch: seq<Chunk>, k: Key)
    returns (i: nat)
    requires saved + |batch| <= |drafts| && batch == drafts[saved..saved + |batch|]
    requires StagedFrom(chunks, generation, drafts, saved)
    requires k in chunks + Rows(generation, batch) && k.generation == generation
    ensures i < saved + |batch| && KeyOf(generation, drafts[i]) == k
    ensures (chunks + Rows(generation, batch))[k] == drafts[i]
  {
    RowsHoldBatch(generation, batch);
    hide Rows, KeyOf;
    if k in Rows(generation, batch) {
      var j :| 0 <= j < |batch| && KeyOf(generation, batch[j]) == k && Rows(generation, batch)[k] == batch[j];
      i := saved + j;
    } else {
      i :| 0 <= i < saved && i < |drafts| && KeyOf(generation, drafts[i]) == k && chunks[k] == drafts[i];
    }
  }

  lemma InsertExtendsStaged(chunks: Table, w: Worker)
    requires w.plan.saved + w.plan.batch <= |w.plan.drafts|
    requires StagedFrom(chunks, w.generation, w.plan.drafts, w.plan.saved)
    requires InsertSucceeds(chunks, w)
    ensures StagedFrom(InsertRows(chunks, w.generation, Batch(w)), w.generation, w.plan.drafts,
                       w.plan.saved + w.plan.batch)
  {
    var after := InsertRows(chunks, w.generation, Batch(w));
    assert after == chunks + Rows(w.generation, Batch(w));
    hide Rows, InsertRows, Insertable, KeyOf;
    forall k | k in after && k.generation == w.generation
      ensures exists i :: 0 <= i < w.plan.saved + w.plan.batch && i < |w.plan.drafts|
                          && KeyOf(w.generation, w.plan.drafts[i]) == k && after[k] == w.plan.drafts[i]
    {
      var i := StagedKey(chunks, w.generation, w.plan.drafts, w.plan.saved, Batch(w), k);
    }
  }

  predicate StagingPc(pc: Pc) {
    pc.ClearGeneration? || pc.Stage? || pc.ConfirmInsert? || pc.InsertBatch?
  }

  predicate ActivatingPc(pc: Pc) {
    pc.ReportSaving? || pc.ConfirmSaving? || pc.CountStored? || pc.CheckEmbedding? || pc.Flip?
  }

  lemma StagingKeepsStaged(db: Db, w: Worker, input: Input)
    requires Accepts(w, input) && WorkerStaged(db.chunks, w) && StagingPc(w.pc)
    ensures WorkerStaged(ChunksAfter(db.chunks, w, input), WorkerAfter(db, w, input))
  {
    if !input.Fault? && w.pc == InsertBatch && InsertSucceeds(db.chunks, w) {
      InsertExtendsStaged(db.chunks, w);
    }
  }

  lemma ActivatingKeepsStaged(db: Db, w: Worker, input: Input)
    requires Accepts(w, input) && WorkerStaged(db.chunks, w) && ActivatingPc(w.pc)
    ensures WorkerStaged(ChunksAfter(db.chunks, w, input), WorkerAfter(db, w, input))
  {
    if !input.Fault? && w.pc == CountStored && StoredCount(db.chunks, w.generation) == |w.plan.drafts| {
      CountProvesExactly(db.chunks, w.generation, w.plan.drafts);
    }
  }

  lemma OutsideStaging(db: Db, w: Worker, input: Input)
    requires Accepts(w, input) && !StagingPc(w.pc) && !ActivatingPc(w.pc)
    ensures var pc := WorkerAfter(db, w, input).pc; (StagingPc(pc) ==> pc == ClearGeneration) && !ActivatingPc(pc)
  {
  }

  lemma OwnStepKeepsStaged(db: Db, w: Worker, input: Input)
    requires Accepts(w, input) && WorkerStaged(db.chunks, w)
    ensures WorkerStaged(ChunksAfter(db.chunks, w, input), WorkerAfter(db, w, input))
  {
    hide WorkerAfter, ChunksAfter;
    if StagingPc(w.pc) {
      StagingKeepsStaged(db, w, input);
    } else if ActivatingPc(w.pc) {
      ActivatingKeepsStaged(db, w, input);
    } else {
      OutsideStaging(db, w, input);
    }
  }

  lemma ForeignStepKeepsStaged(chunks: Table, w: Worker, input: Input, before: Worker, after: Worker)
    requires before.generation != w.generation && SameButMark(after, before)
    requires !(w.pc == Sweep && !input.Fault?) ==> after == before
    requires w.pc == Sweep && !input.Fault? ==> after.plan.sweptSinceCount
    requires WorkerStaged(chunks, before)
    ensures WorkerStaged(ChunksAfter(chunks, w, input), after)
  {
    ChunksFrame(chunks, w, input, before.generation);
    var chunks' := ChunksAfter(chunks, w, input);
    hide ChunksAfter;
    if !(w.pc == Sweep && !input.Fault?) {
      SameRowsKeeps(chunks, chunks', before.generation, before.plan.drafts, before.plan.saved);
      SameRowsKeeps(chunks, chunks', before.generation, before.plan.drafts, |before.plan.drafts|);
    }
  }

  ghost predicate StagedInv(s: State) {
    forall i :: i in s.workers ==> WorkerStaged(s.db.chunks, s.workers[i])
  }

  /** What a work step does to another worker and to the chunks. */
  lemma OtherAfterWork(s: State, e: Event, i: nat)
    requires Enabled(s, e) && e.Work? && i in s.workers && i != e.id
    requires s.workers[i].generation != s.workers[e.id].generation
    ensures var (w, t) := (s.workers[e.id], Step(s, e));
      && i in t.workers && SameButMark(t.workers[i], s.workers[i])
      && (!(w.pc == Sweep && !e.input.Fault?) ==> t.workers[i] == s.workers[i])
      && (w.pc == Sweep && !e.input.Fault? ==> t.workers[i].plan.sweptSinceCount)
      && t.db.chunks == ChunksAfter(s.db.chunks, w, e.input)
  {
    hide WorkerAfter, RowAfter, ChunksAfter;
  }

  lemma OtherStaysStaged(s: State, e: Event, i: nat)
    requires OneJob(s) && Enabled(s, e) && e.Work? && i in s.workers && i != e.id
    requires WorkerStaged(s.db.chunks, s.workers[i])
    ensures i in Step(s, e).workers && WorkerStaged(Step(s, e).db.chunks, Step(s, e).workers[i])
  {
    hide WorkersAfter, WorkerAfter, RowAfter, ChunksAfter, Counted, AllStaged, StagedFrom;
    if Live(s.workers[i]) {
      assert Live(s.workers[e.id]) && s.workers[i].generation != s.workers[e.id].generation;
      hide Step, Enabled, OneJob, WorkerStaged;
      OtherAfterWork(s, e, i);
      ForeignStepKeepsStaged(s.db.chunks, s.workers[e.id], e.input, s.workers[i], Step(s, e).workers[i]);
    } else {
      WorkShape(s, e);
    }
  }

  lemma WorkKeepsStaged(s: State, e: Event)
    requires OneJob(s) && StagedInv(s) && Enabled(s, e) && e.Work?
    ensures StagedInv(Step(s, e))
  {
    var w, t := s.workers[e.id], Step(s, e);
    WorkShape(s, e);
    OwnStepKeepsStaged(s.db, w, e.input);
    hide Step, WorkersAfter, WorkerAfter, RowAfter, ChunksAfter, Accepts, Flips, WorkerStaged, OneJob;
    forall i | i in t.workers && i != e.id ensures WorkerStaged(t.db.chunks, t.workers[i]) {
      OtherStaysStaged(s, e, i);
    }
  }

  lemma StepKeepsStaged(s: State, e: Event)
    requires OneJob(s) && StagedInv(s) && Enabled(s, e)
    ensures StagedInv(Step(s, e))
  {
    hide WorkersAfter, WorkerAfter, RowAfter, ChunksAfter;
    if e.Work? {
      WorkKeepsStaged(s, e);
    }
  }

  // ----- integrity -----

  /** The rows of the active generation are exactly what the job that activated it staged. */
  ghost predicate Integrity(s: State) {
    Active(s).Some? ==>
      && Active(s).value in s.built
      && Exactly(s.db.chunks, Active(s).value, s.built[Active(s).value].drafts)
  }

  /** Nothing empty is ever activated. */
  ghost predicate BuildsNonEmpty(s: State) {
    forall g :: g in s.built ==> 0 < |s.built[g].drafts|
  }

  /** A sweep lands although a later activation has committed meanwhile. */
  predicate LateSweep(s: State, e: Event) {
    Sweeps(s, e) && Active(s) != Some(s.workers[e.id].generation)
  }

  /** An activation commits although a foreign sweep landed between its count and its row update. */
  predicate SweptActivation(s: State, e: Event) {
    Flips(s, e) && s.workers[e.id].plan.sweptSinceCount
  }

  /** A redelivered job clears or extends the rows of its generation although that is the active one. */
  predicate RewritesLive(s: State, e: Event) {
    && e.Work? && Enabled(s, e) && e.input.Proceed? && Active(s) == Some(s.workers[e.id].generation)
    && (s.workers[e.id].pc == ClearGeneration
        || (s.workers[e.id].pc == InsertBatch && InsertSucceeds(s.db.chunks, s.workers[e.id])))
  }

  predicate Disturbs(s: State, e: Event) { LateSweep(s, e) || SweptActivation(s, e) || RewritesLive(s, e) }

  ghost predicate IntegrityInv(s: State) { JobInv(s) && StagedInv(s) && BuildsNonEmpty(s) }

  lemma WholeIsNotGone(chunks: Table, generation: nat, drafts: seq<Chunk>)
    requires 0 < |drafts| && NoRows(chunks, generation)
    ensures !Exactly(chunks, generation, drafts)
  {
    assert Exactly(chunks, generation, drafts) ==> KeyOf(generation, drafts[0]) in chunks;
  }

  /** The activating statement writes the row and leaves the chunks. */
  lemma FlipWrites(s: State, e: Event)
    requires Enabled(s, e) && Flips(s, e)
    requires WorkerBelongs(s, s.workers[e.id]) && WorkerStaged(s.db.chunks, s.workers[e.id])
    ensures var (w, t) := (s.workers[e.id], Step(s, e));
      && t.db.row == ActivateRow(s.db.row, w.context, w.plan.head, |w.plan.drafts|)
      && t.db.chunks == s.db.chunks
      && Active(t) == Some(w.generation)
      && t.built == s.built[w.generation := Build(w.plan.head, w.context.fingerprint, w.plan.drafts)]
      && (!w.plan.sweptSinceCount ==> Exactly(s.db.chunks, w.generation, w.plan.drafts))
  {
    hide WorkersAfter, WorkerAfter, Exactly;
  }

  lemma ActivationIntegrity(s: State, e: Event)
    requires IntegrityInv(s) && Enabled(s, e) && Flips(s, e)
    ensures BuildsNonEmpty(Step(s, e))
    ensures Integrity(Step(s, e)) <==> !s.workers[e.id].plan.sweptSinceCount
  {
    var w := s.workers[e.id];
    assert WorkerBelongs(s, w) && WorkerStaged(s.db.chunks, w);
    FlipWrites(s, e);
    hide Step, Enabled, Exactly, NoRows;
    if w.plan.sweptSinceCount {
      WholeIsNotGone(s.db.chunks, w.generation, w.plan.drafts);
    }
  }

  /** An insert that succeeds adds a row that was not there. */
  lemma InsertIsNotWhole(chunks: Table, generation: nat, batch: seq<Chunk>, drafts: seq<Chunk>)
    requires batch != [] && Insertable(chunks, generation, batch) && Exactly(chunks, generation, drafts)
    ensures !Exactly(InsertRows(chunks, generation, batch), generation, drafts)
  {
    RowsHoldBatch(generation, batch);
    var k := KeyOf(generation, batch[0]);
    var after := InsertRows(chunks, generation, batch);
    assert k in after && k !in chunks;
    hide Rows, InsertRows, Insertable, DistinctKeys;
    forall i | 0 <= i < |drafts| ensures KeyOf(generation, drafts[i]) != k {
      assert KeyOf(generation, drafts[i]) in chunks;
    }
  }

  /** A statement of a job whose generation is the active one. */
  lemma OwnGenerationIntegrity(s: State, e: Event, drafts: seq<Chunk>)
    requires Enabled(s, e) && e.Work? && !Flips(s, e) && Active(s) == Some(s.workers[e.id].generation)
    requires KnowsBuild(s.built, s.workers[e.id]) && WorkerStaged(s.db.chunks, s.workers[e.id])
    requires s.workers[e.id].generation in s.built
    requires 0 < |drafts| && Exactly(s.db.chunks, s.workers[e.id].generation, drafts)
    ensures Exactly(ChunksAfter(s.db.chunks, s.workers[e.id], e.input), s.workers[e.id].generation, drafts)
       <==> !RewritesLive(s, e)
  {
    var w := s.workers[e.id];
    var a, chunks' := w.generation, ChunksAfter(s.db.chunks, w, e.input);
    if RewritesLive(s, e) {
      if w.pc == ClearGeneration {
        WholeIsNotGone(chunks', a, drafts);
      } else {
        InsertIsNotWhole(s.db.chunks, a, Batch(w), drafts);
      }
    } else {
      assert SameRows(s.db.chunks, chunks', a);
      SameRowsKeeps(s.db.chunks, chunks', a, drafts, 0);
    }
  }

  lemma WorkIntegrity(s: State, e: Event)
    requires IntegrityInv(s) && Enabled(s, e) && e.Work? && !Flips(s, e)
    ensures BuildsNonEmpty(Step(s, e))
    ensures Integrity(s) ==> (Integrity(Step(s, e)) <==> !LateSweep(s, e) && !RewritesLive(s, e))
  {
    var w, t := s.workers[e.id], Step(s, e);
    WorkShape(s, e);
    assert WorkerBelongs(s, w);
    ActivationExactly(s.db.row, w, e.input);
    assert Active(t) == Active(s);
    if Active(s).Some? && Integrity(s) {
      var a := Active(s).value;
      var drafts := s.built[a].drafts;
      if w.generation == a {
        OwnGenerationIntegrity(s, e, drafts);
      } else {
        ChunksFrame(s.db.chunks, w, e.input, a);
        hide Step, WorkersAfter, WorkerAfter, RowAfter, ChunksAfter, Exactly;
        if LateSweep(s, e) {
          WholeIsNotGone(t.db.chunks, a, drafts);
        } else {
          SameRowsKeeps(s.db.chunks, t.db.chunks, a, drafts, 0);
        }
      }
    }
  }

  /**
   From a state with integrity, a step of a disciplined run keeps integrity exactly when
   it is none of the three disturbances.
   */
  lemma IntegrityKeptExactly(s: State, e: Event)
    requires IntegrityInv(s) && Enabled(s, e) && Disciplined(s, e)
    ensures IntegrityInv(Step(s, e))
    ensures Integrity(s) ==> (Integrity(Step(s, e)) <==> !Disturbs(s, e))
  {
    hide WorkersAfter, WorkerAfter, RowAfter, ChunksAfter, StagedInv;
    StepKeepsJobs(s, e);
    StepKeepsStaged(s, e);
    if Flips(s, e) {
      ActivationIntegrity(s, e);
    } else if e.Work? {
      WorkIntegrity(s, e);
    } else {
      assert Active(Step(s, e)) == Active(s);
    }
  }

  // ----- whole runs -----

  function Prefix(events: seq<Event>, n: nat): State
    requires Valid(INIT, events) && n <= |events|
    ensures Valid(INIT, events[..n]) && Prefix(events, n) == Exec(INIT, events[..n])
  {
    assert events == events[..n] + events[n..];
    ExecSplits(INIT, events[..n], events[n..]);
    Exec(INIT, events[..n])
  }

  lemma PrefixStep(events: seq<Event>, n: nat)
    requires Valid(INIT, events) && n < |events|
    ensures Enabled(Prefix(events, n), events[n])
    ensures Prefix(events, n + 1) == Step(Prefix(events, n), events[n])
  {
    hide Step, Enabled;
    assert events == events[..n + 1] + events[n + 1..];
    ExecSplits(INIT, events[..n + 1], events[n + 1..]);
    assert events[..n + 1][..n] == events[..n];
  }

  ghost predicate DisciplinedRun(events: seq<Event>)
    requires Valid(INIT, events)
  {
    forall n :: 0 <= n < |events| ==> Disciplined(Prefix(events, n), events[n])
  }

  lemma InitIntegrity()
    ensures IntegrityInv(INIT) && Integrity(INIT)
  {
  }

  lemma {:induction false} RunKeepsIntegrityInv(events: seq<Event>, n: nat)
    requires Valid(INIT, events) && DisciplinedRun(events) && n <= |events|
    ensures IntegrityInv(Prefix(events, n))
    decreases n
  {
    hide Step, Enabled, IntegrityInv, Integrity, Disturbs, Disciplined;
    InitIntegrity();
    if n > 0 {
      RunKeepsIntegrityInv(events, n - 1);
      PrefixStep(events, n - 1);
      IntegrityKeptExactly(Prefix(events, n - 1), events[n - 1]);
    }
  }

  lemma {:induction false} UndisturbedUpTo(events: seq<Event>, n: nat)
    requires Valid(INIT, events) && DisciplinedRun(events) && n <= |events|
    requires forall m :: 0 <= m < n ==> !Disturbs(Prefix(events, m), events[m])
    ensures Integrity(Prefix(events, n))
    decreases n
  {
    hide Step, Enabled, IntegrityInv, Integrity, Disturbs, Disciplined;
    InitIntegrity();
    if n > 0 {
      UndisturbedUpTo(events, n - 1);
      RunKeepsIntegrityInv(events, n - 1);
      PrefixStep(events, n - 1);
      IntegrityKeptExactly(Prefix(events, n - 1), events[n - 1]);
    }
  }

  /** A run in which the queue keeps its discipline. */
  ghost predicate RunOf(events: seq<Event>) { Valid(INIT, events) && DisciplinedRun(events) }

  /** A state at the end of such a run. */
  ghost predicate Reachable(s: State) { exists events :: RunOf(events) && Exec(INIT, events) == s }

  lemma LastPrefix(events: seq<Event>)
    requires Valid(INIT, events)
    ensures Prefix(events, |events|) == Exec(INIT, events)
  {
    assert events[..|events|] == events;
  }

  ghost predicate AlwaysWhole(events: seq<Event>)
    requires RunOf(events)
  {
    forall n :: 0 <= n <= |events| ==> Integrity(Prefix(events, n))
  }

  ghost predicate Undisturbed(events: seq<Event>)
    requires RunOf(events)
  {
    forall n :: 0 <= n < |events| ==> !Disturbs(Prefix(events, n), events[n])
  }

  /**
   Over every disciplined run, with any number of workers: every state has the active
   generation stored exactly as it was staged, if and only if no event of the run is one
   of the three disturbances.
   */
  lemma IntegrityExactlyWhenUndisturbed(events: seq<Event>)
    requires RunOf(events)
    ensures AlwaysWhole(events) <==> Undisturbed(events)
  {
    hide Step, Enabled, IntegrityInv, Integrity, Disturbs, Disciplined, Exec, Valid;
    if Undisturbed(events) {
      forall n | 0 <= n <= |events| ensures Integrity(Prefix(events, n)) {
        UndisturbedUpTo(events, n);
      }
    }
    if AlwaysWhole(events) {
      forall n | 0 <= n < |events| ensures !Disturbs(Prefix(events, n), events[n]) {
        RunKeepsIntegrityInv(events, n);
        PrefixStep(events, n);
        IntegrityKeptExactly(Prefix(events, n), events[n]);
        assert Integrity(Prefix(events, n)) && Integrity(Prefix(events, n + 1));
      }
    }
  }

  // ----- where the third disturbance comes from -----

  /** A worker is lost between its activation and its sweep. */
  predicate LosesSweep(s: State, e: Event) { e.Crash? && Enabled(s, e) && s.workers[e.id].pc == Sweep }

  /** No activated generation waits for a delivery or is being worked on again. */
  ghost predicate NotRedelivered(s: State) {
    && (forall g :: g in s.built ==> g !in s.queue)
    && (forall i :: i in s.workers && Live(s.workers[i]) && s.workers[i].generation in s.built ==>
          s.workers[i].pc == Sweep)
  }

  lemma StepKeepsNotRedelivered(s: State, e: Event)
    requires JobInv(s) && NotRedelivered(s) && Enabled(s, e) && Disciplined(s, e) && !LosesSweep(s, e)
    ensures NotRedelivered(Step(s, e))
  {
    hide RowAfter, ChunksAfter, WorkerAfter, WorkersAfter;
    if e.Work? {
      WorkKeepsNotRedelivered(s, e);
    } else {
      assert Step(s, e).built == s.built;
    }
  }

  lemma WorkKeepsNotRedelivered(s: State, e: Event)
    requires OneJob(s) && OutOfQueue(s) && NotRedelivered(s) && Enabled(s, e) && e.Work?
    ensures NotRedelivered(Step(s, e))
  {
    hide Step, WorkersAfter, Sweeps, RowAfter, ChunksAfter, WorkerAfter, Accepts;
    var w, t := s.workers[e.id], Step(s, e);
    WorkShape(s, e);
    PcFrame(s.db, w, e.input);
    assert w.generation !in s.queue;
    assert w.generation in s.built ==> w.pc == Sweep;
  }

  ghost predicate NoLostSweep(events: seq<Event>)
    requires Valid(INIT, events)
  {
    forall n :: 0 <= n < |events| ==> !LosesSweep(Prefix(events, n), events[n])
  }

  lemma {:induction false} NotRedeliveredInRun(events: seq<Event>, n: nat)
    requires Valid(INIT, events) && DisciplinedRun(events) && NoLostSweep(events) && n <= |events|
    ensures NotRedelivered(Prefix(events, n))
    decreases n
  {
    hide Step, Enabled, JobInv, StagedInv, Disciplined, LosesSweep;
    if n > 0 {
      NotRedeliveredInRun(events, n - 1);
      RunKeepsIntegrityInv(events, n - 1);
      PrefixStep(events, n - 1);
      StepKeepsNotRedelivered(Prefix(events, n - 1), events[n - 1]);
    }
  }

  /** Live rows are rewritten only in runs in which a worker was lost between activation and sweep. */
  lemma RewriteNeedsLostSweep(events: seq<Event>, s: State, e: Event)
    requires RunOf(events) && NoLostSweep(events) && Exec(INIT, events) == s && Enabled(s, e)
    ensures !RewritesLive(s, e)
  {
    hide Exec, Valid, DisciplinedRun, NoLostSweep, StagedInv;
    LastPrefix(events);
    NotRedeliveredInRun(events, |events|);
    RunKeepsIntegrityInv(events, |events|);
  }
}
