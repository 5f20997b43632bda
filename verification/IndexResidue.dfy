/**
 No garbage at rest: a generation's rows outlive its job only when the generation is the
 active one, so once no job is running and every sweep and cleanup has succeeded, the
 table holds the active generation and nothing else.
 */
module IndexResidue {
  import opened Common
  import opened IndexStore
  import opened IndexProtocol
  import opened IndexFencing
  import opened IndexIntegrity
  import opened IndexProvenance

  /** From the delete that prepares a generation to the end of the cleanup. */
  predicate MayOwnRows(w: Worker) {
    || w.pc.Stage? || w.pc.ConfirmInsert? || w.pc.InsertBatch? || w.pc.ReportSaving? || w.pc.ConfirmSaving?
    || w.pc.CountStored? || w.pc.CheckEmbedding? || w.pc.Flip? || w.pc.Clean?
  }

  ghost predicate OwnedBy(s: State, i: nat, generation: nat) {
    i in s.workers && s.workers[i].generation == generation && MayOwnRows(s.workers[i])
  }

  ghost predicate SweepPending(s: State, i: nat) {
    i in s.workers && s.workers[i].pc == Sweep && Active(s) == Some(s.workers[i].generation)
  }

  ghost predicate AccountedFor(s: State, generation: nat) {
    || Active(s) == Some(generation)
    || (exists i :: OwnedBy(s, i, generation))
    || (exists i :: SweepPending(s, i))
  }

  /** Every stored row is live, or belongs to a running job, or the live generation's sweep is due. */
  ghost predicate Accounted(s: State) {
    forall k :: k in s.db.chunks ==> AccountedFor(s, k.generation)
  }

  /** No sweep and no cleanup fails, and no worker is lost that still answers for rows. */
  predicate Tidy(s: State, e: Event) {
    && (e.Work? && Enabled(s, e) && e.input.Fault? ==>
          s.workers[e.id].pc != Sweep && s.workers[e.id].pc != Clean)
    && (e.Crash? && Enabled(s, e) ==> s.workers[e.id].pc != Sweep && !MayOwnRows(s.workers[e.id]))
  }

  /** What a statement can leave in the table, and whether its worker still answers for it. */
  lemma RowsFrame(db: Db, w: Worker, input: Input)
    requires Accepts(w, input)
    requires input.Fault? ==> w.pc != Sweep && w.pc != Clean
    requires w.context.activeGeneration != Some(w.generation) || w.pc != Clean
    ensures forall k :: k in ChunksAfter(db.chunks, w, input) && k !in db.chunks ==>
      k.generation == w.generation && w.pc == InsertBatch
    ensures w.pc == InsertBatch ==> MayOwnRows(WorkerAfter(db, w, input))
    ensures MayOwnRows(w) && !MayOwnRows(WorkerAfter(db, w, input)) ==>
      || (w.pc == Clean && NoRows(ChunksAfter(db.chunks, w, input), w.generation))
      || (w.pc == Flip && WorkerAfter(db, w, input).pc == Sweep)
    ensures w.pc == Sweep ==>
      forall k :: k in ChunksAfter(db.chunks, w, input) ==> k.generation == w.generation
  {
    if w.pc == InsertBatch && InsertSucceeds(db.chunks, w) {
      RowsHoldBatch(w.generation, Batch(w));
    }
  }

  lemma WorkKeepsAccounted(s: State, e: Event)
    requires Accounted(s) && Enabled(s, e) && e.Work? && Tidy(s, e)
    requires WorkerBelongs(s, s.workers[e.id])
    requires s.workers[e.id].pc == Clean ==>
      s.workers[e.id].context.activeGeneration != Some(s.workers[e.id].generation)
    ensures Accounted(Step(s, e))
  {
    var w, t := s.workers[e.id], Step(s, e);
    WorkShape(s, e);
    PcFrame(s.db, w, e.input);
    RowsFrame(s.db, w, e.input);
    ActivationExactly(s.db.row, w, e.input);
    hide Step, WorkersAfter, WorkerAfter, RowAfter, ChunksAfter, Accepts;
    forall k | k in t.db.chunks ensures AccountedFor(t, k.generation) {
      if Flips(s, e) {
        assert SweepPending(t, e.id);
      } else if k !in s.db.chunks {
        assert OwnedBy(t, e.id, k.generation);
      } else if w.pc == Sweep && Active(s) != Some(k.generation) {
        // only this sweep's own rows are left, and they are not the live ones
        AfterLateSweep(s, t, e, k);
      } else {
        StillAccounted(s, t, e, k.generation);
      }
    }
  }

  lemma AfterLateSweep(s: State, t: State, e: Event, k: Key)
    requires Accounted(s) && e.Work? && e.id in s.workers && s.workers[e.id].pc == Sweep
    requires k in s.db.chunks && k.generation == s.workers[e.id].generation
    requires Active(s) != Some(k.generation) && Active(t) == Active(s) && t.workers.Keys == s.workers.Keys
    requires forall i :: i in s.workers && i != e.id ==> SameButMark(t.workers[i], s.workers[i])
    ensures AccountedFor(t, k.generation)
  {
    assert AccountedFor(s, k.generation);
    if i :| OwnedBy(s, i, k.generation) {
      assert OwnedBy(t, i, k.generation);
    } else {
      var i :| SweepPending(s, i);
      assert SweepPending(t, i);
    }
  }

  lemma StillAccounted(s: State, t: State, e: Event, generation: nat)
    requires AccountedFor(s, generation) && e.Work? && e.id in s.workers
    requires Active(t) == Active(s) && t.workers.Keys == s.workers.Keys
    requires t.workers[e.id].generation == s.workers[e.id].generation
    requires forall i :: i in s.workers && i != e.id ==> SameButMark(t.workers[i], s.workers[i])
    requires s.workers[e.id].pc == Sweep ==> Active(s) == Some(generation)
    requires MayOwnRows(s.workers[e.id]) && s.workers[e.id].generation == generation ==>
      MayOwnRows(t.workers[e.id])
    ensures AccountedFor(t, generation)
  {
    if Active(s) == Some(generation) {
    } else if i :| OwnedBy(s, i, generation) {
      assert OwnedBy(t, i, generation);
    } else {
      var i :| SweepPending(s, i);
      assert SweepPending(t, i);
    }
  }

  lemma OtherKeepsAccounted(s: State, e: Event)
    requires Accounted(s) && Enabled(s, e) && Tidy(s, e) && !e.Work?
    ensures Accounted(Step(s, e))
  {
    var t := Step(s, e);
    hide WorkersAfter, WorkerAfter, RowAfter, ChunksAfter;
    assert t.db.chunks == s.db.chunks && Active(t) == Active(s);
    forall k | k in t.db.chunks ensures AccountedFor(t, k.generation) {
      assert AccountedFor(s, k.generation);
      if Active(s) == Some(k.generation) {
      } else if i :| OwnedBy(s, i, k.generation) {
        assert OwnedBy(t, i, k.generation);
      } else {
        var i :| SweepPending(s, i);
        assert SweepPending(t, i);
      }
    }
  }

  ghost predicate TidyRun(events: seq<Event>)
    requires Valid(INIT, events)
  {
    forall n :: 0 <= n < |events| ==> Tidy(Prefix(events, n), events[n])
  }

  lemma TidyLosesNoSweep(events: seq<Event>)
    requires Valid(INIT, events) && TidyRun(events)
    ensures NoLostSweep(events)
  {
    hide Step, Exec, Valid, Prefix;
    forall n | 0 <= n < |events| ensures !LosesSweep(Prefix(events, n), events[n]) {
      assert Tidy(Prefix(events, n), events[n]);
    }
  }

  lemma InitAccounted()
    ensures Accounted(INIT)
  {
  }

  lemma {:induction false} RunKeepsAccounted(events: seq<Event>, n: nat)
    requires Valid(INIT, events) && DisciplinedRun(events) && TidyRun(events) && n <= |events|
    ensures Accounted(Prefix(events, n))
    decreases n
  {
    hide Step, Enabled, JobInv, StagedInv, Disciplined, Accounted, NotRedelivered;
    InitAccounted();
    if n > 0 {
      RunKeepsAccounted(events, n - 1);
      RunKeepsIntegrityInv(events, n - 1);
      PrefixStep(events, n - 1);
      TidyLosesNoSweep(events);
      NotRedeliveredInRun(events, n - 1);
      StepKeepsAccounted(Prefix(events, n - 1), events[n - 1]);
    }
  }

  lemma StepKeepsAccounted(s: State, e: Event)
    requires Accounted(s) && JobInv(s) && NotRedelivered(s) && Enabled(s, e) && Tidy(s, e)
    ensures Accounted(Step(s, e))
  {
    hide Step, WorkersAfter, WorkerAfter, RowAfter, ChunksAfter, Accepts, OneJob, OutOfQueue;
    if e.Work? {
      assert WorkerBelongs(s, s.workers[e.id]) && KnowsBuild(s.built, s.workers[e.id]);
      WorkKeepsAccounted(s, e);
    } else {
      OtherKeepsAccounted(s, e);
    }
  }

  /** A disciplined run that ends in s and in which every sweep and cleanup succeeds. */
  ghost predicate TidyEnd(events: seq<Event>, s: State) {
    RunOf(events) && TidyRun(events) && Exec(INIT, events) == s
  }

  /**
   After any disciplined run in which sweeps and cleanups succeed, once no job is running
   the table holds rows of the active generation only.
   */
  lemma OnlyActiveRowsAtRest(events: seq<Event>, s: State)
    requires TidyEnd(events, s) && forall i :: i in s.workers ==> !Live(s.workers[i])
    ensures forall k :: k in s.db.chunks ==> Active(s) == Some(k.generation)
  {
    hide Step, WorkersAfter, WorkerAfter, RowAfter, ChunksAfter, Accepts, Valid, Exec, DisciplinedRun, TidyRun;
    LastPrefix(events);
    RunKeepsAccounted(events, |events|);
    forall k | k in s.db.chunks ensures Active(s) == Some(k.generation) {
      assert AccountedFor(s, k.generation);
    }
  }

  // ----- cleanup and activation -----

  predicate PastActivation(pc: Pc) { pc.Sweep? || pc.Finished? }

  /** A call of process that has committed its activation never reaches the cleanup or the failure write. */
  lemma {:induction false} NoCleanupAfterActivation(s: State, events: seq<Event>, i: nat)
    requires Valid(s, events) && i in s.workers && PastActivation(s.workers[i].pc)
    ensures i in Exec(s, events).workers && PastActivation(Exec(s, events).workers[i].pc)
    decreases |events|
  {
    hide Step;
    if events != [] {
      var front := events[..|events| - 1];
      NoCleanupAfterActivation(s, front, i);
      PastActivationStep(Exec(s, front), events[|events| - 1], i);
    }
  }

  lemma PastActivationStep(s: State, e: Event, i: nat)
    requires Enabled(s, e) && i in s.workers && PastActivation(s.workers[i].pc)
    ensures i in Step(s, e).workers && PastActivation(Step(s, e).workers[i].pc)
  {
    if e.Work? {
      WorkShape(s, e);
      if e.id == i { AfterSweep(s.db, s.workers[i], e.input); }
      hide Step, WorkersAfter, WorkerAfter, RowAfter, ChunksAfter;
    } else {
      hide WorkersAfter, WorkerAfter, RowAfter, ChunksAfter;
    }
  }

  /**
   The guard of the cleanup compares with the snapshot taken at the claim. It fires exactly
   for a job whose generation had been activated before, by a delivery that was lost at its
   sweep; and a cleanup that runs never removes live rows.
   */
  lemma CleanupGuardExactly(s: State, i: nat)
    requires Reachable(s) && i in s.workers && s.workers[i].pc == Clean
    ensures s.workers[i].context.activeGeneration == Some(s.workers[i].generation)
       <==> s.workers[i].generation in s.built
    ensures Active(s).Some? ==>
      SameRows(s.db.chunks, ChunksAfter(s.db.chunks, s.workers[i], Proceed), Active(s).value)
  {
    ReachableProvenance(s);
    assert KnowsBuild(s.built, s.workers[i]);
  }

  /** Without such a loss no cleanup is skipped and no failure is written for an activated generation. */
  lemma CleanupNeverSkipped(events: seq<Event>, s: State, i: nat)
    requires RunOf(events) && NoLostSweep(events) && Exec(INIT, events) == s
    requires i in s.workers && (s.workers[i].pc == Clean || s.workers[i].pc == MarkFailed)
    ensures s.workers[i].generation !in s.built && Active(s) != Some(s.workers[i].generation)
    ensures s.workers[i].context.activeGeneration != Some(s.workers[i].generation)
  {
    hide Exec, Valid, DisciplinedRun, NoLostSweep, StagedInv;
    LastPrefix(events);
    NotRedeliveredInRun(events, |events|);
    RunKeepsIntegrityInv(events, |events|);
    assert KnowsBuild(s.built, s.workers[i]);
  }
}
