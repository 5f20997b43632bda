/**
 Integrity from three conditions on the schedule: activation transactions into which no
 sweep falls, sweeps that are not overtaken by another activation, and no worker lost
 between its activation and its sweep. The second alone is not enough at READ COMMITTED,
 as IndexScenario shows.
 */
module IndexSchedule {
  import opened Common
  import opened IndexStore
  import opened IndexProtocol
  import opened IndexFencing
  import opened IndexIntegrity

  /** The activation transaction has counted its rows and has not committed yet. */
  predicate InTransaction(w: Worker) { w.pc.CheckEmbedding? || w.pc.Flip? }

  predicate OutsideTransactions(s: State, e: Event) {
    Sweeps(s, e) ==> forall i :: i in s.workers ==> !InTransaction(s.workers[i])
  }

  predicate NotOvertaking(s: State, e: Event) {
    Flips(s, e) ==> forall i :: i in s.workers ==> s.workers[i].pc != Sweep
  }

  /** No sweep lands inside an activation transaction. */
  ghost predicate AtomicActivations(events: seq<Event>)
    requires Valid(INIT, events)
  {
    forall n :: 0 <= n < |events| ==> OutsideTransactions(Prefix(events, n), events[n])
  }

  /** No activation commits between another job's activation and its sweep. */
  ghost predicate PromptSweeps(events: seq<Event>)
    requires Valid(INIT, events)
  {
    forall n :: 0 <= n < |events| ==> NotOvertaking(Prefix(events, n), events[n])
  }

  ghost predicate NoneSwept(s: State) {
    forall i :: i in s.workers && InTransaction(s.workers[i]) ==> !s.workers[i].plan.sweptSinceCount
  }

  ghost predicate SweepersActive(s: State) {
    forall i :: i in s.workers && s.workers[i].pc == Sweep ==> Active(s) == Some(s.workers[i].generation)
  }

  lemma TransactionFrame(db: Db, w: Worker, input: Input)
    requires Accepts(w, input)
    requires InTransaction(w) ==> !w.plan.sweptSinceCount
    ensures InTransaction(WorkerAfter(db, w, input)) ==> !WorkerAfter(db, w, input).plan.sweptSinceCount
  {
  }

  lemma StepKeepsNoneSwept(s: State, e: Event)
    requires NoneSwept(s) && Enabled(s, e) && OutsideTransactions(s, e)
    ensures NoneSwept(Step(s, e))
  {
    if e.Work? {
      TransactionFrame(s.db, s.workers[e.id], e.input);
      WorkShape(s, e);
      hide Step, WorkersAfter, WorkerAfter, RowAfter, ChunksAfter, Accepts;
      forall i | i in s.workers && InTransaction(Step(s, e).workers[i])
        ensures !Step(s, e).workers[i].plan.sweptSinceCount
      {
        if i != e.id { assert InTransaction(s.workers[i]); }
      }
    } else {
      hide WorkersAfter, WorkerAfter, RowAfter, ChunksAfter;
      assert NoneSwept(Step(s, e));
    }
  }

  lemma StepKeepsSweepersActive(s: State, e: Event)
    requires FenceInv(s) && SweepersActive(s) && Enabled(s, e) && NotOvertaking(s, e)
    ensures SweepersActive(Step(s, e))
  {
    hide WorkersAfter, WorkerAfter, RowAfter, ChunksAfter, Accepts;
    if e.Work? {
      WorkKeepsSweepersActive(s, e);
    }
  }

  lemma WorkKeepsSweepersActive(s: State, e: Event)
    requires FenceInv(s) && SweepersActive(s) && Enabled(s, e) && NotOvertaking(s, e) && e.Work?
    ensures SweepersActive(Step(s, e))
  {
    hide Step, WorkersAfter, WorkerAfter, RowAfter, ChunksAfter, Sweeps;
    assert WorkerBelongs(s, s.workers[e.id]);
    PcFrame(s.db, s.workers[e.id], e.input);
    ActivationExactly(s.db.row, s.workers[e.id], e.input);
    WorkShape(s, e);
  }

  lemma {:induction false} NoneSweptInRun(events: seq<Event>, n: nat)
    requires Valid(INIT, events) && AtomicActivations(events) && n <= |events|
    ensures NoneSwept(Prefix(events, n))
    decreases n
  {
    if n > 0 {
      NoneSweptInRun(events, n - 1);
      PrefixStep(events, n - 1);
      StepKeepsNoneSwept(Prefix(events, n - 1), events[n - 1]);
    }
  }

  lemma {:induction false} SweepersActiveInRun(events: seq<Event>, n: nat)
    requires Valid(INIT, events) && PromptSweeps(events) && n <= |events|
    ensures FenceInv(Prefix(events, n)) && SweepersActive(Prefix(events, n))
    decreases n
  {
    if n > 0 {
      SweepersActiveInRun(events, n - 1);
      PrefixStep(events, n - 1);
      StepKeepsFence(Prefix(events, n - 1), events[n - 1]);
      StepKeepsSweepersActive(Prefix(events, n - 1), events[n - 1]);
    }
  }

  /** A disciplined run that ends in s and has no sweep inside an activation transaction. */
  ghost predicate AtomicRun(events: seq<Event>, s: State) {
    RunOf(events) && AtomicActivations(events) && Exec(INIT, events) == s
  }

  /**
   However sweeps of other jobs land while a generation is being staged, its activation
   either fails or makes a whole generation live: the count check lets nothing else pass.
   */
  lemma ActivationIsWhole(events: seq<Event>, s: State, e: Event)
    requires AtomicRun(events, s) && Enabled(s, e) && Flips(s, e)
    ensures var (w, t) := (s.workers[e.id], Step(s, e));
      && Active(t) == Some(w.generation)
      && Exactly(t.db.chunks, w.generation, w.plan.drafts)
      && t.db.row.chunkCount == |w.plan.drafts|
  {
    hide Step, Enabled, Flips, IntegrityInv, NoneSwept, Exactly, Exec, Valid, DisciplinedRun, AtomicActivations;
    LastPrefix(events);
    RunKeepsIntegrityInv(events, |events|);
    NoneSweptInRun(events, |events|);
    WholeActivationStep(s, e);
  }

  lemma WholeActivationStep(s: State, e: Event)
    requires IntegrityInv(s) && NoneSwept(s) && Enabled(s, e) && Flips(s, e)
    ensures var (w, t) := (s.workers[e.id], Step(s, e));
      && Active(t) == Some(w.generation)
      && Exactly(t.db.chunks, w.generation, w.plan.drafts)
      && t.db.row.chunkCount == |w.plan.drafts|
  {
    var w := s.workers[e.id];
    assert WorkerBelongs(s, w) && WorkerStaged(s.db.chunks, w);
    FlipWrites(s, e);
    hide Step, IntegrityInv, Enabled, Exactly;
  }

  lemma ScheduleExcludesDisturbance(events: seq<Event>, n: nat)
    requires Valid(INIT, events) && DisciplinedRun(events) && n < |events|
    requires AtomicActivations(events) && PromptSweeps(events) && NoLostSweep(events)
    ensures !Disturbs(Prefix(events, n), events[n])
  {
    hide Exec, Valid, AtomicActivations, PromptSweeps, NoLostSweep, StagedInv, DisciplinedRun, FenceInv, Step;
    NoneSweptInRun(events, n);
    SweepersActiveInRun(events, n);
    NotRedeliveredInRun(events, n);
    RunKeepsIntegrityInv(events, n);
    NothingDisturbs(Prefix(events, n), events[n]);
  }

  lemma NothingDisturbs(s: State, e: Event)
    requires NoneSwept(s) && SweepersActive(s) && NotRedelivered(s) && BuiltUpTo(s)
    ensures !Disturbs(s, e)
  {
    hide RowAfter, ChunksAfter, WorkerAfter, InsertSucceeds;
  }

  /**
   When no sweep falls into an activation transaction, no activation overtakes a sweep and
   no worker is lost before its sweep, the active generation is stored exactly as staged in
   every state of the run.
   */
  lemma ScheduledRunKeepsIntegrity(events: seq<Event>, s: State)
    requires AtomicRun(events, s) && PromptSweeps(events) && NoLostSweep(events)
    ensures Integrity(s)
  {
    hide Exec, Valid, DisciplinedRun, AtomicActivations, PromptSweeps, NoLostSweep, Disturbs, Integrity;
    forall m | 0 <= m < |events| ensures !Disturbs(Prefix(events, m), events[m]) {
      ScheduleExcludesDisturbance(events, m);
    }
    UndisturbedUpTo(events, |events|);
    LastPrefix(events);
  }
}
