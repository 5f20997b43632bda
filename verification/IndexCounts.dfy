/**
 The chunk count on a READY row. It is the size of the active generation when the row
 became READY by an activation, and 0 when it became READY through the unchanged
 shortcut; nothing else makes a row READY, and nothing writes the count while it is.
 */
module IndexCounts {
  import opened Common
  import opened IndexStore
  import opened IndexProtocol
  import opened IndexFencing
  import opened IndexClaims
  import opened IndexIntegrity
  import opened IndexProvenance

  /** A job that holds the current generation keeps the row from being READY. */
  ghost predicate BusyNotReady(s: State) {
    forall i :: i in s.workers && Holding(s.workers[i]) && Current(s.db.row, s.workers[i].generation) ==>
      s.db.row.status != Ready
  }

  /** The count is the number of chunks the active generation was built from. */
  ghost predicate CountRight(s: State) {
    Active(s).Some? && Active(s).value in s.built && s.db.row.chunkCount == |s.built[Active(s).value].drafts|
  }

  ghost predicate ReadyCounted(s: State) {
    s.db.row.status == Ready ==> Active(s).Some? && (s.db.row.chunkCount == 0 || CountRight(s))
  }

  ghost predicate CountInv(s: State) { BusyNotReady(s) && ReadyCounted(s) }

  /** The write that completes the unchanged shortcut. */
  predicate CompletesUnchanged(s: State, e: Event) {
    && e.Work? && Enabled(s, e) && e.input.Proceed? && s.workers[e.id].pc == WriteUnchanged
    && UnchangedApplies(s.db.row, s.workers[e.id].context)
  }

  /** What a worker's statement can do to status and count, apart from the two that make the row READY. */
  lemma StatusAndCount(row: Row, w: Worker, input: Input)
    requires Accepts(w, input) && (w.pc != LoadRow ==> w.context.generation == w.generation)
    requires !(w.pc == Flip && input.Proceed? && Current(row, w.generation))
    requires !(w.pc == WriteUnchanged && input.Proceed? && UnchangedApplies(row, w.context))
    ensures var row' := RowAfter(row, w, input);
      && (row'.status == Ready ==> row.status == Ready)
      && (row'.status == Ready && row' != row ==> Holding(w) && Current(row, w.generation))
  {
  }

  /** A worker that holds its generation after a statement has left the row not READY, or found it so. */
  lemma HolderStatus(db: Db, w: Worker, input: Input)
    requires Accepts(w, input) && (w.pc != LoadRow ==> w.context.generation == w.generation)
    requires Holding(WorkerAfter(db, w, input)) && RowAfter(db.row, w, input).status == Ready
    requires Current(RowAfter(db.row, w, input), w.generation)
    ensures Holding(w) && Current(db.row, w.generation) && db.row.status == Ready
  {
  }

  lemma WorkKeepsBusyNotReady(s: State, e: Event)
    requires FenceInv(s) && OneJob(s) && BusyNotReady(s) && Enabled(s, e) && e.Work?
    ensures BusyNotReady(Step(s, e))
  {
    var w, t := s.workers[e.id], Step(s, e);
    assert WorkerBelongs(s, w);
    WorkShape(s, e);
    PcFrame(s.db, w, e.input);
    RowFrame(s.db.row, w, e.input);
    hide Step, WorkersAfter, RowAfter, ChunksAfter, WorkerAfter, Accepts, FenceInv;
    forall i | i in t.workers && Holding(t.workers[i]) && Current(t.db.row, t.workers[i].generation)
      ensures t.db.row.status != Ready
    {
      if i != e.id {
        assert SameButMark(t.workers[i], s.workers[i]);
        assert Live(s.workers[i]) && s.workers[i].generation != w.generation;
      } else if t.db.row.status == Ready {
        HolderStatus(s.db, w, e.input);
      }
    }
  }

  lemma FlipCounts(s: State, e: Event)
    requires Enabled(s, e) && Flips(s, e) && WorkerBelongs(s, s.workers[e.id])
    ensures var (w, t) := (s.workers[e.id], Step(s, e));
      t.db.row.status == Ready && CountRight(t) && t.db.row.chunkCount == |w.plan.drafts|
  {
    hide WorkersAfter, WorkerAfter, ChunksAfter;
  }

  lemma ShortcutCounts(s: State, e: Event)
    requires Enabled(s, e) && CompletesUnchanged(s, e) && WorkerBelongs(s, s.workers[e.id])
    requires WorkerProvenance(s.built, s.db.row, s.workers[e.id])
    ensures var t := Step(s, e);
      && t.db.row.status == Ready && t.db.row.chunkCount == 0 && Active(t) == Active(s) && Active(t).Some?
      && t.built == s.built
  {
    var w := s.workers[e.id];
    assert !Flips(s, e) && TakesShortcut(w) && CountReset(s.db.row, w);
    WorkShape(s, e);
    hide Step, WorkersAfter, WorkerAfter, ChunksAfter;
  }

  lemma OtherWorkCounts(s: State, e: Event)
    requires FenceInv(s) && BusyNotReady(s) && Enabled(s, e) && e.Work?
    requires !Flips(s, e) && !CompletesUnchanged(s, e) && Step(s, e).db.row.status == Ready
    ensures var t := Step(s, e);
      s.db.row.status == Ready && t.db.row == s.db.row && t.built == s.built
  {
    var w := s.workers[e.id];
    assert WorkerBelongs(s, w);
    WorkShape(s, e);
    StatusAndCount(s.db.row, w, e.input);
    hide Step, WorkersAfter, WorkerAfter, RowAfter, ChunksAfter, FenceInv;
  }

  lemma OtherEventsKeepCount(s: State, e: Event)
    requires FenceInv(s) && CountInv(s) && Enabled(s, e) && !e.Work?
    ensures CountInv(Step(s, e))
    ensures Step(s, e).db.row.status == Ready ==>
      s.db.row.status == Ready && (CountRight(Step(s, e)) <==> CountRight(s))
  {
    hide WorkersAfter, WorkerAfter, RowAfter, ChunksAfter;
    var t := Step(s, e);
    forall i | i in t.workers && Holding(t.workers[i]) && Current(t.db.row, t.workers[i].generation)
      ensures t.db.row.status != Ready
    {
      assert i in s.workers && t.workers[i] == s.workers[i] && WorkerBelongs(s, s.workers[i]);
    }
  }

  lemma StepKeepsCount(s: State, e: Event)
    requires JobInv(s) && ProvenanceInv(s) && CountInv(s) && Enabled(s, e)
    ensures CountInv(Step(s, e))
  {
    hide Step, Enabled, OneJob, BuiltUpTo, OutOfQueue, Snapshots, RowProvenance, Flips, CountRight;
    if !e.Work? {
      OtherEventsKeepCount(s, e);
    } else {
      WorkKeepsBusyNotReady(s, e);
      ReadyByWork(s, e);
    }
  }

  lemma ReadyByWork(s: State, e: Event)
    requires FenceInv(s) && ProvenanceInv(s) && CountInv(s) && Enabled(s, e) && e.Work?
    ensures ReadyCounted(Step(s, e))
  {
    assert WorkerBelongs(s, s.workers[e.id]) && WorkerProvenance(s.built, s.db.row, s.workers[e.id]);
    if Flips(s, e) {
      FlipCounts(s, e);
    } else if CompletesUnchanged(s, e) {
      ShortcutCounts(s, e);
    } else if Step(s, e).db.row.status == Ready {
      OtherWorkCounts(s, e);
    }
    hide Step, WorkersAfter, WorkerAfter, RowAfter, ChunksAfter;
  }

  lemma InitCount()
    ensures CountInv(INIT)
  {
  }

  lemma {:induction false} RunKeepsCount(events: seq<Event>, n: nat)
    requires RunOf(events) && n <= |events|
    ensures CountInv(Prefix(events, n))
    decreases n
  {
    hide Step, Enabled, CountInv, IntegrityInv, ProvenanceInv;
    InitCount();
    if n > 0 {
      RunKeepsCount(events, n - 1);
      RunKeepsProvenance(events, n - 1);
      PrefixStep(events, n - 1);
      JobsOf(Prefix(events, n - 1));
      StepKeepsCount(Prefix(events, n - 1), events[n - 1]);
    }
  }

  lemma JobsOf(s: State)
    requires IntegrityInv(s)
    ensures JobInv(s) && BuildsNonEmpty(s)
  {
  }

  lemma ReachableCount(s: State)
    requires Reachable(s)
    ensures CountInv(s) && IntegrityInv(s) && ProvenanceInv(s)
  {
    hide Exec, Valid, DisciplinedRun, CountInv, IntegrityInv, ProvenanceInv;
    var events :| RunOf(events) && Exec(INIT, events) == s;
    RunKeepsCount(events, |events|);
    LastPrefix(events);
    ReachableProvenance(s);
  }

  /** On every reachable READY row the count is right or 0, and it is never both. */
  lemma ReadyCountRightOrZero(s: State)
    requires Reachable(s) && s.db.row.status == Ready
    ensures Active(s).Some? && Active(s).value in s.built
    ensures s.db.row.chunkCount == 0 || s.db.row.chunkCount == |s.built[Active(s).value].drafts|
    ensures 0 < |s.built[Active(s).value].drafts|
  {
    hide Reachable;
    ReachableCount(s);
  }

  /**
   Which step decides it: a statement that changes the row and leaves it READY leaves the
   count right if it is an activation and 0 if it completes the shortcut, and it is one of
   the two; every other event that leaves the row READY leaves the count as it was.
   */
  lemma ReadyCountExactly(s: State, e: Event)
    requires Reachable(s) && Enabled(s, e) && Step(s, e).db.row.status == Ready
    ensures e.Work? && Step(s, e).db.row != s.db.row ==>
      && (CountRight(Step(s, e)) <==> Flips(s, e))
      && (Step(s, e).db.row.chunkCount == 0 <==> CompletesUnchanged(s, e))
    ensures !(e.Work? && Step(s, e).db.row != s.db.row) ==>
      s.db.row.status == Ready && (CountRight(Step(s, e)) <==> CountRight(s))
  {
    hide Reachable, WorkersAfter, WorkerAfter, RowAfter, ChunksAfter;
    ReachableCount(s);
    if !e.Work? {
      OtherEventsKeepCount(s, e);
    } else {
      ReadyStep(s, e);
    }
  }

  lemma ReadyStep(s: State, e: Event)
    requires IntegrityInv(s) && ProvenanceInv(s) && CountInv(s)
    requires Enabled(s, e) && e.Work? && Step(s, e).db.row.status == Ready
    ensures Flips(s, e) ==> CountRight(Step(s, e)) && Step(s, e).db.row.chunkCount > 0
    ensures CompletesUnchanged(s, e) ==> Step(s, e).db.row.chunkCount == 0 && !CountRight(Step(s, e))
    ensures !Flips(s, e) && !CompletesUnchanged(s, e) ==>
      Step(s, e).db.row == s.db.row && (CountRight(Step(s, e)) <==> CountRight(s))
  {
    hide Step, WorkersAfter, WorkerAfter, RowAfter, ChunksAfter;
    assert WorkerBelongs(s, s.workers[e.id]) && WorkerProvenance(s.built, s.db.row, s.workers[e.id]);
    if Flips(s, e) {
      FlipCounts(s, e);
      ActivationExactly(s.db.row, s.workers[e.id], e.input);
      FlipNonEmpty(s, e);
    } else if CompletesUnchanged(s, e) {
      ShortcutCounts(s, e);
    } else {
      OtherWorkCounts(s, e);
    }
  }

  lemma FlipNonEmpty(s: State, e: Event)
    requires IntegrityInv(s) && Enabled(s, e) && Flips(s, e)
    ensures 0 < |s.workers[e.id].plan.drafts|
  {
    assert WorkerStaged(s.db.chunks, s.workers[e.id]);
  }
}
