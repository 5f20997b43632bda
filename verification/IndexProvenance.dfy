/**
 What the branch-index row says about the active generation: the commit and the embedding
 configuration on the row are those the active generation was built from, through the
 unchanged shortcut too, which trusts a snapshot taken before the claim.
 */
module IndexProvenance {
  import opened Common
  import opened IndexStore
  import opened IndexProtocol
  import opened IndexFencing
  import opened IndexIntegrity

  ghost predicate RowProvenance(s: State) {
    Active(s).Some? && Active(s).value in s.built ==>
      var b := s.built[Active(s).value];
      && s.db.row.commitSha == Some(b.commitSha)
      && s.db.row.embeddingFingerprint == Some(b.fingerprint)
      && s.db.row.embeddingDimension == Some(b.fingerprint.dimension)
  }

  ghost predicate ContextFrom(built: map<nat, Build>, context: Context) {
    context.activeGeneration.Some? ==>
      && context.activeGeneration.value in built
      && context.commitSha == Some(built[context.activeGeneration.value].commitSha)
      && context.indexedFingerprint == Some(built[context.activeGeneration.value].fingerprint)
  }

  predicate ShortcutPc(pc: Pc) { pc.CheckUnchanged? || pc.WriteUnchanged? }

  /** Between the first report and the shortcut's write nobody else writes this generation's count. */
  predicate CountReset(row: Row, w: Worker) {
    Current(row, w.generation) && (w.pc.FetchHead? || w.pc.ConfirmHead? || ShortcutPc(w.pc)) ==>
      row.chunkCount == 0
  }

  ghost predicate WorkerProvenance(built: map<nat, Build>, row: Row, w: Worker) {
    && (Live(w) && w.pc != LoadRow && w.pc != Sweep ==> ContextFrom(built, w.context))
    && (ShortcutPc(w.pc) ==> TakesShortcut(w))
    && CountReset(row, w)
  }

  ghost predicate ProvenanceInv(s: State) {
    RowProvenance(s) && forall i :: i in s.workers ==> WorkerProvenance(s.built, s.db.row, s.workers[i])
  }

  /** The row's identification of its build changes only with an activation or through the shortcut. */
  lemma RowIdentity(row: Row, w: Worker, input: Input)
    ensures var row' := RowAfter(row, w, input);
      (row'.commitSha, row'.embeddingFingerprint, row'.embeddingDimension)
        != (row.commitSha, row.embeddingFingerprint, row.embeddingDimension) ==>
      && !input.Fault?
      && ((w.pc == Flip && Current(row, w.context.generation))
          || (w.pc == WriteUnchanged && UnchangedApplies(row, w.context)))
  {
  }

  lemma AfterSweep(db: Db, w: Worker, input: Input)
    requires Accepts(w, input) && w.pc == Sweep
    ensures !Live(WorkerAfter(db, w, input))
  {
  }

  lemma ShortcutFrame(db: Db, w: Worker, input: Input)
    requires Accepts(w, input) && (ShortcutPc(w.pc) ==> TakesShortcut(w))
    ensures ShortcutPc(WorkerAfter(db, w, input).pc) ==> TakesShortcut(WorkerAfter(db, w, input))
  {
  }

  lemma CountFrame(db: Db, w: Worker, input: Input)
    requires Accepts(w, input) && CountReset(db.row, w)
    ensures CountReset(RowAfter(db.row, w, input), WorkerAfter(db, w, input))
  {
  }

  /** The two statements that change the row's identification write that of one build. */
  lemma IdentifyingWrites(row: Row, w: Worker)
    ensures w.pc == Flip ==> RowAfter(row, w, Proceed) == ActivateRow(row, w.context, w.plan.head, |w.plan.drafts|)
    ensures w.pc == WriteUnchanged ==>
      RowAfter(row, w, Proceed) == CompleteUnchangedRow(row, w.context, w.plan.head)
  {
  }

  lemma FaultOrProceed(w: Worker, input: Input)
    requires Accepts(w, input) && (w.pc == Flip || w.pc == WriteUnchanged)
    ensures input == Proceed || input.Fault?
  {
  }

  lemma WorkKeepsRowProvenance(s: State, e: Event)
    requires JobInv(s) && ProvenanceInv(s) && Enabled(s, e) && e.Work?
    ensures RowProvenance(Step(s, e))
  {
    hide Step, WorkersAfter, RowAfter, ChunksAfter, WorkerAfter, Sweeps, Accepts;
    var w := s.workers[e.id];
    assert WorkerBelongs(s, w) && WorkerProvenance(s.built, s.db.row, w);
    WorkShape(s, e);
    ActivationExactly(s.db.row, w, e.input);
    RowIdentity(s.db.row, w, e.input);
    IdentifyingWrites(s.db.row, w);
    if w.pc == Flip || w.pc == WriteUnchanged {
      FaultOrProceed(w, e.input);
      assert w.pc == WriteUnchanged ==> TakesShortcut(w) && ContextFrom(s.built, w.context);
    } else {
      hide WorkerProvenance;
    }
  }

  /** The worker's own statement, on the data it works on. */
  lemma OwnStatementKeepsProvenance(db: Db, built: map<nat, Build>, w: Worker, input: Input)
    requires Accepts(w, input) && WorkerProvenance(built, db.row, w)
    requires ContextFrom(built, ContextOf(db.row, w.generation, w.context.fingerprint))
    ensures WorkerProvenance(built, RowAfter(db.row, w, input), WorkerAfter(db, w, input))
  {
    if w.pc == Sweep { AfterSweep(db, w, input); }
    ContextFrame(db, w, input);
    ShortcutFrame(db, w, input);
    CountFrame(db, w, input);
    hide WorkerAfter, RowAfter, Accepts, CountReset, TakesShortcut;
  }

  /** A step changes at most what the stepping worker's generation was built from, and only by activating it. */
  lemma BuildsStay(s: State, e: Event)
    requires Enabled(s, e) && e.Work?
    ensures forall g :: g in s.built ==> g in Step(s, e).built
    ensures forall g :: g in s.built && (g != s.workers[e.id].generation || !Flips(s, e)) ==>
      Step(s, e).built[g] == s.built[g]
  {
    WorkShape(s, e);
    hide Step, WorkersAfter, WorkerAfter, RowAfter, ChunksAfter;
  }

  /** A row changed at most by another generation's job keeps this worker's facts. */
  lemma ForeignWriteKeepsProvenance(built: map<nat, Build>, row: Row, v: Worker,
                                    built': map<nat, Build>, row': Row, v': Worker, generation: nat)
    requires WorkerProvenance(built, row, v) && SameButMark(v', v)
    requires Live(v) ==> v.generation != generation
    requires Live(v) && v.pc != LoadRow && v.pc != Sweep && v.context.activeGeneration.Some? ==>
      var a := v.context.activeGeneration.value; a in built ==> a in built' && built'[a] == built[a]
    requires row'.requestedGeneration == row.requestedGeneration && row'.deleted == row.deleted
    requires !Current(row, generation) ==> row' == row
    ensures WorkerProvenance(built', row', v')
  {
  }

  lemma BuildsOnlyGrow(built: map<nat, Build>, built': map<nat, Build>, row: Row, w: Worker)
    requires WorkerProvenance(built, row, w)
    requires w.pc == Sweep || forall g :: g in built ==> g in built' && built'[g] == built[g]
    ensures WorkerProvenance(built', row, w)
  {
  }

  lemma OwnWorkKeepsProvenance(s: State, e: Event)
    requires Enabled(s, e) && e.Work?
    requires WorkerProvenance(s.built, s.db.row, s.workers[e.id])
    requires ContextFrom(s.built, ContextOf(s.db.row, s.workers[e.id].generation, s.workers[e.id].context.fingerprint))
    ensures WorkerProvenance(Step(s, e).built, Step(s, e).db.row, Step(s, e).workers[e.id])
  {
    var w, t := s.workers[e.id], Step(s, e);
    WorkShape(s, e);
    BuildsStay(s, e);
    PcFrame(s.db, w, e.input);
    OwnStatementKeepsProvenance(s.db, s.built, w, e.input);
    assert Flips(s, e) ==> t.workers[e.id].pc == Sweep;
    hide Step, WorkersAfter, WorkerAfter, RowAfter, ChunksAfter, WorkerProvenance, ContextFrom;
    BuildsOnlyGrow(s.built, t.built, t.db.row, t.workers[e.id]);
  }

  /** No other worker holds a snapshot of the generation that is being activated: it would be of that generation. */
  lemma SnapshotsOfOthers(s: State, e: Event, i: nat)
    requires Enabled(s, e) && e.Work? && Flips(s, e) && i in s.workers && i != e.id
    requires FenceInv(s) && OneJob(s) && KnowsBuild(s.built, s.workers[i])
    requires Live(s.workers[i]) && s.workers[i].pc != LoadRow && s.workers[i].pc != Sweep
    ensures s.workers[i].context.activeGeneration != Some(s.workers[e.id].generation)
  {
    assert WorkerBelongs(s, s.workers[i]);
  }

  lemma OtherWorkKeepsProvenance(s: State, e: Event, i: nat)
    requires JobInv(s) && Enabled(s, e) && e.Work? && i in s.workers && i != e.id
    requires WorkerProvenance(s.built, s.db.row, s.workers[i])
    ensures WorkerProvenance(Step(s, e).built, Step(s, e).db.row, Step(s, e).workers[i])
  {
    hide Step, WorkersAfter, WorkerAfter, RowAfter, ChunksAfter, Sweeps;
    var w, v, t := s.workers[e.id], s.workers[i], Step(s, e);
    assert Live(w) && (Live(v) ==> v.generation != w.generation);
    assert WorkerBelongs(s, w) && KnowsBuild(s.built, v);
    WorkShape(s, e);
    BuildsStay(s, e);
    RowFrame(s.db.row, w, e.input);
    if Flips(s, e) && Live(v) && v.pc != LoadRow && v.pc != Sweep { SnapshotsOfOthers(s, e, i); }
    hide JobInv, WorkerProvenance, Accepts, Current, KnowsBuild;
    ForeignWriteKeepsProvenance(s.built, s.db.row, v, t.built, t.db.row, t.workers[i], w.generation);
  }

  lemma StepKeepsProvenance(s: State, e: Event)
    requires JobInv(s) && ProvenanceInv(s) && Enabled(s, e) && Disciplined(s, e)
    ensures ProvenanceInv(Step(s, e))
  {
    hide WorkersAfter, WorkerAfter, RowAfter, ChunksAfter;
    if e.Work? {
      WorkKeepsRowProvenance(s, e);
      WorkShape(s, e);
      forall i | i in s.workers
        ensures WorkerProvenance(Step(s, e).built, Step(s, e).db.row, Step(s, e).workers[i])
      {
        if i == e.id { OwnWorkKeepsProvenance(s, e); } else { OtherWorkKeepsProvenance(s, e, i); }
      }
    } else {
      OtherKeepsProvenance(s, e);
    }
  }

  lemma OtherKeepsProvenance(s: State, e: Event)
    requires JobInv(s) && ProvenanceInv(s) && Enabled(s, e) && Disciplined(s, e) && !e.Work?
    ensures ProvenanceInv(Step(s, e))
  {
    var t := Step(s, e);
    assert t.built == s.built && Active(t) == Active(s) && t.db.row.chunkCount == s.db.row.chunkCount;
    forall i | i in t.workers ensures WorkerProvenance(t.built, t.db.row, t.workers[i]) {
      assert i in s.workers ==> WorkerProvenance(s.built, s.db.row, s.workers[i]) && WorkerBelongs(s, s.workers[i]);
    }
  }

  lemma {:induction false} RunKeepsProvenance(events: seq<Event>, n: nat)
    requires Valid(INIT, events) && DisciplinedRun(events) && n <= |events|
    ensures IntegrityInv(Prefix(events, n)) && ProvenanceInv(Prefix(events, n))
    decreases n
  {
    hide Step, Enabled;
    RunKeepsIntegrityInv(events, n);
    if n > 0 {
      RunKeepsProvenance(events, n - 1);
      PrefixStep(events, n - 1);
      StepKeepsProvenance(Prefix(events, n - 1), events[n - 1]);
    }
  }

  /**
   In every state of every disciplined run the row names the commit and the embedding
   configuration from which the active generation was built.
   */
  lemma RowNamesActiveBuild(s: State)
    requires Reachable(s) && Active(s).Some?
    ensures Active(s).value in s.built
    ensures s.db.row.commitSha == Some(s.built[Active(s).value].commitSha)
    ensures s.db.row.embeddingFingerprint == Some(s.built[Active(s).value].fingerprint)
    ensures s.db.row.embeddingDimension == Some(s.built[Active(s).value].fingerprint.dimension)
  {
    ReachableProvenance(s);
  }

  lemma ReachableProvenance(s: State)
    requires Reachable(s)
    ensures IntegrityInv(s) && ProvenanceInv(s)
  {
    hide Exec, Valid, DisciplinedRun, IntegrityInv, ProvenanceInv;
    var events :| RunOf(events) && Exec(INIT, events) == s;
    RunKeepsProvenance(events, |events|);
    LastPrefix(events);
  }
}
