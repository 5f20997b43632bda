/**
 The order of a job's statements, as runs show it: every statement that rewrites rows comes
 right after the check that belongs to it, and a job that fails leaves its generation open
 for the next delivery.
 */
module IndexOrder {
  import opened Common
  import opened CodeChunks
  import opened IndexStore
  import opened IndexProtocol
  import opened IndexFencing
  import opened IndexIntegrity
  import opened IndexAlone
  import opened IndexSchedule
  import opened IndexScenario
  import Pipeline = IndexingPipeline
  import Chunker

  // ----- checks before writes -----

  /** The check that has to come before a statement, for those that rewrite or count rows. */
  function CheckBefore(pc: Pc): Option<Pc> {
    match pc
    case ClearGeneration => Some(ConfirmPrepare)
    case InsertBatch => Some(ConfirmInsert)
    case CountStored => Some(ConfirmSaving)
    case Sweep => Some(Flip)
    case _ => None
  }

  /** The worker's last statement was this one, and it found the row not deleted and still asking for its generation. */
  ghost predicate LastChecked(events: seq<Event>, id: nat, check: Pc, n: nat)
    requires Valid(INIT, events)
  {
    && n < |events| && events[n].Work? && events[n].id == id
    && (forall m :: n < m < |events| ==> !(events[m].Work? && events[m].id == id))
    && var s := Prefix(events, n);
       && id in s.workers && s.workers[id].pc == check
       && s.db.row.requestedGeneration == s.workers[id].generation && !s.db.row.deleted
  }

  /** One statement: how a worker comes to stand before a checked one. */
  lemma ComesFromItsCheck(s: State, id: nat, input: Input)
    requires Enabled(s, Work(id, input))
    requires var pc := Step(s, Work(id, input)).workers[id].pc; CheckBefore(pc).Some?
    ensures var (w, pc) := (s.workers[id], Step(s, Work(id, input)).workers[id].pc);
      && w.pc == CheckBefore(pc).value
      && s.db.row.requestedGeneration == w.generation && !s.db.row.deleted
  {
    WorkShape(s, Work(id, input));
    NextOfCheck(s.db, s.workers[id], input);
    hide Step, WorkersAfter, WorkerAfter, RowAfter, ChunksAfter;
  }

  lemma NextOfCheck(db: Db, w: Worker, input: Input)
    requires Accepts(w, input) && CheckBefore(WorkerAfter(db, w, input).pc).Some?
    ensures w.pc == CheckBefore(WorkerAfter(db, w, input).pc).value
    ensures db.row.requestedGeneration == w.generation && !db.row.deleted
  {
  }

  lemma OthersLeavePc(s: State, e: Event, id: nat)
    requires Enabled(s, e) && id in Step(s, e).workers && !(e.Work? && e.id == id)
    ensures CheckBefore(Step(s, e).workers[id].pc).Some? ==>
      id in s.workers && s.workers[id].pc == Step(s, e).workers[id].pc
  {
    hide WorkerAfter, RowAfter, ChunksAfter;
    if e.Work? { WorkShape(s, e); }
  }

  /**
   In every run, with any deliveries, crashes and other workers: a worker about to clear,
   insert, count or sweep has, as its last statement, made the check that belongs to it,
   and the check succeeded.
   */
  lemma {:induction false} WritesFollowTheirCheck(events: seq<Event>, id: nat) returns (n: nat)
    requires Valid(INIT, events) && id in Exec(INIT, events).workers
    requires CheckBefore(Exec(INIT, events).workers[id].pc).Some?
    ensures LastChecked(events, id, CheckBefore(Exec(INIT, events).workers[id].pc).value, n)
    decreases |events|
  {
    hide Step, Accepts, CheckBefore;
    var front, e := events[..|events| - 1], events[|events| - 1];
    var s := Exec(INIT, front);
    LastStepOf(events);
    if e.Work? && e.id == id {
      ComesFromItsCheck(s, id, e.input);
      n := |front|;
    } else {
      OthersLeavePc(s, e, id);
      n := WritesFollowTheirCheck(front, id);
      PrefixOfFront(events, n);
      assert forall m :: n < m < |front| ==> events[m] == front[m];
    }
  }

  lemma LastStepOf(events: seq<Event>)
    requires Valid(INIT, events) && events != []
    ensures Prefix(events, |events| - 1) == Exec(INIT, events[..|events| - 1])
  {
  }

  lemma PrefixOfFront(events: seq<Event>, n: nat)
    requires Valid(INIT, events) && n < |events| - 1
    ensures Prefix(events[..|events| - 1], n) == Prefix(events, n)
  {
    assert events[..|events| - 1][..n] == events[..n];
  }

  // ----- reports -----

  /** The reports a worker writes before its first batch are those the staging run makes, in that order. */
  lemma OpeningReportsAgree(w: Worker, input: Input, total: nat)
    ensures var opening := Pipeline.Opening(total);
      && |opening| == 4
      && (w.pc == ReportStart ==> ReportOf(w, input) == Some(opening[0]))
      && (w.pc == ReportDownload ==> ReportOf(w, input) == Some(opening[1]))
      && (w.pc == ReportScan ==> ReportOf(w, input) == Some(opening[2]))
      && (w.pc == ReportChunking && input.Prepared? && input.files == total ==> ReportOf(w, input) == Some(opening[3]))
  {
  }

  /** And the last one is the last of the run. */
  lemma SavingReportAgrees(w: Worker, input: Input, files: seq<Pipeline.SourceFile>,
                           patterns: Chunker.Patterns, size: nat)
    requires size > 0 && w.pc == ReportSaving
    requires w.plan.files == |files| && |w.plan.drafts| == |Pipeline.AllDrafts(files, patterns)|
    ensures ReportOf(w, input).Some?
    ensures Pipeline.RunReports(files, patterns, size)
         == Pipeline.Opening(|files|) + Pipeline.FileReports(files, |files|, patterns, size)
            + [ReportOf(w, input).value]
  {
    hide Pipeline.FileReports, Pipeline.AllDrafts;
  }

  // ----- a failed job -----

  /** The failure write: what the row says afterwards, and that the generation waits for another delivery. */
  lemma FailureIsRecorded(s: State, id: nat)
    requires Enabled(s, Work(id, Proceed)) && s.workers[id].pc == MarkFailed
    requires s.workers[id].context.generation == s.workers[id].generation
    requires s.db.row.requestedGeneration == s.workers[id].generation && !s.db.row.deleted
    ensures var (w, t) := (s.workers[id], Step(s, Work(id, Proceed)));
      && t.db.row.status == (if w.problem == OtherProblem(true) then Blocked else Failed)
      && t.db.row.progressPercent == 0 && t.db.row.chunkCount == w.context.chunkCount
      && t.db.row.requestedGeneration == w.generation && !t.db.row.deleted
      && t.db.chunks == s.db.chunks && t.db.credential == s.db.credential
      && w.generation in t.queue && t.workers == s.workers[id := w.(pc := Finished(Threw))]
  {
  }

  /**
   A job that fails can be repeated: from every reachable state in which a worker is about
   to record its failure, the next delivery of the generation on its own makes exactly its
   drafts live.
   */
  lemma FailedJobRunsAgain(events: seq<Event>, s: State, id: nat, other: nat, sha: string, drafts: seq<Chunk>)
    returns (longer: seq<Event>, t: State)
    requires Ends(events, s) && id in s.workers && s.workers[id].pc == MarkFailed
    requires s.db.row.requestedGeneration == s.workers[id].generation && !s.db.row.deleted
    requires s.db.credential.Some? && other !in s.workers && Storable(s.workers[id].generation, drafts)
    ensures Ends(longer, t) && events <= longer
    ensures AloneAndWhole(t, other, s.workers[id].generation, sha, drafts)
  {
    hide Exec, Valid, DisciplinedRun, PromptSweeps, Storable, AloneAndWhole, LeftUnchanged, StagedInv, OnlyBy;
    var generation := s.workers[id].generation;
    InvariantsOf(false, events);
    assert WorkerBelongs(s, s.workers[id]);
    var failed := events + [Work(id, Proceed)];
    Append(false, events, Work(id, Proceed));
    FailureIsRecorded(s, id);
    hide Step, JobInv;
    var u := Exec(INIT, failed);
    DeliveredAgain(u, other, generation);
    Append(false, failed, Deliver(other, generation, true));
    var again := failed + [Deliver(other, generation, true)];
    longer, t := UndisturbedJobActivates(again, Exec(INIT, again), other, sha, drafts);
    OnlyByExtends(again, longer, other);
  }

  lemma OnlyByExtends(events: seq<Event>, longer: seq<Event>, id: nat)
    requires OnlyBy(events, longer, id)
    ensures events <= longer
  {
  }

  lemma DeliveredAgain(s: State, other: nat, generation: nat)
    requires other !in s.workers && generation in s.queue && generation in s.enqueued && s.db.credential.Some?
    requires s.db.row.requestedGeneration == generation && !s.db.row.deleted && s.db.row.status != Indexing
    ensures Enabled(s, Deliver(other, generation, true)) && Disciplined(s, Deliver(other, generation, true))
    ensures var t := Step(s, Deliver(other, generation, true));
      other in t.workers && Ready2Claim(CellOf(t, other)) && t.workers[other].generation == generation
      && t.workers[other].force
  {
  }
}
