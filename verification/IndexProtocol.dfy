/**
 The index job as a state machine: any number of workers run IndexingService.process
 against one branch index, and every database statement is one step. Between two
 statements of a worker any other worker, a new request, a row delete or a credential
 change may take its step. Inside an activation transaction the count, the credential
 read and the row update are separate steps too: the database runs them at its default
 READ COMMITTED level, where each statement sees its own snapshot.
 */
module IndexProtocol {
  import opened Common
  import opened CodeChunks
  import opened IndexStore

  /** The statement a worker issues next, in the order of IndexingService.process. */
  datatype Pc =
    | LoadRow
    | ReadEmbedding
    | WriteBlocked
    | ClaimIndex
    | ReportStart
    | FetchHead
    | ConfirmHead
    | CheckUnchanged
    | WriteUnchanged
    | ReportDownload
    | ConfirmDownload
    | ReportScan
    | ReportChunking
    | ConfirmPrepare
    | ClearGeneration
    | Stage
    | ConfirmInsert
    | InsertBatch
    | ReportSaving
    | ConfirmSaving
    | CountStored
    | CheckEmbedding
    | Flip
    | Sweep
    | Clean
    | MarkFailed
    | Finished(outcome: Outcome)

  datatype Outcome = WasReady | WasUnchanged | WasStale | Threw | Crashed

  /** What the job stages, and what its activation transaction has read. */
  datatype Plan = Plan(
    head: string,            // the branch head
    files: nat,              // number of source files in the archive
    drafts: seq<Chunk>,      // everything this job is going to stage
    saved: nat,              // how much of it has been inserted
    batch: nat,              // size of the insert being issued
    stored: nat,             // the count read by the activation transaction
    sweptSinceCount: bool    // history: a sweep of another generation landed since that count
  )

  /** The error a worker is handling: a StaleGenerationError, or another one. */
  datatype Problem = StaleProblem | OtherProblem(blocked: bool)

  datatype Worker = Worker(
    generation: nat,
    force: bool,
    pc: Pc,
    context: Context,        // meaningful once the row has been loaded
    plan: Plan,
    problem: Problem         // meaningful while cleaning up
  )

  /** History: what an activated generation was built from. */
  datatype Build = Build(commitSha: string, fingerprint: Fingerprint, drafts: seq<Chunk>)

  datatype Db = Db(row: Row, chunks: Table, credential: Option<Fingerprint>)

  datatype State = State(
    db: Db,
    workers: map<nat, Worker>,
    built: map<nat, Build>,
    announced: set<nat>,     // requested in the database, not yet handed to the queue
    enqueued: set<nat>,      // handed to the queue at some time
    queue: set<nat>          // waiting for a delivery: new, or handed back by a throw or a crash
  )

  /** What a step takes from outside the database. */
  datatype Input =
    | Proceed
    | Unhealthy
    | Head(sha: string)
    | Prepared(files: nat, drafts: seq<Chunk>)
    | Recheck
    | ReportEmbedding(progress: Progress)
    | TakeBatch(size: nat)
    | Done
    | Fault(blocked: bool)

  datatype Event =
    | Work(id: nat, input: Input)
    | Crash(id: nat)
    | Deliver(id: nat, generation: nat, force: bool)
    | Request(configured: bool)
    | Enqueue(generation: nat)
    | EnqueueFails(generation: nat)
    | DeleteRow
    | SetCredential(fingerprint: Fingerprint)
    | RemoveCredential

  // ----- one worker -----

  predicate Live(w: Worker) { !w.pc.Finished? }

  /** The worker holds a context: an error now leads to cleanup. */
  predicate Claimed(pc: Pc) {
    !(pc.LoadRow? || pc.ReadEmbedding? || pc.WriteBlocked? || pc.ClaimIndex? || pc.Sweep?
      || pc.Clean? || pc.MarkFailed? || pc.Finished?)
  }

  /** Which inputs a statement can meet. */
  predicate Accepts(w: Worker, input: Input) {
    match w.pc
    case Finished(_) => false
    case ReadEmbedding => input.Proceed? || input.Unhealthy? || input.Fault?
    case FetchHead => input.Head? || input.Fault?
    case ReportChunking => (input.Prepared? && input.files > 0) || input.Fault?
    case Stage =>
      || input.Recheck? || input.ReportEmbedding? || input.Fault?
      || (input.TakeBatch? && 0 < input.size <= |w.plan.drafts| - w.plan.saved)
      || (input.Done? && w.plan.saved == |w.plan.drafts|)
    case Clean =>
      // no statement is issued when the snapshot generation is this one
      input.Proceed? || (input.Fault? && w.context.activeGeneration != Some(w.generation))
    case _ => input.Proceed? || input.Fault?
  }

  function Finish(w: Worker, outcome: Outcome): Worker { w.(pc := Finished(outcome)) }

  function GoStale(w: Worker): Worker { w.(pc := Clean, problem := StaleProblem) }

  function GoWrong(w: Worker, blocked: bool): Worker { w.(pc := Clean, problem := OtherProblem(blocked)) }

  /** The shortcut for an unchanged branch head, decided on the snapshot taken before the claim. */
  predicate TakesShortcut(w: Worker) {
    && !w.force
    && w.context.activeGeneration.Some?
    && w.context.commitSha == Some(w.plan.head)
    && w.context.indexedFingerprint == Some(w.context.fingerprint)
  }

  function Batch(w: Worker): seq<Chunk>
    requires w.plan.saved + w.plan.batch <= |w.plan.drafts|
  {
    w.plan.drafts[w.plan.saved..w.plan.saved + w.plan.batch]
  }

  /** The progress report a statement writes, if it is one. */
  function ReportOf(w: Worker, input: Input): Option<Progress> {
    match w.pc
    case ReportStart => Some(Progress(Authenticating, 5.0, 0, None, 0))
    case ReportDownload => Some(Progress(Downloading, 10.0, 0, None, 0))
    case ReportScan => Some(Progress(Scanning, 25.0, 0, None, 0))
    case ReportChunking =>
      if input.Prepared? then Some(Progress(ChunkingFiles, 40.0, 0, Some(input.files), 0)) else None
    case Stage => if input.ReportEmbedding? then Some(input.progress) else None
    case ReportSaving => Some(Progress(Saving, 92.0, w.plan.files, Some(w.plan.files), |w.plan.drafts|))
    case _ => None
  }

  /** The branch-index row after the worker's next statement. */
  function RowAfter(row: Row, w: Worker, input: Input): Row {
    if input.Fault? then row
    else if ReportOf(w, input).Some? then ProgressRow(row, w.generation, ReportOf(w, input).value)
    else match w.pc
    case WriteBlocked => BlockRow(row, w.generation)
    case ClaimIndex => ClaimRow(row, w.generation)
    case WriteUnchanged => CompleteUnchangedRow(row, w.context, w.plan.head)
    case Flip => ActivateRow(row, w.context, w.plan.head, |w.plan.drafts|)
    case MarkFailed => FailRow(row, w.context, w.problem.OtherProblem? && w.problem.blocked)
    case _ => row
  }

  predicate InsertSucceeds(chunks: Table, w: Worker) {
    w.plan.saved + w.plan.batch <= |w.plan.drafts| && Insertable(chunks, w.generation, Batch(w))
  }

  /** The chunk rows after the worker's next statement. */
  function ChunksAfter(chunks: Table, w: Worker, input: Input): Table {
    if input.Fault? then chunks
    else match w.pc
    case ClearGeneration => DeleteGeneration(chunks, w.generation)
    case InsertBatch =>
      if InsertSucceeds(chunks, w) then InsertRows(chunks, w.generation, Batch(w)) else chunks
    case Sweep => KeepOnly(chunks, w.generation)
    case Clean =>
      if w.context.activeGeneration == Some(w.generation) then chunks
      else DeleteGeneration(chunks, w.generation)
    case _ => chunks
  }

  /** A statement, or an external call before it, failed without taking effect. */
  function WorkerAfterFault(w: Worker, blocked: bool): Worker {
    if Claimed(w.pc) then GoWrong(w, blocked)
    else if w.pc == Sweep then Finish(w, WasReady)
    else Finish(w, Threw)
  }

  /**
   The statements that end in StaleGenerationError unless the generation is current,
   each with the statement that follows.
   */
  function GuardedNext(w: Worker, input: Input): Option<Pc> {
    match w.pc
    case ReportStart => Some(FetchHead)
    case ConfirmHead => Some(if TakesShortcut(w) then CheckUnchanged else ReportDownload)
    case ReportDownload => Some(ConfirmDownload)
    case ConfirmDownload => Some(ReportScan)
    case ReportScan => Some(ReportChunking)
    case ReportChunking => Some(ConfirmPrepare)
    case ConfirmPrepare => Some(ClearGeneration)
    case Stage => if input.Recheck? || input.ReportEmbedding? then Some(Stage) else None
    case ConfirmInsert => Some(InsertBatch)
    case ReportSaving => Some(ConfirmSaving)
    case ConfirmSaving => Some(CountStored)
    case Flip => Some(Sweep)
    case _ => None
  }

  function WorkerAfterGuarded(db: Db, w: Worker, input: Input, next: Pc): Worker {
    if !Current(db.row, w.generation) then GoStale(w)
    else if input.Prepared? then w.(pc := next, plan := w.plan.(files := input.files, drafts := input.drafts))
    else w.(pc := next)
  }

  /** Where the worker is after its next statement, which saw the database as `db`. */
  function WorkerAfter(db: Db, w: Worker, input: Input): Worker
    requires Accepts(w, input)
  {
    if input.Fault? then WorkerAfterFault(w, input.blocked)
    else if GuardedNext(w, input).Some? then WorkerAfterGuarded(db, w, input, GuardedNext(w, input).value)
    else match w.pc
    case LoadRow =>
      if Current(db.row, w.generation)
      then w.(pc := ReadEmbedding, context := ContextOf(db.row, w.generation, w.context.fingerprint))
      else Finish(w, WasStale)
    case ReadEmbedding =>
      if input.Unhealthy? || db.credential.None? then w.(pc := WriteBlocked)
      else w.(pc := ClaimIndex, context := w.context.(fingerprint := db.credential.value))
    case ClaimIndex =>
      if Claimable(db.row, w.generation) then w.(pc := ReportStart) else Finish(w, WasStale)
    case FetchHead => w.(pc := ConfirmHead, plan := w.plan.(head := input.sha))
    case CheckUnchanged =>
      if CredentialMatches(db.credential, w.context) then w.(pc := WriteUnchanged) else GoStale(w)
    case WriteUnchanged =>
      if UnchangedApplies(db.row, w.context) then Finish(w, WasUnchanged) else GoStale(w)
    case ClearGeneration => w.(pc := Stage, plan := w.plan.(saved := 0))
    case Stage =>
      if input.TakeBatch? then w.(pc := ConfirmInsert, plan := w.plan.(batch := input.size))
      else if w.plan.drafts == [] then GoWrong(w, false)
      else w.(pc := ReportSaving)
    case InsertBatch =>
      if InsertSucceeds(db.chunks, w) then w.(pc := Stage, plan := w.plan.(saved := w.plan.saved + w.plan.batch))
      else GoWrong(w, false)
    case CountStored =>
      w.(pc := CheckEmbedding,
         plan := w.plan.(stored := StoredCount(db.chunks, w.generation), sweptSinceCount := false))
    case CheckEmbedding =>
      if w.plan.stored != |w.plan.drafts| then GoWrong(w, false)
      else if !CredentialMatches(db.credential, w.context) then GoStale(w)
      else w.(pc := Flip)
    case Sweep => Finish(w, WasReady)
    case Clean => if w.problem.StaleProblem? then Finish(w, WasStale) else w.(pc := MarkFailed)
    case _ => Finish(w, Threw)    // WriteBlocked and MarkFailed rethrow the error they handled
  }

  // ----- the whole system -----

  predicate Enabled(s: State, e: Event) {
    match e
    case Work(id, input) => id in s.workers && Accepts(s.workers[id], input)
    case Crash(id) => id in s.workers && Live(s.workers[id])
    case Deliver(id, generation, _) => id !in s.workers && generation in s.enqueued
    case Request(_) => true
    case Enqueue(generation) => generation in s.announced
    case EnqueueFails(generation) => generation in s.announced
    case DeleteRow => true
    case SetCredential(_) => true
    case RemoveCredential => s.db.credential.Some?
  }

  const NO_CONTEXT := Context(0, None, None, None, Fingerprint("", 0), 0)

  function NewWorker(generation: nat, force: bool): Worker {
    Worker(generation, force, LoadRow, NO_CONTEXT, Plan("", 0, [], 0, 0, 0, false), StaleProblem)
  }

  /** A sweep that succeeds: it deletes the rows of every other generation. */
  predicate Sweeps(s: State, e: Event) {
    e.Work? && Enabled(s, e) && s.workers[e.id].pc == Sweep && e.input.Proceed?
  }

  /** An activation that commits. */
  predicate Flips(s: State, e: Event) {
    e.Work? && Enabled(s, e) && s.workers[e.id].pc == Flip && e.input.Proceed?
    && Current(s.db.row, s.workers[e.id].generation)
  }

  function MarkSwept(w: Worker, sweeper: nat): Worker {
    if w.generation != sweeper then w.(plan := w.plan.(sweptSinceCount := true)) else w
  }

  function WorkersAfter(s: State, id: nat, input: Input): map<nat, Worker>
    requires Enabled(s, Work(id, input))
  {
    var w := s.workers[id];
    var workers :=
      if Sweeps(s, Work(id, input)) then map j | j in s.workers :: MarkSwept(s.workers[j], w.generation)
      else s.workers;
    workers[id := WorkerAfter(s.db, w, input)]
  }

  function RequestRow(row: Row, configured: bool): Row {
    row.(status := if configured then Pending else Blocked, stage := Queued, progressPercent := 0,
         filesProcessed := 0, totalFiles := None,
         requestedGeneration := row.requestedGeneration + 1, deleted := false)
  }

  function Step(s: State, e: Event): State
    requires Enabled(s, e)
  {
    match e
    case Work(id, input) =>
      var w := s.workers[id];
      s.(db := Db(RowAfter(s.db.row, w, input), ChunksAfter(s.db.chunks, w, input), s.db.credential),
         workers := WorkersAfter(s, id, input),
         built := if Flips(s, e) then s.built[w.generation := Build(w.plan.head, w.context.fingerprint, w.plan.drafts)]
                  else s.built,
         queue := if WorkerAfter(s.db, w, input).pc == Finished(Threw) then s.queue + {w.generation} else s.queue)
    case Crash(id) =>
      // the queue takes the job of a lost worker for stalled and hands it out again
      s.(workers := s.workers[id := Finish(s.workers[id], Crashed)], queue := s.queue + {s.workers[id].generation})
    case Deliver(id, generation, force) =>
      s.(workers := s.workers[id := NewWorker(generation, force)], queue := s.queue - {generation})
    case Request(configured) =>
      s.(db := s.db.(row := RequestRow(s.db.row, configured)),
         announced := if configured then s.announced + {s.db.row.requestedGeneration + 1} else s.announced)
    case Enqueue(generation) =>
      s.(announced := s.announced - {generation}, enqueued := s.enqueued + {generation},
         queue := s.queue + {generation})
    case EnqueueFails(generation) =>
      s.(announced := s.announced - {generation},
         db := s.db.(row := if Current(s.db.row, generation) then s.db.row.(status := Failed) else s.db.row))
    case DeleteRow => s.(db := s.db.(row := s.db.row.(deleted := true)))
    case SetCredential(fingerprint) => s.(db := s.db.(credential := Some(fingerprint)))
    case RemoveCredential =>
      s.(db := s.db.(credential := None,
         row := if s.db.row.deleted then s.db.row
                else s.db.row.(status := Blocked, stage := Queued, progressPercent := 0)))
  }

  /** Before the first request: no row (shown as a deleted one), no chunks, no jobs. */
  const INIT: State := State(
    Db(Row(Pending, Queued, 0, 0, None, 0, None, 0, None, None, None, true), map[], None),
    map[], map[], {}, {}, {})

  predicate Valid(s: State, events: seq<Event>)
    decreases |events|, 0
  {
    events == [] || (Valid(s, events[..|events| - 1])
                     && Enabled(Exec(s, events[..|events| - 1]), events[|events| - 1]))
  }

  /** The state after a run. */
  function Exec(s: State, events: seq<Event>): State
    requires Valid(s, events)
    decreases |events|, 1
  {
    if events == [] then s
    else Step(Exec(s, events[..|events| - 1]), events[|events| - 1])
  }
}
