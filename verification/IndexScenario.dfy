/**
 Runs built step by step: from any reachable state a claimable job on its own activates
 what it staged or takes the shortcut, and each of the three disturbances of integrity does
 occur.
 */
module IndexScenario {
  import opened Common
  import opened CodeChunks
  import opened IndexStore
  import opened IndexProtocol
  import opened IndexFencing
  import opened IndexIntegrity
  import opened IndexSchedule
  import opened IndexAlone

  /** A disciplined run; with `prompt`, one in which no activation overtakes a sweep. */
  ghost predicate Proper(events: seq<Event>, prompt: bool) {
    RunOf(events) && (prompt ==> PromptSweeps(events))
  }

  /** A disciplined run that ends in s. */
  ghost predicate Ends(events: seq<Event>, s: State) { RunOf(events) && Exec(INIT, events) == s }

  /** The longer run adds statements of one worker only, and none of them fails. */
  ghost predicate OnlyBy(events: seq<Event>, longer: seq<Event>, id: nat) {
    && events <= longer
    && forall n :: |events| <= n < |longer| ==> longer[n].Work? && longer[n].id == id && Sound(longer[n].input)
  }

  lemma OnlyByNothing(events: seq<Event>, id: nat)
    ensures OnlyBy(events, events, id)
  {
  }

  lemma OnlyByMore(events: seq<Event>, middle: seq<Event>, id: nat, input: Input)
    requires OnlyBy(events, middle, id) && Sound(input)
    ensures OnlyBy(events, middle + [Work(id, input)], id)
  {
  }

  lemma OnlyByTransitive(events: seq<Event>, middle: seq<Event>, longer: seq<Event>, id: nat)
    requires OnlyBy(events, middle, id) && OnlyBy(middle, longer, id)
    ensures OnlyBy(events, longer, id)
  {
  }

  lemma Append(prompt: bool, events: seq<Event>, e: Event)
    requires Proper(events, prompt) && Enabled(Exec(INIT, events), e)
    requires Disciplined(Exec(INIT, events), e) && (prompt ==> NotOvertaking(Exec(INIT, events), e))
    ensures Proper(events + [e], prompt)
    ensures Exec(INIT, events + [e]) == Step(Exec(INIT, events), e)
  {
    hide Step, Enabled, Disciplined, NotOvertaking, Valid, Exec, Prefix;
    var longer := events + [e];
    ExecMore(events, e);
    forall n | 0 <= n < |longer|
      ensures Disciplined(Prefix(longer, n), longer[n])
      ensures prompt ==> NotOvertaking(Prefix(longer, n), longer[n])
    {
      PrefixMore(events, e, n);
    }
  }

  lemma ExecMore(events: seq<Event>, e: Event)
    requires Valid(INIT, events) && Enabled(Exec(INIT, events), e)
    ensures Valid(INIT, events + [e]) && Exec(INIT, events + [e]) == Step(Exec(INIT, events), e)
  {
    hide Step, Enabled;
    assert (events + [e])[..|events|] == events;
  }

  lemma PrefixMore(events: seq<Event>, e: Event, n: nat)
    requires Valid(INIT, events) && Valid(INIT, events + [e]) && n <= |events|
    ensures Prefix(events + [e], n) == Prefix(events, n) && (n == |events| ==> Prefix(events, n) == Exec(INIT, events))
  {
    hide Exec, Valid;
    assert (events + [e])[..n] == events[..n];
    assert n == |events| ==> events[..n] == events;
  }

  /** The system apart from one worker and the database is as before. */
  predicate OthersSame(s: State, t: State, id: nat) {
    && t.workers.Keys == s.workers.Keys + {id}
    && (forall i :: i in s.workers && i != id ==> t.workers[i] == s.workers[i])
    && t.enqueued == s.enqueued && t.announced == s.announced && t.queue == s.queue
    && t.built == s.built
    && t.db.credential == s.db.credential
    && t.db.row.requestedGeneration == s.db.row.requestedGeneration
    && t.db.row.deleted == s.db.row.deleted
    && t.db.row.activeGeneration == s.db.row.activeGeneration
  }

  lemma InvariantsOf(prompt: bool, events: seq<Event>)
    requires Proper(events, prompt)
    ensures IntegrityInv(Exec(INIT, events))
  {
    assert events[..|events|] == events;
    RunKeepsIntegrityInv(events, |events|);
  }

  function CellOf(s: State, id: nat): Cell
    requires id in s.workers
  {
    Cell(s.db, s.workers[id])
  }

  lemma QuietAllowed(s: State, id: nat, input: Input)
    requires id in s.workers && Quiet(CellOf(s, id), input)
    ensures Enabled(s, Work(id, input)) && !Sweeps(s, Work(id, input)) && !Flips(s, Work(id, input))
    ensures Disciplined(s, Work(id, input)) && NotOvertaking(s, Work(id, input))
  {
    hide WorkerAfter, Accepts;
  }

  lemma QuietShape(s: State, id: nat, input: Input)
    requires Enabled(s, Work(id, input)) && !Sweeps(s, Work(id, input)) && !Flips(s, Work(id, input))
    requires WorkerAfter(s.db, s.workers[id], input).pc != Finished(Threw)
    ensures Step(s, Work(id, input)) ==
      s.(db := Db(RowAfter(s.db.row, s.workers[id], input), ChunksAfter(s.db.chunks, s.workers[id], input),
                  s.db.credential),
         workers := s.workers[id := WorkerAfter(s.db, s.workers[id], input)])
  {
    hide WorkerAfter, RowAfter, ChunksAfter, Accepts, Sweeps, Flips;
  }

  lemma QuietStep(s: State, id: nat, input: Input)
    requires id in s.workers && WorkerBelongs(s, s.workers[id]) && Quiet(CellOf(s, id), input)
    ensures Enabled(s, Work(id, input))
    ensures Disciplined(s, Work(id, input)) && NotOvertaking(s, Work(id, input))
    ensures OthersSame(s, Step(s, Work(id, input)), id)
    ensures CellOf(Step(s, Work(id, input)), id) == Next(CellOf(s, id), input)
  {
    QuietAllowed(s, id, input);
    hide Step, Enabled, Disciplined, NotOvertaking, Sweeps, Flips, WorkerAfter, RowAfter, ChunksAfter, Accepts;
    QuietShape(s, id, input);
    RowFrame(s.db.row, s.workers[id], input);
  }

  /** A quiet run of one worker is a proper continuation of any proper run. */
  lemma {:induction false} RunsQuietly(prompt: bool, events: seq<Event>, id: nat, inputs: seq<Input>)
    returns (longer: seq<Event>)
    requires Proper(events, prompt) && id in Exec(INIT, events).workers
    requires QuietRun(CellOf(Exec(INIT, events), id), inputs)
    ensures Proper(longer, prompt) && OthersSame(Exec(INIT, events), Exec(INIT, longer), id)
    ensures OnlyBy(events, longer, id)
    ensures CellOf(Exec(INIT, longer), id) == After(CellOf(Exec(INIT, events), id), inputs)
    decreases |inputs|
  {
    hide OnlyBy;
    OnlyByNothing(events, id);
    if inputs == [] {
      longer := events;
    } else {
      var front := RunsQuietly(prompt, events, id, inputs[..|inputs| - 1]);
      var e := Work(id, inputs[|inputs| - 1]);
      InvariantsOf(prompt, front);
      assert Sound(e.input);
      hide WorkersAfter, WorkerAfter, RowAfter, ChunksAfter, Accepts, Step, Next, Quiet,
        StagedInv, OneJob, BuiltUpTo, OutOfQueue, Snapshots, DisciplinedRun, PromptSweeps;
      QuietStep(Exec(INIT, front), id, e.input);
      Append(prompt, front, e);
      longer := front + [e];
      OnlyByMore(events, front, id, e.input);
    }
  }

  /** What a worker has established when it has read the right count. */
  ghost predicate HasCounted(s: State, id: nat, generation: nat, sha: string, drafts: seq<Chunk>) {
    && id in s.workers
    && Working(CellOf(s, id), CheckEmbedding, generation)
    && s.workers[id].plan.head == sha && s.workers[id].plan.drafts == drafts
    && s.workers[id].plan.stored == |drafts|
    && Exactly(s.db.chunks, generation, drafts)
  }

  lemma OthersSameTransitive(s: State, t: State, u: State, id: nat)
    requires OthersSame(s, t, id) && OthersSame(t, u, id)
    ensures OthersSame(s, u, id)
  {
  }

  /** A delivered job on its own reaches the check that follows its head request. */
  lemma JobResolves(prompt: bool, events: seq<Event>, id: nat, sha: string) returns (longer: seq<Event>)
    requires Proper(events, prompt) && id in Exec(INIT, events).workers
    requires Ready2Claim(CellOf(Exec(INIT, events), id))
    ensures Proper(longer, prompt) && OthersSame(Exec(INIT, events), Exec(INIT, longer), id)
    ensures OnlyBy(events, longer, id) && id in Exec(INIT, longer).workers
    ensures var (c, d) := (CellOf(Exec(INIT, events), id), CellOf(Exec(INIT, longer), id));
      && Working(d, ConfirmHead, c.w.generation) && Keeps(c, d) && d.w.plan.head == sha
      && d.w.context == ContextOf(c.db.row, c.w.generation, c.db.credential.value)
      && (TakesShortcut(d.w) <==> HeadUnchanged(c, sha))
  {
    hide QuietRun, After, Quiet, Next, WorkerAfter, RowAfter, ChunksAfter, Step, DisciplinedRun, PromptSweeps;
    hide OnlyBy, OthersSame, Exec, Valid;
    var s := Exec(INIT, events);
    var inputs := Claims(CellOf(s, id));
    longer := ContinuesQuietly(prompt, events, events, id, inputs);
    inputs := Resolves(CellOf(Exec(INIT, longer), id), sha);
    longer := ContinuesQuietly(prompt, events, longer, id, inputs);
  }

  /** Past the check, a job that does not take the shortcut reaches the count of its activation. */
  lemma JobStages(prompt: bool, start: seq<Event>, events: seq<Event>, id: nat, drafts: seq<Chunk>)
    returns (longer: seq<Event>)
    requires Proper(start, prompt) && Proper(events, prompt) && id in Exec(INIT, start).workers
    requires OthersSame(Exec(INIT, start), Exec(INIT, events), id) && OnlyBy(start, events, id)
    requires id in Exec(INIT, events).workers
    requires var d := CellOf(Exec(INIT, events), id);
      Working(d, ConfirmHead, d.w.generation) && !TakesShortcut(d.w) && Storable(d.w.generation, drafts)
    ensures Proper(longer, prompt) && OthersSame(Exec(INIT, start), Exec(INIT, longer), id)
    ensures OnlyBy(start, longer, id)
    ensures var w := Exec(INIT, events).workers[id];
      HasCounted(Exec(INIT, longer), id, w.generation, w.plan.head, drafts)
  {
    hide QuietRun, After, Quiet, Next, WorkerAfter, RowAfter, ChunksAfter, Step, DisciplinedRun, PromptSweeps;
    hide OnlyBy, OthersSame, Exec, Valid, Exactly;
    var inputs := Prepares(CellOf(Exec(INIT, events), id), drafts);
    longer := ContinuesQuietly(prompt, start, events, id, inputs);
    inputs := Inserts(CellOf(Exec(INIT, longer), id));
    longer := ContinuesQuietly(prompt, start, longer, id, inputs);
    inputs := Counts(CellOf(Exec(INIT, longer), id));
    longer := ContinuesQuietly(prompt, start, longer, id, inputs);
  }

  /** A delivered job on its own reaches the count of its activation transaction. */
  lemma JobReachesCount(prompt: bool, events: seq<Event>, id: nat, sha: string, drafts: seq<Chunk>)
    returns (longer: seq<Event>)
    requires Proper(events, prompt) && id in Exec(INIT, events).workers
    requires Ready2Claim(CellOf(Exec(INIT, events), id)) && !HeadUnchanged(CellOf(Exec(INIT, events), id), sha)
    requires Storable(Exec(INIT, events).workers[id].generation, drafts)
    ensures Proper(longer, prompt) && OthersSame(Exec(INIT, events), Exec(INIT, longer), id)
    ensures OnlyBy(events, longer, id)
    ensures HasCounted(Exec(INIT, longer), id, Exec(INIT, events).workers[id].generation, sha, drafts)
  {
    hide OnlyBy, OthersSame, Exec, Valid, Exactly, HasCounted, Storable, DisciplinedRun, PromptSweeps, TakesShortcut;
    var resolved := JobResolves(prompt, events, id, sha);
    longer := JobStages(prompt, events, resolved, id, drafts);
  }

  /** The next part of a quiet run that began at the end of `events`. */
  lemma ContinuesQuietly(prompt: bool, events: seq<Event>, middle: seq<Event>, id: nat, inputs: seq<Input>)
    returns (longer: seq<Event>)
    requires Proper(events, prompt) && Proper(middle, prompt) && id in Exec(INIT, events).workers
    requires events == middle || (OthersSame(Exec(INIT, events), Exec(INIT, middle), id) && OnlyBy(events, middle, id))
    requires id in Exec(INIT, middle).workers && QuietRun(CellOf(Exec(INIT, middle), id), inputs)
    ensures Proper(longer, prompt) && OthersSame(Exec(INIT, events), Exec(INIT, longer), id)
    ensures OnlyBy(events, longer, id) && id in Exec(INIT, longer).workers
    ensures CellOf(Exec(INIT, longer), id) == After(CellOf(Exec(INIT, middle), id), inputs)
  {
    hide QuietRun, After, DisciplinedRun, PromptSweeps, OnlyBy, Exec, Valid;
    longer := RunsQuietly(prompt, middle, id, inputs);
    if events != middle {
      OthersSameTransitive(Exec(INIT, events), Exec(INIT, middle), Exec(INIT, longer), id);
      OnlyByTransitive(events, middle, longer, id);
    }
  }

  predicate NoSweepDue(s: State) { forall i :: i in s.workers ==> s.workers[i].pc != Sweep }

  /** One worker's activation has committed; its sweep is due. */
  predicate Committed(s: State, t: State, id: nat, generation: nat) {
    && id in s.workers && t.workers.Keys == s.workers.Keys
    && (forall i :: i in s.workers && i != id ==> t.workers[i] == s.workers[i])
    && t.workers[id].pc == Sweep && t.workers[id].generation == generation
    && Active(t) == Some(generation) && Requested(t) == generation
    && t.db.row.status == Ready && !t.db.row.deleted
    && t.db.row.commitSha == Some(s.workers[id].plan.head)
    && generation in t.built && t.built[generation].drafts == s.workers[id].plan.drafts
    && t.db.chunks == s.db.chunks && t.db.credential == s.db.credential
  }

  predicate ReadyToCommit(s: State, id: nat, generation: nat, prompt: bool) {
    && id in s.workers && (prompt ==> NoSweepDue(s))
    && Working(CellOf(s, id), CheckEmbedding, generation)
    && s.workers[id].plan.stored == |s.workers[id].plan.drafts|
  }

  /** The remaining two statements of the activation transaction. */
  lemma Commits(prompt: bool, events: seq<Event>, id: nat, generation: nat) returns (longer: seq<Event>)
    requires Proper(events, prompt) && ReadyToCommit(Exec(INIT, events), id, generation, prompt)
    ensures Proper(longer, prompt) && Committed(Exec(INIT, events), Exec(INIT, longer), id, generation)
    ensures OnlyBy(events, longer, id)
  {
    var s := Exec(INIT, events);
    InvariantsOf(prompt, events);
    assert WorkerBelongs(s, s.workers[id]);
    hide StagedInv, OneJob, BuiltUpTo, OutOfQueue, Snapshots, DisciplinedRun, PromptSweeps, Exec, Valid, ReadyToCommit,
      Committed, Step, Enabled, Disciplined, NotOvertaking, OnlyBy;
    CommitSteps(prompt, s, id, generation);
    OnlyByNothing(events, id);
    OnlyByMore(events, events, id, Proceed);
    OnlyByMore(events, events + [Work(id, Proceed)], id, Proceed);
    var e := Work(id, Proceed);
    Append(prompt, events, e);
    var middle := events + [e];
    Append(prompt, middle, e);
    longer := middle + [e];
  }

  lemma CommitSteps(prompt: bool, s: State, id: nat, generation: nat)
    requires ReadyToCommit(s, id, generation, prompt) && WorkerBelongs(s, s.workers[id])
    ensures var e := Work(id, Proceed);
      && Enabled(s, e) && Disciplined(s, e) && (prompt ==> NotOvertaking(s, e))
      && Enabled(Step(s, e), e) && Disciplined(Step(s, e), e) && (prompt ==> NotOvertaking(Step(s, e), e))
      && Committed(s, Step(Step(s, e), e), id, generation)
  {
    hide WorkerAfter, RowAfter, ChunksAfter, Accepts;
    var e := Work(id, Proceed);
    var w := s.workers[id];
    CommitStatements(s.db, w);
    var m := Step(s, e);
    assert m == s.(workers := s.workers[id := w.(pc := Flip)]);
    assert Flips(m, e);
  }

  /** The two statements, on the data they work on. */
  lemma CommitStatements(db: Db, w: Worker)
    requires w.pc == CheckEmbedding && CredentialMatches(db.credential, w.context)
    requires w.plan.stored == |w.plan.drafts| && Current(db.row, w.generation)
    ensures Accepts(w, Proceed) && WorkerAfter(db, w, Proceed) == w.(pc := Flip)
    ensures RowAfter(db.row, w, Proceed) == db.row && ChunksAfter(db.chunks, w, Proceed) == db.chunks
    ensures var v := w.(pc := Flip);
      && Accepts(v, Proceed) && WorkerAfter(db, v, Proceed) == w.(pc := Sweep)
      && RowAfter(db.row, v, Proceed) == ActivateRow(db.row, w.context, w.plan.head, |w.plan.drafts|)
      && ChunksAfter(db.chunks, v, Proceed) == db.chunks
  {
  }

  predicate SweptUp(s: State, t: State, id: nat) {
    && id in s.workers && t.workers.Keys == s.workers.Keys
    && t.workers[id] == Finish(s.workers[id], WasReady)
    && (forall i :: i in s.workers && i != id ==> SameButMark(t.workers[i], s.workers[i]))
    && t.db == s.db.(chunks := KeepOnly(s.db.chunks, s.workers[id].generation))
    && t.built == s.built
  }

  lemma SweepStatement(db: Db, w: Worker)
    requires w.pc == Sweep
    ensures WorkerAfter(db, w, Proceed) == Finish(w, WasReady)
    ensures RowAfter(db.row, w, Proceed) == db.row
    ensures ChunksAfter(db.chunks, w, Proceed) == KeepOnly(db.chunks, w.generation)
  {
  }

  /** The sweep that follows an activation. */
  lemma SweepsUp(prompt: bool, events: seq<Event>, id: nat) returns (longer: seq<Event>)
    requires Proper(events, prompt) && id in Exec(INIT, events).workers && Exec(INIT, events).workers[id].pc == Sweep
    ensures Proper(longer, prompt) && SweptUp(Exec(INIT, events), Exec(INIT, longer), id)
    ensures OnlyBy(events, longer, id)
  {
    hide WorkersAfter, WorkerAfter, RowAfter, ChunksAfter, Step, DisciplinedRun, PromptSweeps, Exec, Valid, OnlyBy;
    var s, e := Exec(INIT, events), Work(id, Proceed);
    WorkShape(s, e);
    SweepStatement(s.db, s.workers[id]);
    OnlyByNothing(events, id);
    OnlyByMore(events, events, id, Proceed);
    Append(prompt, events, e);
    longer := events + [e];
  }

  /** The generation is live, whole, alone in the table, and the row names its commit. */
  ghost predicate AloneAndWhole(t: State, id: nat, generation: nat, sha: string, drafts: seq<Chunk>) {
    && id in t.workers && t.workers[id].pc == Finished(WasReady)
    && Active(t) == Some(generation) && t.db.row.commitSha == Some(sha)
    && Exactly(t.db.chunks, generation, drafts)
    && (forall k :: k in t.db.chunks ==> k.generation == generation)
  }

  lemma SweepLeavesWhole(s: State, t: State, u: State, id: nat, generation: nat, sha: string, drafts: seq<Chunk>)
    requires HasCounted(s, id, generation, sha, drafts)
    requires Committed(s, t, id, generation) && SweptUp(t, u, id)
    ensures AloneAndWhole(u, id, generation, sha, drafts)
  {
    assert SameRows(s.db.chunks, KeepOnly(s.db.chunks, generation), generation);
    SameRowsKeeps(s.db.chunks, KeepOnly(s.db.chunks, generation), generation, drafts, 0);
  }

  /** The job has ended through the shortcut: live rows, generation and builds as before, the row READY. */
  ghost predicate LeftUnchanged(s: State, t: State, id: nat, sha: string) {
    && id in t.workers && t.workers[id].pc == Finished(WasUnchanged)
    && t.db.chunks == s.db.chunks && Active(t) == Active(s) && t.built == s.built
    && t.db.row.status == Ready && t.db.row.commitSha == Some(sha)
  }

  /**
   From every reachable state in which a delivered job can claim its generation, the job
   can end on its own, in the way the row it finds decides: through the shortcut it leaves
   everything in place; otherwise it activates the generation, the rows are exactly its
   drafts, nothing else is left in the table, and the row names its commit. That it cannot
   end in any other way is shown in IndexUndisturbed.
   */
  lemma UndisturbedJobActivates(events: seq<Event>, s: State, id: nat, sha: string, drafts: seq<Chunk>)
    returns (longer: seq<Event>, t: State)
    requires Ends(events, s) && id in s.workers && Ready2Claim(CellOf(s, id))
    requires Storable(s.workers[id].generation, drafts)
    ensures Ends(longer, t) && OnlyBy(events, longer, id)
    ensures HeadUnchanged(CellOf(s, id), sha) ==> LeftUnchanged(s, t, id, sha)
    ensures !HeadUnchanged(CellOf(s, id), sha) ==> AloneAndWhole(t, id, s.workers[id].generation, sha, drafts)
  {
    hide Exec, Valid, DisciplinedRun, PromptSweeps, Exactly, Storable, Committed, SweptUp, HeadUnchanged,
      AloneAndWhole, LeftUnchanged, Step, Accepts, OnlyBy;
    if HeadUnchanged(CellOf(s, id), sha) {
      longer := JobTakesShortcut(events, id, sha);
      t := Exec(INIT, longer);
    } else {
      var generation := s.workers[id].generation;
      var counted := JobReachesCount(false, events, id, sha, drafts);
      var committed := Commits(false, counted, id, generation);
      CommittedAtSweep(Exec(INIT, counted), Exec(INIT, committed), id, generation);
      longer := SweepsUp(false, committed, id);
      OnlyByTransitive(events, counted, committed, id);
      OnlyByTransitive(events, committed, longer, id);
      t := Exec(INIT, longer);
      SweepLeavesWhole(Exec(INIT, counted), Exec(INIT, committed), t, id, generation, sha, drafts);
    }
  }

  lemma JobTakesShortcut(events: seq<Event>, id: nat, sha: string) returns (longer: seq<Event>)
    requires RunOf(events) && id in Exec(INIT, events).workers
    requires Ready2Claim(CellOf(Exec(INIT, events), id)) && HeadUnchanged(CellOf(Exec(INIT, events), id), sha)
    ensures RunOf(longer) && OnlyBy(events, longer, id)
    ensures LeftUnchanged(Exec(INIT, events), Exec(INIT, longer), id, sha)
  {
    hide QuietRun, After, Quiet, Next, WorkerAfter, RowAfter, ChunksAfter, Step, DisciplinedRun, PromptSweeps;
    hide OnlyBy, Exec, Valid, TakesShortcut, HeadUnchanged;
    var resolved := JobResolves(false, events, id, sha);
    var inputs := TakesIt(CellOf(Exec(INIT, resolved), id));
    longer := ContinuesQuietly(false, events, resolved, id, inputs);
  }

  lemma CommittedAtSweep(s: State, t: State, id: nat, generation: nat)
    requires Committed(s, t, id, generation)
    ensures id in t.workers && t.workers[id].pc == Sweep
  {
  }

  /** A request has reached the queue and its job has been delivered. */
  predicate Delivered(s: State, t: State, id: nat) {
    && t.workers == s.workers[id := NewWorker(Requested(s) + 1, true)]
    && Requested(t) == Requested(s) + 1
    && Ready2Claim(CellOf(t, id))
    && Active(t) == Active(s) && t.built == s.built
    && t.db.chunks == s.db.chunks && t.db.credential == s.db.credential
  }

  lemma RequestSteps(s: State, id: nat)
    requires id !in s.workers && s.db.credential.Some?
    ensures Disciplined(s, Request(true)) && NotOvertaking(s, Request(true))
    ensures var t := Step(s, Request(true));
      && Enabled(t, Enqueue(Requested(s) + 1)) && Disciplined(t, Enqueue(Requested(s) + 1))
      && NotOvertaking(t, Enqueue(Requested(s) + 1))
      && var u := Step(t, Enqueue(Requested(s) + 1));
      && Enabled(u, Deliver(id, Requested(s) + 1, true)) && Disciplined(u, Deliver(id, Requested(s) + 1, true))
      && NotOvertaking(u, Deliver(id, Requested(s) + 1, true))
      && Delivered(s, Step(u, Deliver(id, Requested(s) + 1, true)), id)
  {
    hide WorkerAfter, RowAfter, ChunksAfter, WorkersAfter, Accepts;
  }

  lemma Requests(prompt: bool, events: seq<Event>, id: nat) returns (longer: seq<Event>)
    requires Proper(events, prompt) && id !in Exec(INIT, events).workers
    requires Exec(INIT, events).db.credential.Some?
    ensures Proper(longer, prompt) && Delivered(Exec(INIT, events), Exec(INIT, longer), id)
  {
    hide DisciplinedRun, PromptSweeps, Exec, Valid, Step, Delivered, Sweeps, Disciplined, NotOvertaking;
    var g := Requested(Exec(INIT, events)) + 1;
    RequestSteps(Exec(INIT, events), id);
    Append(prompt, events, Request(true));
    longer := events + [Request(true)];
    Append(prompt, longer, Enqueue(g));
    longer := longer + [Enqueue(g)];
    Append(prompt, longer, Deliver(id, g, true));
    longer := longer + [Deliver(id, g, true)];
  }

  /** A configured credential, nothing requested yet. */
  lemma Configured(prompt: bool, configuration: Fingerprint)
    ensures Proper([SetCredential(configuration)], prompt)
    ensures Exec(INIT, [SetCredential(configuration)]) ==
      INIT.(db := INIT.db.(credential := Some(configuration)))
  {
    hide DisciplinedRun, PromptSweeps, Exec, Valid;
    NothingYet(prompt);
    Append(prompt, [], SetCredential(configuration));
    assert [] + [SetCredential(configuration)] == [SetCredential(configuration)];
  }

  lemma NothingYet(prompt: bool)
    ensures Proper([], prompt) && Exec(INIT, []) == INIT
  {
  }

  /** The only job has activated generation 1 and still has to sweep. */
  ghost predicate AtFirstSweep(s: State, drafts: seq<Chunk>) {
    && s.workers.Keys == {0} && s.workers[0].pc == Sweep && s.workers[0].generation == 1
    && Requested(s) == 1 && !s.db.row.deleted && s.db.row.status == Ready && s.db.credential.Some?
    && Active(s) == Some(1) && 1 in s.built && s.built[1].drafts == drafts && Exactly(s.db.chunks, 1, drafts)
  }

  lemma FirstJobWithoutSweep(prompt: bool, configuration: Fingerprint, drafts: seq<Chunk>) returns (events: seq<Event>)
    requires Storable(1, drafts)
    ensures Proper(events, prompt)
    ensures AtFirstSweep(Exec(INIT, events), drafts) && Exec(INIT, events).db.credential == Some(configuration)
  {
    Configured(prompt, configuration);
    hide Exec, Valid, DisciplinedRun, PromptSweeps, Exactly, Storable;
    var start := Requests(prompt, [SetCredential(configuration)], 0);
    var counted := JobReachesCount(prompt, start, 0, "a", drafts);
    events := Commits(prompt, counted, 0, 1);
  }

  /** The second job has counted its rows while the first one's sweep is still due. */
  lemma SecondJobCounted(prompt: bool, configuration: Fingerprint, first: seq<Chunk>, second: seq<Chunk>)
    returns (events: seq<Event>)
    requires Storable(1, first) && Storable(2, second)
    ensures Proper(events, prompt)
    ensures var s := Exec(INIT, events);
      && s.workers.Keys == {0, 1} && s.workers[0].pc == Sweep && s.workers[0].generation == 1
      && HasCounted(s, 1, 2, "b", second)
  {
    hide Exec, Valid, DisciplinedRun, PromptSweeps, Exactly, Storable, Working, Step, Enabled;
    var start := FirstJobWithoutSweep(prompt, configuration, first);
    var delivered := Requests(prompt, start, 1);
    events := JobReachesCount(prompt, delivered, 1, "b", second);
  }

  lemma SweptBeforeCommit(s: State, t: State, second: seq<Chunk>)
    requires s.workers.Keys == {0, 1} && s.workers[0].pc == Sweep && s.workers[0].generation == 1
    requires HasCounted(s, 1, 2, "b", second) && SweptUp(s, t, 0)
    ensures ReadyToCommit(t, 1, 2, true) && t.workers[1].plan.drafts == second && NoRows(t.db.chunks, 2)
  {
  }

  // ----- each disturbance occurs -----

  /**
   Prompt sweeps and a disciplined queue are not enough. For any drafts there is a run in
   which the first job's sweep lands between the second job's count and its row update,
   before any further activation; generation 2 then is live without a single row.
   */
  lemma SweepInsideTransactionLosesRows(configuration: Fingerprint, first: seq<Chunk>, second: seq<Chunk>)
    returns (events: seq<Event>, s: State)
    requires Storable(1, first) && Storable(2, second)
    ensures Ends(events, s) && PromptSweeps(events)
    ensures Active(s) == Some(2) && NoRows(s.db.chunks, 2) && !Integrity(s)
  {
    var counted := SecondJobCounted(true, configuration, first, second);
    hide Exec, Valid, DisciplinedRun, PromptSweeps, Exactly, Step, Accepts, NoRows;
    var swept := SweepsUp(true, counted, 0);
    SweptBeforeCommit(Exec(INIT, counted), Exec(INIT, swept), second);
    events := Commits(true, swept, 1, 2);
    s := Exec(INIT, events);
    WholeIsNotGone(s.db.chunks, 2, second);
  }

  /** For any drafts there is a run in which the first job's sweep is still due when the second generation is live. */
  lemma LateSweepOccurs(configuration: Fingerprint, first: seq<Chunk>, second: seq<Chunk>)
    returns (events: seq<Event>, s: State)
    requires Storable(1, first) && Storable(2, second)
    ensures Ends(events, s) && Integrity(s) && Active(s) == Some(2)
    ensures LateSweep(s, Work(0, Proceed)) && !Integrity(Step(s, Work(0, Proceed)))
  {
    var counted := SecondJobCounted(false, configuration, first, second);
    hide Exec, Valid, DisciplinedRun, PromptSweeps, Exactly, Step, NoRows, StagedInv, JobInv;
    events := Commits(false, counted, 1, 2);
    s := Exec(INIT, events);
    LateSweepState(Exec(INIT, counted), s, second);
    InvariantsOf(false, events);
    IntegrityKeptExactly(s, Work(0, Proceed));
  }

  lemma LateSweepState(s: State, t: State, second: seq<Chunk>)
    requires 0 in s.workers && s.workers[0].pc == Sweep && s.workers[0].generation == 1
    requires HasCounted(s, 1, 2, "b", second) && Committed(s, t, 1, 2)
    ensures Integrity(t) && Active(t) == Some(2) && LateSweep(t, Work(0, Proceed))
  {
    hide Exactly;
  }

  /**
   For any drafts there is a run in which the first job is lost between its activation and
   its sweep; delivered again, it is about to delete the live rows of its own generation.
   */
  lemma LiveRewriteOccurs(configuration: Fingerprint, drafts: seq<Chunk>) returns (events: seq<Event>, s: State)
    requires Storable(1, drafts)
    ensures Ends(events, s) && Integrity(s) && Active(s) == Some(1)
    ensures RewritesLive(s, Work(1, Proceed)) && !Integrity(Step(s, Work(1, Proceed)))
  {
    hide Exec, Valid, DisciplinedRun, PromptSweeps, Exactly, Storable, StagedInv, JobInv, Step, OthersSame, OnlyBy,
      QuietRun, After, Quiet, Next, WorkerAfter, RowAfter, ChunksAfter;
    var first := FirstJobWithoutSweep(false, configuration, drafts);
    var lost := LosesFirstJob(first, drafts);
    var resolved := JobResolves(false, lost, 1, "a");
    var inputs := Prepares(CellOf(Exec(INIT, resolved), 1), drafts);
    events := ContinuesQuietly(false, lost, resolved, 1, inputs);
    s := Exec(INIT, events);
    LiveRewriteState(Exec(INIT, lost), s, drafts);
    InvariantsOf(false, events);
    LiveRewriteDisturbs(s);
  }

  /**
   In such a run the second delivery fails before it has staged anything; its cleanup then
   is skipped, because the snapshot it claimed with has its own generation active.
   */
  lemma SkippedCleanupOccurs(configuration: Fingerprint, drafts: seq<Chunk>) returns (events: seq<Event>, s: State)
    requires Storable(1, drafts)
    ensures Ends(events, s) && 1 in s.workers && s.workers[1].pc == Clean && s.workers[1].generation == 1
    ensures s.workers[1].context.activeGeneration == Some(1)
    ensures Enabled(s, Work(1, Proceed)) && Step(s, Work(1, Proceed)).db.chunks == s.db.chunks
  {
    hide Exec, Valid, DisciplinedRun, PromptSweeps, Exactly, Storable, OthersSame, OnlyBy, RowAfter;
    var first := FirstJobWithoutSweep(false, configuration, drafts);
    var lost := LosesFirstJob(first, drafts);
    var resolved := JobResolves(false, lost, 1, "a");
    Append(false, resolved, Work(1, Fault(false)));
    events := resolved + [Work(1, Fault(false))];
    s := Exec(INIT, events);
  }

  lemma LiveRewriteDisturbs(s: State)
    requires IntegrityInv(s) && Integrity(s) && RewritesLive(s, Work(1, Proceed))
    ensures !Integrity(Step(s, Work(1, Proceed)))
  {
    hide StagedInv, JobInv, Step;
    IntegrityKeptExactly(s, Work(1, Proceed));
  }

  /** The first job is lost at its sweep and its generation delivered again, as a forced job. */
  lemma LosesFirstJob(events: seq<Event>, drafts: seq<Chunk>) returns (longer: seq<Event>)
    requires Proper(events, false) && AtFirstSweep(Exec(INIT, events), drafts)
    ensures Proper(longer, false)
    ensures var s := Exec(INIT, longer);
      && s.workers.Keys == {0, 1} && Ready2Claim(CellOf(s, 1)) && s.workers[1].force && s.workers[1].generation == 1
      && Active(s) == Some(1) && 1 in s.built && s.built[1].drafts == drafts && Exactly(s.db.chunks, 1, drafts)
  {
    hide Exec, Valid, DisciplinedRun, PromptSweeps, Exactly;
    InvariantsOf(false, events);
    hide StagedInv, OneJob, OutOfQueue, Snapshots;
    Append(false, events, Crash(0));
    longer := events + [Crash(0)];
    Append(false, longer, Deliver(1, 1, true));
    longer := longer + [Deliver(1, 1, true)];
  }

  lemma LiveRewriteState(s: State, t: State, drafts: seq<Chunk>)
    requires s.workers.Keys == {0, 1} && OthersSame(s, t, 1) && 1 in t.workers
    requires Active(s) == Some(1) && 1 in s.built && s.built[1].drafts == drafts && Exactly(s.db.chunks, 1, drafts)
    requires Working(CellOf(t, 1), ClearGeneration, 1) && t.db.chunks == s.db.chunks
    ensures Integrity(t) && Active(t) == Some(1) && RewritesLive(t, Work(1, Proceed))
  {
    hide Exactly;
  }
}
