/**
 The store's methods and the steps of the protocol are the same thing: a call of a method
 has the result and the effect of its statements, issued one after the other by a worker
 that nobody interrupts. Each method here calls the store and shows it from its contract.
 */
module IndexStoreSteps {
  import opened Common
  import opened CodeChunks
  import opened IndexStore
  import opened IndexProtocol
  import opened IndexAlone

  ghost function DbOf(store: PrismaIndexStore): Db
    reads store
  {
    Db(store.row, store.chunks, store.credential)
  }

  /** The worker's statements, for as long as it is at a statement of the given kind. */
  function Through(c: Cell, inputs: seq<Input>, within: Pc -> bool): Cell
    decreases |inputs|
  {
    if inputs == [] || !within(c.w.pc) || !Accepts(c.w, inputs[0]) then c
    else Through(Next(c, inputs[0]), inputs[1..], within)
  }

  predicate ClaimPc(pc: Pc) { pc.LoadRow? || pc.ReadEmbedding? || pc.WriteBlocked? || pc.ClaimIndex? }

  predicate CheckPc(pc: Pc) {
    pc.ConfirmHead? || pc.ConfirmDownload? || pc.ConfirmPrepare? || pc.ConfirmInsert? || pc.ConfirmSaving?
  }

  predicate PreparePc(pc: Pc) { pc.ConfirmPrepare? || pc.ClearGeneration? }

  predicate SavePc(pc: Pc) { pc.ConfirmInsert? || pc.InsertBatch? }

  predicate ActivatePc(pc: Pc) { pc.CountStored? || pc.CheckEmbedding? || pc.Flip? || pc.Sweep? }

  predicate UnchangedPc(pc: Pc) { pc.CheckUnchanged? || pc.WriteUnchanged? }

  lemma ThroughNext(c: Cell, input: Input, rest: seq<Input>, within: Pc -> bool)
    requires within(c.w.pc) && Accepts(c.w, input)
    ensures Through(c, [input] + rest, within) == Through(Next(c, input), rest, within)
  {
    assert ([input] + rest)[1..] == rest;
  }

  lemma ThroughLeft(c: Cell, inputs: seq<Input>, within: Pc -> bool)
    requires inputs == [] || !within(c.w.pc)
    ensures Through(c, inputs, within) == c
  {
  }

  // ----- claim -----

  lemma ClaimSteps(c: Cell, healthy: bool) returns (d: Cell)
    requires c.w.pc == LoadRow
    ensures d == Through(c, [Proceed, if healthy then Proceed else Unhealthy, Proceed], ClaimPc)
    ensures d.db == c.db.(row := d.db.row)
    ensures !Current(c.db.row, c.w.generation) ==> d.db.row == c.db.row && d.w.pc == Finished(WasStale)
    ensures Current(c.db.row, c.w.generation) && (!healthy || c.db.credential.None?) ==>
      d.db.row == BlockRow(c.db.row, c.w.generation) && d.w.pc == Finished(Threw)
    ensures Current(c.db.row, c.w.generation) && healthy && c.db.credential.Some? ==>
      && d.db.row == ClaimRow(c.db.row, c.w.generation)
      && if c.db.row.status == Indexing then d.w.pc == Finished(WasStale)
         else d.w.pc == ReportStart && d.w.context == ContextOf(c.db.row, c.w.generation, c.db.credential.value)
  {
    hide Through;
    var second := if healthy then Proceed else Unhealthy;
    assert [Proceed, second, Proceed] == [Proceed] + ([second] + ([Proceed] + []));
    ThroughNext(c, Proceed, [second] + ([Proceed] + []), ClaimPc);
    var c1 := Next(c, Proceed);
    if !Current(c.db.row, c.w.generation) {
      ThroughLeft(c1, [second] + ([Proceed] + []), ClaimPc);
      d := c1;
    } else {
      ThroughNext(c1, second, [Proceed] + [], ClaimPc);
      var c2 := Next(c1, second);
      ThroughNext(c2, Proceed, [], ClaimPc);
      d := Next(c2, Proceed);
      ThroughLeft(d, [], ClaimPc);
    }
  }

  method Claim(store: PrismaIndexStore, ghost w: Worker, generation: nat, healthy: bool)
    returns (r: Result<Context, StoreError>, ghost d: Cell)
    requires w.pc == LoadRow && w.generation == generation
    modifies store
    ensures d == Through(Cell(old(DbOf(store)), w), [Proceed, if healthy then Proceed else Unhealthy, Proceed], ClaimPc)
    ensures DbOf(store) == d.db
    ensures r.Ok? <==> d.w.pc == ReportStart
    ensures r.Ok? ==> d.w.context == r.value
    ensures r == Err(Stale) <==> d.w.pc == Finished(WasStale)
    ensures r == Err(BlockedIndex) <==> d.w.pc == Finished(Threw)
  {
    d := ClaimSteps(Cell(DbOf(store), w), healthy);
    r := store.Claim(generation, healthy);
  }

  // ----- checks and reports -----

  lemma CheckStep(c: Cell)
    requires CheckPc(c.w.pc) && c.w.context.generation == c.w.generation
    ensures Next(c, Proceed).db == c.db
    ensures Next(c, Proceed).w ==
      if Current(c.db.row, c.w.context.generation) then c.w.(pc := GuardedNext(c.w, Proceed).value) else GoStale(c.w)
  {
  }

  /** Every check of the protocol goes on exactly when EnsureCurrent succeeds, and otherwise leads to the cleanup. */
  method EnsureCurrent(store: PrismaIndexStore, ghost w: Worker, context: Context) returns (r: Result<(), StoreError>)
    requires CheckPc(w.pc) && w.context == context && context.generation == w.generation
    ensures Next(Cell(DbOf(store), w), Proceed).db == DbOf(store)
    ensures var v := Next(Cell(DbOf(store), w), Proceed).w;
      if r.Ok? then v == w.(pc := GuardedNext(w, Proceed).value) else r == Err(Stale) && v == GoStale(w)
  {
    CheckStep(Cell(DbOf(store), w));
    r := store.EnsureCurrent(context);
  }

  lemma ReportStep(c: Cell, input: Input)
    requires Accepts(c.w, input) && !input.Fault? && ReportOf(c.w, input).Some?
    ensures var d := Next(c, input);
      && d.db == c.db.(row := ProgressRow(c.db.row, c.w.generation, ReportOf(c.w, input).value))
      && if Current(c.db.row, c.w.generation) then d.w.pc == GuardedNext(c.w, input).value else d.w == GoStale(c.w)
  {
  }

  /** Every report of the protocol writes what UpdateProgress writes, and goes on exactly when it succeeds. */
  method UpdateProgress(store: PrismaIndexStore, ghost w: Worker, ghost input: Input, context: Context, p: Progress)
    returns (r: Result<(), StoreError>, ghost d: Cell)
    requires Accepts(w, input) && !input.Fault? && ReportOf(w, input) == Some(p)
    requires w.context == context && context.generation == w.generation
    modifies store
    ensures d == Next(Cell(old(DbOf(store)), w), input) && DbOf(store) == d.db
    ensures if r.Ok? then d.w.pc == GuardedNext(w, input).value else r == Err(Stale) && d.w == GoStale(w)
  {
    d := Next(Cell(DbOf(store), w), input);
    ReportStep(Cell(DbOf(store), w), input);
    r := store.UpdateProgress(context, p);
  }

  // ----- preparing and saving -----

  lemma PrepareSteps(c: Cell) returns (d: Cell)
    requires c.w.pc == ConfirmPrepare
    ensures d == Through(c, [Proceed, Proceed], PreparePc)
    ensures if Current(c.db.row, c.w.generation)
            then d.db == c.db.(chunks := DeleteGeneration(c.db.chunks, c.w.generation)) && d.w.pc == Stage
            else d.db == c.db && d.w == GoStale(c.w)
  {
    hide Through;
    assert [Proceed, Proceed] == [Proceed] + ([Proceed] + []);
    ThroughNext(c, Proceed, [Proceed] + [], PreparePc);
    d := Next(c, Proceed);
    if Current(c.db.row, c.w.generation) {
      ThroughNext(d, Proceed, [], PreparePc);
      d := Next(d, Proceed);
    }
    ThroughLeft(d, if Current(c.db.row, c.w.generation) then [] else [Proceed] + [], PreparePc);
  }

  method PrepareGeneration(store: PrismaIndexStore, ghost w: Worker, context: Context)
    returns (r: Result<(), StoreError>, ghost d: Cell)
    requires w.pc == ConfirmPrepare && w.context == context && context.generation == w.generation
    modifies store
    ensures d == Through(Cell(old(DbOf(store)), w), [Proceed, Proceed], PreparePc) && DbOf(store) == d.db
    ensures if r.Ok? then d.w.pc == Stage else r == Err(Stale) && d.w == GoStale(w)
  {
    d := PrepareSteps(Cell(DbOf(store), w));
    r := store.PrepareGeneration(context);
  }

  lemma SaveSteps(c: Cell) returns (d: Cell)
    requires c.w.pc == ConfirmInsert && c.w.plan.saved + c.w.plan.batch <= |c.w.plan.drafts|
    ensures d == Through(c, [Proceed, Proceed], SavePc)
    ensures d.db == c.db.(chunks := d.db.chunks)
    ensures !Current(c.db.row, c.w.generation) ==> d.db == c.db && d.w == GoStale(c.w)
    ensures Current(c.db.row, c.w.generation) && !InsertSucceeds(c.db.chunks, c.w) ==>
      d.db == c.db && d.w == GoWrong(c.w, false)
    ensures Current(c.db.row, c.w.generation) && InsertSucceeds(c.db.chunks, c.w) ==>
      && d.db.chunks == c.db.chunks + Rows(c.w.generation, Batch(c.w)) && d.w.pc == Stage
      && d.w.plan.saved == c.w.plan.saved + c.w.plan.batch
  {
    hide Through, Insertable, Rows;
    assert [Proceed, Proceed] == [Proceed] + ([Proceed] + []);
    ThroughNext(c, Proceed, [Proceed] + [], SavePc);
    d := Next(c, Proceed);
    if Current(c.db.row, c.w.generation) {
      ThroughNext(d, Proceed, [], SavePc);
      d := Next(d, Proceed);
      ThroughLeft(d, [], SavePc);
    } else {
      ThroughLeft(d, [Proceed] + [], SavePc);
    }
  }

  method SaveChunks(store: PrismaIndexStore, ghost w: Worker, context: Context, batch: seq<Chunk>)
    returns (r: Result<(), StoreError>, ghost d: Cell)
    requires w.pc == ConfirmInsert && w.context == context && context.generation == w.generation
    requires batch != [] && w.plan.saved + w.plan.batch <= |w.plan.drafts| && Batch(w) == batch
    modifies store
    ensures d == Through(Cell(old(DbOf(store)), w), [Proceed, Proceed], SavePc) && DbOf(store) == d.db
    ensures r.Ok? ==> d.w.pc == Stage && d.w.plan.saved == w.plan.saved + |batch|
    ensures r == Err(Stale) ==> d.w == GoStale(w)
    ensures r == Err(Failure) ==> d.w == GoWrong(w, false)
    ensures r != Err(BlockedIndex)
  {
    hide Through, Insertable, Rows, Next, Fits, Added;
    d := SaveSteps(Cell(DbOf(store), w));
    ghost var before := store.chunks;
    FitsExactly(before, context.generation, batch);
    r := store.SaveChunks(context, batch);
    if r.Ok? { AddedExactly(before, store.chunks, context.generation, batch); }
  }

  // ----- ending a job -----

  lemma ActivateSteps(c: Cell, sweepFails: bool) returns (d: Cell)
    requires c.w.pc == CountStored && c.w.context.generation == c.w.generation
    ensures d == Through(c, [Proceed, Proceed, Proceed, if sweepFails then Fault(false) else Proceed], ActivatePc)
    ensures var count := |c.w.plan.drafts|;
      if StoredCount(c.db.chunks, c.w.generation) != count then d.db == c.db && Wrong(c.w, d.w)
      else if !CredentialMatches(c.db.credential, c.w.context) || !Current(c.db.row, c.w.generation) then
        d.db == c.db && Outdated(c.w, d.w)
      else
        && d.w.pc == Finished(WasReady)
        && d.db.row == ActivateRow(c.db.row, c.w.context, c.w.plan.head, count)
        && d.db.chunks == (if sweepFails then c.db.chunks else KeepOnly(c.db.chunks, c.w.generation))
        && d.db.credential == c.db.credential
  {
    hide Through, StoredCount, KeepOnly, Next;
    var last := if sweepFails then Fault(false) else Proceed;
    assert [Proceed, Proceed, Proceed, last] == [Proceed] + ([Proceed] + ([Proceed] + ([last] + [])));
    ThroughNext(c, Proceed, [Proceed] + ([Proceed] + ([last] + [])), ActivatePc);
    CountStatement(c);
    d := Next(c, Proceed);
    ThroughNext(d, Proceed, [Proceed] + ([last] + []), ActivatePc);
    CredentialStep(d);
    d := Next(d, Proceed);
    if d.w.pc != Flip {
      ThroughLeft(d, [Proceed] + ([last] + []), ActivatePc);
    } else {
      ThroughNext(d, Proceed, [last] + [], ActivatePc);
      FlipStep(d);
      d := Next(d, Proceed);
      if d.w.pc != Sweep {
        ThroughLeft(d, [last] + [], ActivatePc);
      } else {
        ThroughNext(d, last, [], ActivatePc);
        SweepStep(d, sweepFails);
        d := Next(d, last);
        ThroughLeft(d, [], ActivatePc);
      }
    }
  }

  lemma CountStatement(c: Cell)
    requires c.w.pc == CountStored
    ensures Next(c, Proceed) == c.(w := c.w.(pc := CheckEmbedding,
      plan := c.w.plan.(stored := StoredCount(c.db.chunks, c.w.generation), sweptSinceCount := false)))
  {
    hide StoredCount;
  }

  lemma CredentialStep(c: Cell)
    requires c.w.pc == CheckEmbedding
    ensures Next(c, Proceed) == c.(w :=
      if c.w.plan.stored != |c.w.plan.drafts| then GoWrong(c.w, false)
      else if !CredentialMatches(c.db.credential, c.w.context) then GoStale(c.w) else c.w.(pc := Flip))
  {
  }

  lemma FlipStep(c: Cell)
    requires c.w.pc == Flip
    ensures Next(c, Proceed).db == c.db.(row := ActivateRow(c.db.row, c.w.context, c.w.plan.head, |c.w.plan.drafts|))
    ensures Next(c, Proceed).w == if Current(c.db.row, c.w.generation) then c.w.(pc := Sweep) else GoStale(c.w)
  {
  }

  lemma SweepStep(c: Cell, fails: bool)
    requires c.w.pc == Sweep
    ensures var d := Next(c, if fails then Fault(false) else Proceed);
      && d.db == c.db.(chunks := if fails then c.db.chunks else KeepOnly(c.db.chunks, c.w.generation))
      && d.w == Finish(c.w, WasReady)
  {
    hide KeepOnly;
  }

  /** The worker goes to the cleanup, with a failure or as stale; only its notes have changed. */
  predicate Wrong(w: Worker, v: Worker) { v.pc == Clean && v.problem == OtherProblem(false) && v.context == w.context }

  predicate Outdated(w: Worker, v: Worker) { v.pc == Clean && v.problem == StaleProblem && v.context == w.context }

  method Activate(store: PrismaIndexStore, ghost w: Worker, context: Context, commitSha: string, chunkCount: nat,
                  sweepFails: bool)
    returns (r: Result<(), StoreError>, ghost d: Cell)
    requires w.pc == CountStored && w.context == context && context.generation == w.generation
    requires w.plan.head == commitSha && |w.plan.drafts| == chunkCount > 0
    modifies store
    ensures d == Through(Cell(old(DbOf(store)), w),
                         [Proceed, Proceed, Proceed, if sweepFails then Fault(false) else Proceed], ActivatePc)
    ensures DbOf(store) == d.db
    ensures r.Ok? ==> d.w.pc == Finished(WasReady)
    ensures r == Err(Stale) ==> Outdated(w, d.w)
    ensures r == Err(Failure) ==> Wrong(w, d.w)
    ensures r != Err(BlockedIndex)
  {
    hide Through, KeepOnly, Swept;
    d := ActivateSteps(Cell(DbOf(store), w), sweepFails);
    ghost var before := store.chunks;
    r := store.Activate(context, commitSha, chunkCount, sweepFails);
    SweptExactly(before, store.chunks, context.generation);
  }

  lemma UnchangedSteps(c: Cell) returns (d: Cell)
    requires c.w.pc == CheckUnchanged && c.w.context.generation == c.w.generation
    ensures d == Through(c, [Proceed, Proceed], UnchangedPc)
    ensures if CredentialMatches(c.db.credential, c.w.context) && UnchangedApplies(c.db.row, c.w.context)
            then d.db == c.db.(row := CompleteUnchangedRow(c.db.row, c.w.context, c.w.plan.head))
                 && d.w.pc == Finished(WasUnchanged)
            else d.db == c.db && Outdated(c.w, d.w)
  {
    hide Through;
    assert [Proceed, Proceed] == [Proceed] + ([Proceed] + []);
    ThroughNext(c, Proceed, [Proceed] + [], UnchangedPc);
    d := Next(c, Proceed);
    if CredentialMatches(c.db.credential, c.w.context) {
      ThroughNext(d, Proceed, [], UnchangedPc);
      d := Next(d, Proceed);
      ThroughLeft(d, [], UnchangedPc);
    } else {
      ThroughLeft(d, [Proceed] + [], UnchangedPc);
    }
  }

  method CompleteUnchanged(store: PrismaIndexStore, ghost w: Worker, context: Context, commitSha: string)
    returns (r: Result<(), StoreError>, ghost d: Cell)
    requires w.pc == CheckUnchanged && w.context == context && context.generation == w.generation
    requires w.plan.head == commitSha
    modifies store
    ensures d == Through(Cell(old(DbOf(store)), w), [Proceed, Proceed], UnchangedPc) && DbOf(store) == d.db
    ensures if r.Ok? then d.w.pc == Finished(WasUnchanged) else r == Err(Stale) && Outdated(w, d.w)
  {
    d := UnchangedSteps(Cell(DbOf(store), w));
    r := store.CompleteUnchanged(context, commitSha);
  }

  lemma CleanStep(c: Cell)
    requires c.w.pc == Clean
    ensures Next(c, Proceed).db == c.db.(chunks :=
      if c.w.context.activeGeneration == Some(c.w.generation) then c.db.chunks
      else DeleteGeneration(c.db.chunks, c.w.generation))
  {
  }

  method CleanupGeneration(store: PrismaIndexStore, ghost w: Worker, context: Context) returns (ghost d: Cell)
    requires w.pc == Clean && w.context == context && context.generation == w.generation
    modifies store
    ensures d == Next(Cell(old(DbOf(store)), w), Proceed) && DbOf(store) == d.db
  {
    d := Next(Cell(DbOf(store), w), Proceed);
    CleanStep(Cell(DbOf(store), w));
    store.CleanupGeneration(context);
  }

  lemma FailStep(c: Cell)
    requires c.w.pc == MarkFailed
    ensures var blocked := c.w.problem.OtherProblem? && c.w.problem.blocked;
      Next(c, Proceed) == Cell(c.db.(row := FailRow(c.db.row, c.w.context, blocked)), Finish(c.w, Threw))
  {
  }

  method Fail(store: PrismaIndexStore, ghost w: Worker, context: Context, blocked: bool) returns (ghost d: Cell)
    requires w.pc == MarkFailed && w.context == context && w.problem == OtherProblem(blocked)
    modifies store
    ensures d == Next(Cell(old(DbOf(store)), w), Proceed) && DbOf(store) == d.db
  {
    d := Next(Cell(DbOf(store), w), Proceed);
    FailStep(Cell(DbOf(store), w));
    store.Fail(context, blocked);
  }
}
