/**
 Claim exclusion: while a worker holds a generation, the INDEXING status keeps every
 other delivery of that generation out. Two writes rewrite the status without looking at
 it and break this: the blocked branch of a second claim, and the removal of the
 embedding credential. They are the only ones.
 */
module IndexClaims {
  import opened Common
  import opened IndexStore
  import opened IndexProtocol
  import opened IndexFencing

  /** From a successful claim to the write that ends the job (or to its stale exit). */
  predicate Holding(w: Worker) {
    Claimed(w.pc) || w.pc == Clean || w.pc == MarkFailed
  }

  predicate Holds(s: State, id: nat, generation: nat) {
    id in s.workers && Holding(s.workers[id]) && s.workers[id].generation == generation
  }

  ghost predicate Exclusive(s: State) {
    forall i, j, g :: Holds(s, i, g) && Holds(s, j, g) ==> i == j
  }

  ghost predicate Marked(s: State) {
    forall i, g :: Holds(s, i, g) && Current(s.db.row, g) ==> s.db.row.status == Indexing
  }

  ghost predicate ClaimInv(s: State) { FenceInv(s) && Exclusive(s) && Marked(s) }

  /** The event writes the status of a generation that some worker holds, without being its claim. */
  ghost predicate RewritesHeldStatus(s: State, e: Event)
    requires Enabled(s, e)
  {
    && (|| (e.Work? && s.workers[e.id].pc == WriteBlocked && e.input.Proceed?
            && Current(s.db.row, s.workers[e.id].generation))
        || e.RemoveCredential?)
    && !s.db.row.deleted
    && exists i :: Holds(s, i, Requested(s))
  }

  lemma StatusFrame(db: Db, w: Worker, input: Input)
    requires Accepts(w, input)
    requires w.pc != LoadRow ==> w.context.generation == w.generation
    ensures Current(db.row, w.generation) && db.row.status == Indexing && Holding(WorkerAfter(db, w, input)) ==>
      RowAfter(db.row, w, input).status == Indexing
    ensures Holding(WorkerAfter(db, w, input)) && !Holding(w) ==>
      w.pc == ClaimIndex && Claimable(db.row, w.generation) && RowAfter(db.row, w, input).status == Indexing
    ensures RowAfter(db.row, w, input).status != db.row.status && !Holding(w) ==>
      (w.pc == WriteBlocked && input.Proceed?) || (w.pc == ClaimIndex && Claimable(db.row, w.generation))
    ensures w.pc == WriteBlocked && input.Proceed? && Current(db.row, w.generation) ==>
      RowAfter(db.row, w, input).status == Blocked
  {
  }

  lemma HoldersAfterWork(s: State, e: Event)
    requires FenceInv(s) && Enabled(s, e) && e.Work?
    ensures var t := Step(s, e);
      && (forall i, g :: i != e.id ==> (Holds(t, i, g) <==> Holds(s, i, g)))
      && (forall g :: Holds(t, e.id, g) ==> g == s.workers[e.id].generation)
  {
    WorkerFrame(s.db, s.workers[e.id], e.input);
  }

  lemma WorkKeepsExclusive(s: State, e: Event)
    requires ClaimInv(s) && Enabled(s, e) && e.Work?
    ensures Exclusive(Step(s, e))
  {
    hide RowAfter, ChunksAfter;
    HoldersAfterWork(s, e);
    StatusFrame(s.db, s.workers[e.id], e.input);
    hide WorkerAfter;
    var w, t := s.workers[e.id], Step(s, e);
    forall i, j, g | Holds(t, i, g) && Holds(t, j, g) ensures i == j {
      assert i != e.id ==> Holds(s, i, g);
      assert j != e.id ==> Holds(s, j, g);
      assert Holding(w) ==> Holds(s, e.id, w.generation);
    }
  }

  lemma WorkKeepsMarked(s: State, e: Event)
    requires ClaimInv(s) && Enabled(s, e) && e.Work? && !RewritesHeldStatus(s, e)
    ensures Marked(Step(s, e))
  {
    HoldersAfterWork(s, e);
    StatusFrame(s.db, s.workers[e.id], e.input);
    RowFrame(s.db.row, s.workers[e.id], e.input);
    hide WorkerAfter, RowAfter, ChunksAfter;
    var w, t := s.workers[e.id], Step(s, e);
    forall i, g | Holds(t, i, g) && Current(t.db.row, g) ensures t.db.row.status == Indexing {
      assert i != e.id ==> Holds(s, i, g);
      assert Holding(w) ==> Holds(s, e.id, w.generation);
    }
  }

  lemma OtherKeepsExclusion(s: State, e: Event)
    requires ClaimInv(s) && Enabled(s, e) && !e.Work? && !RewritesHeldStatus(s, e)
    ensures ClaimInv(Step(s, e))
  {
    var t := Step(s, e);
    StepKeepsFence(s, e);
    forall i, g | Holds(t, i, g) ensures Holds(s, i, g) { }
    forall i, g | Holds(t, i, g) && Current(t.db.row, g) ensures t.db.row.status == Indexing {
      assert g in s.enqueued;
    }
  }

  /** A step keeps claims exclusive and marked exactly when it is not one of the two rewrites. */
  lemma ExclusionKeptExactly(s: State, e: Event)
    requires ClaimInv(s) && Enabled(s, e)
    ensures ClaimInv(Step(s, e)) <==> !RewritesHeldStatus(s, e)
  {
    if RewritesHeldStatus(s, e) {
      var i :| Holds(s, i, Requested(s));
      var t := Step(s, e);
      if e.Work? {
        HoldersAfterWork(s, e);
        StatusFrame(s.db, s.workers[e.id], e.input);
        RowFrame(s.db.row, s.workers[e.id], e.input);
        assert Holds(t, i, Requested(s));
      } else {
        assert Holds(t, i, Requested(s));
      }
    } else if e.Work? {
      StepKeepsFence(s, e);
      WorkKeepsExclusive(s, e);
      WorkKeepsMarked(s, e);
    } else {
      OtherKeepsExclusion(s, e);
    }
  }

  /** No event of the run is one of the two rewrites. */
  ghost predicate Unrewritten(events: seq<Event>)
    requires Valid(INIT, events)
    decreases |events|
  {
    events == [] || (Unrewritten(events[..|events| - 1])
                     && !RewritesHeldStatus(Exec(INIT, events[..|events| - 1]), events[|events| - 1]))
  }

  lemma {:induction false} RunKeepsExclusion(events: seq<Event>)
    requires Valid(INIT, events) && Unrewritten(events)
    ensures ClaimInv(Exec(INIT, events))
    decreases |events|
  {
    if events != [] {
      RunKeepsExclusion(events[..|events| - 1]);
      ExclusionKeptExactly(Exec(INIT, events[..|events| - 1]), events[|events| - 1]);
    }
  }

  /** Any run that ends in s and has neither of the two rewrites. */
  ghost predicate UnrewrittenRun(events: seq<Event>, s: State) {
    Valid(INIT, events) && Unrewritten(events) && Exec(INIT, events) == s
  }

  /**
   Whatever is delivered how often, between a claim of a generation and the end of the
   claiming job no second claim succeeds: a worker that tries leaves as stale.
   */
  lemma SecondClaimFails(events: seq<Event>, s: State, holder: nat, second: nat)
    requires UnrewrittenRun(events, s)
    requires second in s.workers && s.workers[second].pc == ClaimIndex
    requires Holds(s, holder, s.workers[second].generation)
    ensures var t := Step(s, Work(second, Proceed));
      && t.db.row == s.db.row
      && t.workers[second].pc == Finished(WasStale)
      && Holds(t, holder, s.workers[second].generation)
  {
    hide Exec, Valid, Unrewritten;
    RunKeepsExclusion(events);
    HoldersAfterWork(s, Work(second, Proceed));
  }

  /** After either rewrite a second claim of the held generation does get in. */
  lemma RewriteAdmitsSecondClaim(s: State, e: Event, second: nat)
    requires ClaimInv(s) && Enabled(s, e) && RewritesHeldStatus(s, e)
    requires second in s.workers && s.workers[second].pc == ClaimIndex
    requires s.workers[second].generation == Requested(s)
    ensures Enabled(Step(s, e), Work(second, Proceed))
    ensures !Exclusive(Step(Step(s, e), Work(second, Proceed)))
  {
    hide Step, Enabled;
    var holder :| Holds(s, holder, Requested(s));
    var t := Step(s, e);
    RewriteOpensRow(s, e, holder, second);
    ClaimOfOpenRow(t, holder, second);
    var u := Step(t, Work(second, Proceed));
    assert Holds(u, holder, Requested(s)) && Holds(u, second, Requested(s));
  }

  /** The rewrite leaves both workers where they were and the row open for a claim. */
  lemma RewriteOpensRow(s: State, e: Event, holder: nat, second: nat)
    requires ClaimInv(s) && Enabled(s, e) && RewritesHeldStatus(s, e) && Holds(s, holder, Requested(s))
    requires second in s.workers && s.workers[second].pc == ClaimIndex
    requires s.workers[second].generation == Requested(s)
    ensures var t := Step(s, e);
      && Requested(t) == Requested(s) && Holds(t, holder, Requested(t)) && holder != second
      && second in t.workers && t.workers[second] == s.workers[second]
      && Claimable(t.db.row, Requested(t))
      && FenceInv(t)
  {
    hide RowAfter, ChunksAfter;
    if e.Work? {
      HoldersAfterWork(s, e);
      StatusFrame(s.db, s.workers[e.id], e.input);
      RowFrame(s.db.row, s.workers[e.id], e.input);
    }
    StepKeepsFence(s, e);
  }

  lemma ClaimOfOpenRow(t: State, holder: nat, second: nat)
    requires Holds(t, holder, Requested(t)) && holder != second
    requires second in t.workers && t.workers[second].pc == ClaimIndex
    requires t.workers[second].generation == Requested(t) && Claimable(t.db.row, Requested(t))
    ensures Enabled(t, Work(second, Proceed))
    ensures Holds(Step(t, Work(second, Proceed)), holder, Requested(t))
    ensures Holds(Step(t, Work(second, Proceed)), second, Requested(t))
  {
    hide RowAfter, ChunksAfter;
  }

  // ----- the rewrite does meet a held claim -----

  ghost predicate ReachedUnrewritten(s: State) { exists events :: UnrewrittenRun(events, s) }

  lemma Go(s: State, e: Event, t: State)
    requires ReachedUnrewritten(s) && Enabled(s, e) && !RewritesHeldStatus(s, e) && Step(s, e) == t
    ensures ReachedUnrewritten(t)
  {
    hide Step, Enabled, RewritesHeldStatus;
    var events :| UnrewrittenRun(events, s);
    var longer := events + [e];
    assert longer[..|longer| - 1] == events;
    assert UnrewrittenRun(longer, t);
  }

  lemma NobodyHolds(s: State, e: Event)
    requires Enabled(s, e) && s.workers == map[]
    ensures !RewritesHeldStatus(s, e)
  {
  }

  lemma ConfiguredState(configuration: Fingerprint) returns (s: State)
    ensures ReachedUnrewritten(s) && s == INIT.(db := INIT.db.(credential := Some(configuration)))
  {
    assert UnrewrittenRun([], INIT);
    hide ReachedUnrewritten, RewritesHeldStatus;
    s := Step(INIT, SetCredential(configuration));
    NobodyHolds(INIT, SetCredential(configuration));
    Go(INIT, SetCredential(configuration), s);
  }

  lemma Requested1(configuration: Fingerprint) returns (s: State)
    ensures ReachedUnrewritten(s)
    ensures s.workers == map[] && s.enqueued == {1} && s.db.credential == Some(configuration)
    ensures Current(s.db.row, 1) && s.db.row.status == Pending
  {
    hide ReachedUnrewritten, RewritesHeldStatus;
    var s1 := ConfiguredState(configuration);
    NobodyHolds(s1, Request(true));
    var s2 := Step(s1, Request(true));
    Go(s1, Request(true), s2);
    NobodyHolds(s2, Enqueue(1));
    s := Step(s2, Enqueue(1));
    Go(s2, Enqueue(1), s);
  }

  /** One generation delivered twice, which only the queue's discipline rules out. */
  lemma DeliveredTwice(configuration: Fingerprint) returns (s: State)
    ensures ReachedUnrewritten(s)
    ensures s.workers == map[0 := NewWorker(1, true), 1 := NewWorker(1, true)]
    ensures s.db.credential == Some(configuration) && Current(s.db.row, 1) && s.db.row.status == Pending
    ensures 1 in s.enqueued
  {
    hide ReachedUnrewritten;
    var s1 := Requested1(configuration);
    var s2 := Step(s1, Deliver(0, 1, true));
    Go(s1, Deliver(0, 1, true), s2);
    s := Step(s2, Deliver(1, 1, true));
    Go(s2, Deliver(1, 1, true), s);
  }

  /** A fresh worker loads the row and the embedding configuration. */
  lemma Loads(s: State, id: nat) returns (t: State)
    requires ReachedUnrewritten(s) && id in s.workers && s.workers[id] == NewWorker(1, true)
    requires s.db.credential.Some? && Current(s.db.row, 1)
    ensures ReachedUnrewritten(t) && t.db == s.db && t.enqueued == s.enqueued
    ensures id in t.workers && t.workers == s.workers[id := t.workers[id]]
    ensures t.workers[id].pc == ClaimIndex && t.workers[id].generation == 1
  {
    hide ReachedUnrewritten;
    var s1 := Step(s, Work(id, Proceed));
    Go(s, Work(id, Proceed), s1);
    assert s1.workers[id].pc == ReadEmbedding;
    t := Step(s1, Work(id, Proceed));
    Go(s1, Work(id, Proceed), t);
  }

  lemma ClaimsRow(s: State, id: nat) returns (t: State)
    requires ReachedUnrewritten(s) && id in s.workers && s.workers[id].pc == ClaimIndex
    requires s.workers[id].generation == 1 && Claimable(s.db.row, 1)
    ensures ReachedUnrewritten(t) && Holds(t, id, 1) && id in t.workers
    ensures t.workers == s.workers[id := t.workers[id]] && t.db.credential == s.db.credential
    ensures Current(t.db.row, 1) && t.enqueued == s.enqueued
  {
    hide ReachedUnrewritten;
    t := Step(s, Work(id, Proceed));
    Go(s, Work(id, Proceed), t);
  }

  /** One worker holds the generation, and a second delivery of it is about to claim. */
  ghost predicate ClaimHeld(s: State) {
    && ReachedUnrewritten(s) && s.workers.Keys == {0, 1} && Holds(s, 0, 1) && 1 in s.enqueued
    && s.workers[1].pc == ClaimIndex && s.workers[1].generation == 1 && Current(s.db.row, 1)
  }

  lemma HoldsAClaim(configuration: Fingerprint) returns (s: State)
    ensures ClaimHeld(s) && s.db.credential == Some(configuration)
  {
    hide ReachedUnrewritten;
    var s1 := DeliveredTwice(configuration);
    var s2 := Loads(s1, 0);
    var s3 := Loads(s2, 1);
    s := ClaimsRow(s3, 0);
  }

  /**
   A run without any rewrite up to its end, after which the removal of the credential meets
   a held claim while a second delivery of the generation is about to claim.
   */
  lemma RewriteOccurs(configuration: Fingerprint) returns (events: seq<Event>, s: State)
    ensures UnrewrittenRun(events, s) && ClaimInv(s)
    ensures Enabled(s, RemoveCredential) && RewritesHeldStatus(s, RemoveCredential)
    ensures 1 in s.workers && s.workers[1].pc == ClaimIndex && s.workers[1].generation == Requested(s)
  {
    hide UnrewrittenRun, ReachedUnrewritten;
    s := HoldsAClaim(configuration);
    events := RunTo(s);
    ClaimInvOf(events, s);
    assert Holds(s, 0, Requested(s));
  }

  /** The same for the other rewrite: a third delivery finds the embedding configuration unhealthy. */
  lemma BlockedRewriteOccurs(configuration: Fingerprint) returns (events: seq<Event>, s: State)
    ensures UnrewrittenRun(events, s) && ClaimInv(s)
    ensures 2 in s.workers && s.workers[2].pc == WriteBlocked
    ensures Enabled(s, Work(2, Proceed)) && RewritesHeldStatus(s, Work(2, Proceed))
    ensures 1 in s.workers && s.workers[1].pc == ClaimIndex && s.workers[1].generation == Requested(s)
  {
    hide UnrewrittenRun, ReachedUnrewritten;
    var s1 := HoldsAClaim(configuration);
    s := FindsBlocked(s1);
    assert Holds(s, 0, Requested(s));
    events := RunTo(s);
    ClaimInvOf(events, s);
  }

  lemma RunTo(s: State) returns (events: seq<Event>)
    requires ReachedUnrewritten(s)
    ensures UnrewrittenRun(events, s)
  {
    hide UnrewrittenRun;
    events :| UnrewrittenRun(events, s);
  }

  lemma FindsBlocked(s: State) returns (t: State)
    requires ClaimHeld(s)
    ensures ReachedUnrewritten(t) && t.db == s.db && 2 in t.workers && t.workers == s.workers[2 := t.workers[2]]
    ensures t.workers[2].pc == WriteBlocked && t.workers[2].generation == 1
  {
    hide ReachedUnrewritten;
    var s1 := Step(s, Deliver(2, 1, true));
    Go(s, Deliver(2, 1, true), s1);
    var s2 := Step(s1, Work(2, Proceed));
    Go(s1, Work(2, Proceed), s2);
    t := Step(s2, Work(2, Unhealthy));
    Go(s2, Work(2, Unhealthy), t);
  }

  lemma ClaimInvOf(events: seq<Event>, s: State)
    requires UnrewrittenRun(events, s)
    ensures ClaimInv(s)
  {
    hide Exec, Valid, ClaimInv;
    RunKeepsExclusion(events);
  }
}
