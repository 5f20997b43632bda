/**
 The lock that keeps two replicas from running one scheduled job at the same time: a Redis
 key set with a time to live, and deleted only by the token that set it. Times are in
 milliseconds; one lock name is modelled, names do not interact.
 */
module CronLock {
  import opened Common

  /** The key's value and when Redis drops it. */
  datatype Held = Held(token: nat, expires: nat)

  type Key = Option<Held>

  predicate Alive(key: Key, now: nat) { key.Some? && now < key.value.expires }

  /** SET key token PX ttl NX */
  function AfterSet(key: Key, token: nat, now: nat, ttl: nat): Key {
    if Alive(key, now) then key else Some(Held(token, now + ttl))
  }

  /** The release script: delete the key if it still holds the token. */
  function AfterRelease(key: Key, token: nat, now: nat): Key {
    if Alive(key, now) && key.value.token == token then None else key
  }

  class Redis {
    var key: Key

    constructor ()
      ensures key == None
    {
      key := None;
    }

    method SetIfAbsent(token: nat, now: nat, ttl: nat) returns (ok: bool)
      modifies this
      ensures key == AfterSet(old(key), token, now, ttl)
      ensures ok <==> (old(key).None? || old(key).value.expires <= now)
      ensures key == if ok then Some(Held(token, now + ttl)) else old(key)
    {
      ok := key.None? || key.value.expires <= now;
      if ok {
        key := Some(Held(token, now + ttl));
      }
    }

    method CompareAndDelete(token: nat, now: nat) returns (deleted: bool)
      modifies this
      ensures key == AfterRelease(old(key), token, now)
      ensures deleted <==> old(key).Some? && now < old(key).value.expires && old(key).value.token == token
      ensures key == if deleted then None else old(key)
    {
      deleted := key.Some? && now < key.value.expires && key.value.token == token;
      if deleted {
        key := None;
      }
    }
  }

  // ----- any number of replicas -----

  datatype Phase =
    | Asking                        // the SET is on its way
    | Granted(since: nat)           // Redis has set the key; the reply is on its way
    | Refused
    | Running(since: nat)           // the body runs under the lock
    | RunningUnlocked               // the body runs after a Redis error
    | Releasing(since: nat)         // the body has ended; the release is on its way
    | Over

  /** One call of a decorated method. `evicted` says that Redis lost the key after this call set it. */
  datatype Call = Call(phase: Phase, evicted: bool)

  datatype State = State(now: nat, key: Key, calls: map<nat, Call>)

  datatype Event =
    | Tick(elapsed: nat)
    | Begin(id: nat)                // the call's token is its id, unlike every other token
    | SetRuns(id: nat)
    | SetFails(id: nat)             // a Redis error: the body runs unlocked
    | ReplyArrives(id: nat)
    | ReplyLost(id: nat)            // the key is set but the client sees an error
    | SetRepeats(id: nat)           // the client retries the SET it has already won, and is refused
    | BodyEnds(id: nat)
    | ReleaseRuns(id: nat)
    | ReleaseFails(id: nat)
    | Evict                         // Redis loses the key

  const INIT := State(0, None, map[])

  predicate Enabled(s: State, e: Event) {
    match e
    case Tick(_) => true
    case Begin(id) => id !in s.calls
    case SetRuns(id) => id in s.calls && s.calls[id].phase.Asking?
    case SetFails(id) => id in s.calls && s.calls[id].phase.Asking?
    case ReplyArrives(id) => id in s.calls && (s.calls[id].phase.Granted? || s.calls[id].phase.Refused?)
    case ReplyLost(id) => id in s.calls && s.calls[id].phase.Granted?
    case SetRepeats(id) => id in s.calls && s.calls[id].phase.Granted? && Alive(s.key, s.now)
    case BodyEnds(id) => id in s.calls && (s.calls[id].phase.Running? || s.calls[id].phase.RunningUnlocked?)
    case ReleaseRuns(id) => id in s.calls && s.calls[id].phase.Releasing?
    case ReleaseFails(id) => id in s.calls && s.calls[id].phase.Releasing?
    case Evict => s.key.Some?
  }

  function Move(s: State, id: nat, phase: Phase): State
    requires id in s.calls
  {
    s.(calls := s.calls[id := s.calls[id].(phase := phase)])
  }

  function MarkEvicted(call: Call): Call { call.(evicted := true) }

  function Step(s: State, e: Event, ttl: nat): State
    requires Enabled(s, e)
  {
    match e
    case Tick(elapsed) => s.(now := s.now + elapsed)
    case Begin(id) => s.(calls := s.calls[id := Call(Asking, false)])
    case SetRuns(id) =>
      if Alive(s.key, s.now) then Move(s, id, Refused)
      else s.(key := AfterSet(s.key, id, s.now, ttl), calls := s.calls[id := Call(Granted(s.now), false)])
    case SetFails(id) => Move(s, id, RunningUnlocked)
    case ReplyArrives(id) =>
      if s.calls[id].phase.Granted? then Move(s, id, Running(s.calls[id].phase.since)) else Move(s, id, Over)
    case ReplyLost(id) => Move(s, id, RunningUnlocked)
    case SetRepeats(id) => Move(s, id, Over)
    case BodyEnds(id) =>
      if s.calls[id].phase.Running? then Move(s, id, Releasing(s.calls[id].phase.since)) else Move(s, id, Over)
    case ReleaseRuns(id) => Move(s, id, Over).(key := AfterRelease(s.key, id, s.now))
    case ReleaseFails(id) => Move(s, id, Over)
    case Evict => s.(key := None, calls := map id | id in s.calls :: MarkEvicted(s.calls[id]))
  }

  predicate Valid(s: State, events: seq<Event>, ttl: nat)
    decreases |events|, 0
  {
    events == [] || (Valid(s, events[..|events| - 1], ttl)
                     && Enabled(Exec(s, events[..|events| - 1], ttl), events[|events| - 1]))
  }

  function Exec(s: State, events: seq<Event>, ttl: nat): State
    requires Valid(s, events, ttl)
    decreases |events|, 1
  {
    if events == [] then s
    else Step(Exec(s, events[..|events| - 1], ttl), events[|events| - 1], ttl)
  }

  // ----- exclusion -----

  predicate InBody(s: State, id: nat) {
    id in s.calls && (s.calls[id].phase.Running? || s.calls[id].phase.RunningUnlocked?)
  }

  predicate Won(call: Call) { call.phase.Granted? || call.phase.Running? || call.phase.Releasing? }

  /** The call won the key, its time to live has not passed, and Redis still has it. */
  predicate Protected(s: State, id: nat, ttl: nat) {
    && id in s.calls && !s.calls[id].evicted && Won(s.calls[id])
    && s.now < s.calls[id].phase.since + ttl
  }

  /** The key holds the token of every protected call. */
  ghost predicate KeyHeld(s: State, ttl: nat) {
    forall id :: Protected(s, id, ttl) ==> s.key == Some(Held(id, s.calls[id].phase.since + ttl))
  }

  predicate KeyKnown(s: State) { s.key.Some? ==> s.key.value.token in s.calls }

  /** A key that still stands was set when its call won it. */
  predicate KeyGenuine(key: Key, call: Call, ttl: nat) {
    key.Some? && Won(call) ==> !call.evicted && key.value.expires == call.phase.since + ttl
  }

  ghost predicate Inv(s: State, ttl: nat) {
    KeyHeld(s, ttl) && KeyKnown(s) && (s.key.Some? ==> KeyGenuine(s.key, s.calls[s.key.value.token], ttl))
  }

  lemma StepKeepsHeld(s: State, e: Event, ttl: nat)
    requires KeyHeld(s, ttl) && Enabled(s, e)
    ensures KeyHeld(Step(s, e, ttl), ttl)
  {
    var t := Step(s, e, ttl);
    forall id | Protected(t, id, ttl) ensures t.key == Some(Held(id, t.calls[id].phase.since + ttl)) {
      if !(e.SetRuns? && e.id == id) {
        assert Protected(s, id, ttl);
      }
    }
  }

  lemma StepKeepsKnown(s: State, e: Event, ttl: nat)
    requires KeyKnown(s) && Enabled(s, e)
    ensures KeyKnown(Step(s, e, ttl))
  {
  }

  lemma StepKeepsGenuine(s: State, e: Event, ttl: nat)
    requires KeyKnown(s) && (s.key.Some? ==> KeyGenuine(s.key, s.calls[s.key.value.token], ttl)) && Enabled(s, e)
    ensures var t := Step(s, e, ttl);
      KeyKnown(t) && (t.key.Some? ==> KeyGenuine(t.key, t.calls[t.key.value.token], ttl))
  {
    StepKeepsKnown(s, e, ttl);
    var t := Step(s, e, ttl);
    if t.key.Some? && t.key == s.key {
      var id := t.key.value.token;
      assert Won(t.calls[id]) && !e.SetRuns? ==> Won(s.calls[id]) && t.calls[id].phase.since == s.calls[id].phase.since;
    }
  }

  lemma StepKeepsInv(s: State, e: Event, ttl: nat)
    requires Inv(s, ttl) && Enabled(s, e)
    ensures Inv(Step(s, e, ttl), ttl)
  {
    hide Step, Enabled, KeyHeld, KeyKnown, KeyGenuine;
    StepKeepsHeld(s, e, ttl);
    StepKeepsGenuine(s, e, ttl);
  }

  lemma {:induction false} RunKeepsInv(events: seq<Event>, ttl: nat)
    requires Valid(INIT, events, ttl)
    ensures Inv(Exec(INIT, events, ttl), ttl)
  {
    hide Step, Enabled, Inv;
    if events == [] {
      InitInv(ttl);
    } else {
      RunKeepsInv(events[..|events| - 1], ttl);
      StepKeepsInv(Exec(INIT, events[..|events| - 1], ttl), events[|events| - 1], ttl);
    }
  }

  lemma InitInv(ttl: nat)
    ensures Inv(INIT, ttl)
  {
  }

  /** The event is one of another call, or the clock's. */
  predicate NotOf(e: Event, id: nat) { e.Tick? || (!e.Evict? && e.id != id) }

  lemma OthersKeepProtected(s: State, e: Event, ttl: nat, a: nat)
    requires Protected(s, a, ttl) && Enabled(s, e) && NotOf(e, a)
    requires Step(s, e, ttl).now < s.calls[a].phase.since + ttl
    ensures Protected(Step(s, e, ttl), a, ttl) && Step(s, e, ttl).calls[a] == s.calls[a]
  {
  }

  lemma TimeAdvances(s: State, e: Event, ttl: nat)
    requires Enabled(s, e)
    ensures s.now <= Step(s, e, ttl).now
  {
  }

  /**
   Whatever all other calls do - releases that come after their own time to live, retries,
   errors - a protected call stays protected, and the key its own, until its time to live
   has passed.
   */
  lemma OthersNeverUnlock(before: seq<Event>, s: State, events: seq<Event>, ttl: nat, a: nat)
    requires Valid(INIT, before, ttl) && Exec(INIT, before, ttl) == s && Protected(s, a, ttl)
    requires Valid(s, events, ttl) && forall e :: e in events ==> NotOf(e, a)
    requires Exec(s, events, ttl).now < s.calls[a].phase.since + ttl
    ensures var t := Exec(s, events, ttl);
      && Protected(t, a, ttl) && t.calls[a] == s.calls[a]
      && t.key == Some(Held(a, s.calls[a].phase.since + ttl))
  {
    RunKeepsInv(before, ttl);
    StaysProtected(s, events, ttl, a);
  }

  lemma {:induction false} StaysProtected(s: State, events: seq<Event>, ttl: nat, a: nat)
    requires Inv(s, ttl) && Protected(s, a, ttl)
    requires Valid(s, events, ttl) && forall e :: e in events ==> NotOf(e, a)
    requires Exec(s, events, ttl).now < s.calls[a].phase.since + ttl
    ensures var t := Exec(s, events, ttl);
      && Inv(t, ttl) && Protected(t, a, ttl) && t.calls[a] == s.calls[a]
      && t.key == Some(Held(a, s.calls[a].phase.since + ttl))
    decreases |events|
  {
    hide Step, Enabled, Protected;
    if events != [] {
      var front, e := events[..|events| - 1], events[|events| - 1];
      assert forall x :: x in front ==> x in events;
      assert e in events;
      TimeAdvances(Exec(s, front, ttl), e, ttl);
      StaysProtected(s, front, ttl, a);
      StepKeepsInv(Exec(s, front, ttl), e, ttl);
      OthersKeepProtected(Exec(s, front, ttl), e, ttl, a);
    }
    HeldWhileProtected(Exec(s, events, ttl), ttl, a);
  }

  lemma HeldWhileProtected(s: State, ttl: nat, a: nat)
    requires Inv(s, ttl) && Protected(s, a, ttl)
    ensures s.key == Some(Held(a, s.calls[a].phase.since + ttl))
  {
  }

  /** In every run: two bodies that are both within their time to live, under locks Redis still has, are one body. */
  lemma ProtectedBodiesExclude(events: seq<Event>, ttl: nat, a: nat, b: nat)
    requires Valid(INIT, events, ttl)
    requires Protected(Exec(INIT, events, ttl), a, ttl) && Protected(Exec(INIT, events, ttl), b, ttl)
    ensures a == b
  {
    hide Exec, Valid;
    RunKeepsInv(events, ttl);
  }

  predicate Overran(s: State, id: nat, ttl: nat) {
    id in s.calls && s.calls[id].phase.Running? && s.now >= s.calls[id].phase.since + ttl
  }

  ghost predicate NoErrors(events: seq<Event>) {
    forall e :: e in events ==> !e.SetFails? && !e.ReplyLost? && !e.Evict?
  }

  ghost predicate NoFaults(s: State) {
    forall id :: id in s.calls ==> !s.calls[id].evicted && !s.calls[id].phase.RunningUnlocked?
  }

  lemma {:induction false} ErrorFreeHasNoFaults(events: seq<Event>, ttl: nat)
    requires Valid(INIT, events, ttl) && NoErrors(events)
    ensures NoFaults(Exec(INIT, events, ttl))
  {
    if events != [] {
      ErrorFreeHasNoFaults(events[..|events| - 1], ttl);
      assert events[|events| - 1] in events;
    }
  }

  /** Without Redis errors, two bodies overlap only while one of them outlives its time to live. */
  lemma BodiesOverlapOnlyPastTtl(events: seq<Event>, ttl: nat, a: nat, b: nat)
    requires Valid(INIT, events, ttl) && NoErrors(events) && a != b
    requires InBody(Exec(INIT, events, ttl), a) && InBody(Exec(INIT, events, ttl), b)
    ensures Overran(Exec(INIT, events, ttl), a, ttl) || Overran(Exec(INIT, events, ttl), b, ttl)
  {
    hide Exec, Valid;
    ErrorFreeHasNoFaults(events, ttl);
    RunKeepsInv(events, ttl);
  }

  // ----- the bound is exact -----

  /** A body that runs under the lock keeps others out exactly as long as it is protected. */
  lemma KeepsOthersOutExactly(events: seq<Event>, ttl: nat, a: nat)
    requires Valid(INIT, events, ttl)
    requires a in Exec(INIT, events, ttl).calls && Exec(INIT, events, ttl).calls[a].phase.Running?
    ensures var s := Exec(INIT, events, ttl);
      Protected(s, a, ttl) <==> Alive(s.key, s.now) && s.key.value.token == a
  {
    hide Exec, Valid;
    RunKeepsInv(events, ttl);
  }

  lemma Extend(s: State, events: seq<Event>, e: Event, ttl: nat) returns (longer: seq<Event>)
    requires Valid(s, events, ttl) && Enabled(Exec(s, events, ttl), e)
    ensures longer == events + [e]
    ensures Valid(s, longer, ttl) && Exec(s, longer, ttl) == Step(Exec(s, events, ttl), e, ttl)
  {
    longer := events + [e];
    assert longer[..|longer| - 1] == events;
  }

  /** When the key is not there, a new call enters its body at once, whatever bodies still run. */
  lemma FreeKeyAdmitsAnother(s: State, b: nat, ttl: nat) returns (events: seq<Event>)
    requires !Alive(s.key, s.now) && b !in s.calls && ttl > 0
    ensures Valid(s, events, ttl) && Exec(s, events, ttl).now == s.now
    ensures InBody(Exec(s, events, ttl), b) && Protected(Exec(s, events, ttl), b, ttl)
    ensures forall a :: InBody(s, a) ==> InBody(Exec(s, events, ttl), a)
  {
    events := [];
    assert Valid(s, events, ttl) && Exec(s, events, ttl) == s;
    hide Exec, Valid;
    events := Extend(s, events, Begin(b), ttl);
    events := Extend(s, events, SetRuns(b), ttl);
    events := Extend(s, events, ReplyArrives(b), ttl);
  }

  /** While the key stands, a new call is turned away: its body never starts. */
  lemma HeldKeyTurnsAway(s: State, b: nat, ttl: nat) returns (events: seq<Event>)
    requires Alive(s.key, s.now) && b !in s.calls
    ensures Valid(s, events, ttl) && events == [Begin(b), SetRuns(b), ReplyArrives(b)]
    ensures var t := Exec(s, events, ttl); t.key == s.key && b in t.calls && t.calls[b].phase == Over
    ensures forall e :: e in [SetRuns(b), SetFails(b), ReplyArrives(b), ReplyLost(b), SetRepeats(b), BodyEnds(b)] ==>
      !Enabled(Exec(s, events, ttl), e)
  {
    events := [];
    assert Valid(s, events, ttl) && Exec(s, events, ttl) == s;
    hide Exec, Valid;
    events := Extend(s, events, Begin(b), ttl);
    events := Extend(s, events, SetRuns(b), ttl);
    events := Extend(s, events, ReplyArrives(b), ttl);
  }

  /** A call that finds the key free, up to the start of its body. */
  lemma GrantSteps(s: State, b: nat, ttl: nat)
    requires !Alive(s.key, s.now) && b !in s.calls
    ensures Enabled(s, Begin(b))
    ensures Enabled(Step(s, Begin(b), ttl), SetRuns(b))
    ensures Enabled(Step(Step(s, Begin(b), ttl), SetRuns(b), ttl), ReplyArrives(b))
    ensures Step(Step(Step(s, Begin(b), ttl), SetRuns(b), ttl), ReplyArrives(b), ttl)
         == State(s.now, Some(Held(b, s.now + ttl)), s.calls[b := Call(Running(s.now), false)])
  {
  }

  /** A body that ends, and its release. */
  lemma ReleaseSteps(s: State, a: nat, ttl: nat)
    requires a in s.calls && s.calls[a].phase.Running? && Alive(s.key, s.now) && s.key.value.token == a
    ensures Enabled(s, BodyEnds(a))
    ensures Enabled(Step(s, BodyEnds(a), ttl), ReleaseRuns(a))
    ensures Step(Step(s, BodyEnds(a), ttl), ReleaseRuns(a), ttl)
         == State(s.now, None, s.calls[a := s.calls[a].(phase := Over)])
  {
  }

  /** A body that ends under its lock gives the key back at once, and the next call starts its body. */
  lemma ReleaseAdmitsNext(s: State, a: nat, b: nat, ttl: nat) returns (events: seq<Event>)
    requires a in s.calls && s.calls[a].phase.Running? && Alive(s.key, s.now) && s.key.value.token == a
    requires b !in s.calls && ttl > 0
    ensures Valid(s, events, ttl) && Exec(s, events, ttl).now == s.now
    ensures var t := Exec(s, events, ttl);
      && a in t.calls && t.calls[a].phase == Over
      && InBody(t, b) && t.key == Some(Held(b, s.now + ttl))
  {
    events := [];
    assert Valid(s, events, ttl) && Exec(s, events, ttl) == s;
    hide Exec, Valid, Step, Enabled;
    ReleaseSteps(s, a, ttl);
    GrantSteps(State(s.now, None, s.calls[a := s.calls[a].(phase := Over)]), b, ttl);
    events := Extend(s, events, BodyEnds(a), ttl);
    events := Extend(s, events, ReleaseRuns(a), ttl);
    events := Extend(s, events, Begin(b), ttl);
    events := Extend(s, events, SetRuns(b), ttl);
    events := Extend(s, events, ReplyArrives(b), ttl);
  }

  /** After an error the body runs, whoever holds the lock. */
  lemma ErrorRunsUnlocked(s: State, b: nat, ttl: nat) returns (events: seq<Event>)
    requires b !in s.calls
    ensures Valid(s, events, ttl) && InBody(Exec(s, events, ttl), b)
    ensures forall a :: InBody(s, a) ==> InBody(Exec(s, events, ttl), a)
  {
    events := [];
    assert Valid(s, events, ttl) && Exec(s, events, ttl) == s;
    hide Exec, Valid;
    events := Extend(s, events, Begin(b), ttl);
    events := Extend(s, events, SetFails(b), ttl);
  }
}
