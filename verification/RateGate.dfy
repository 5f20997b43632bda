/**
 The shared rate gate of the plugin client: a counter per minute in Redis that expires 65
 seconds after its first increment. Any number of requests go through it; a request reads
 the clock first and is through the gate at most `delay` milliseconds later.
 */
module RateGate {
  import opened Common

  const MINUTE: nat := 60000

  const EXPIRY: nat := 65000

  /** Math.floor(rate * 0.9) */
  function Ceiling(rate: real): (ceiling: int)
    ensures ceiling as real <= rate * 0.9 < ceiling as real + 1.0
  {
    (rate * 0.9).Floor
  }

  function MinuteOf(at: nat): nat { at / MINUTE }

  datatype Counter = Counter(count: nat, expires: Option<nat>)

  /** A request: it has read the clock, or is the first of its minute and sets the expiry, or is done. */
  datatype Request = ReadClock(at: nat) | SetsExpiry(at: nat) | Finished

  /** A request let through: its clock reading, and when it left the gate. */
  datatype Pass = Pass(at: nat, time: nat)

  datatype State = State(now: nat, counters: map<nat, Counter>, requests: map<nat, Request>, passed: seq<Pass>)

  datatype Event =
    | Tick(elapsed: nat)
    | Arrive(id: nat)
    | Increment(id: nat)
    | ExpirySet(id: nat)
    | ExpiryFails(id: nat)      // the call fails; the counter stays without an expiry

  const INIT := State(0, map[], map[], [])

  predicate Alive(s: State, minute: nat) {
    minute in s.counters && (s.counters[minute].expires.None? || s.now < s.counters[minute].expires.value)
  }

  function Counted(s: State, minute: nat): nat {
    if Alive(s, minute) then s.counters[minute].count + 1 else 1
  }

  predicate Enabled(s: State, e: Event, delay: nat) {
    match e
    case Tick(_) => true
    case Arrive(id) => id !in s.requests
    case Increment(id) => id in s.requests && s.requests[id].ReadClock? && s.now <= s.requests[id].at + delay
    case ExpirySet(id) => id in s.requests && s.requests[id].SetsExpiry? && s.now <= s.requests[id].at + delay
    case ExpiryFails(id) => id in s.requests && s.requests[id].SetsExpiry?
  }

  function Admitted(s: State, at: nat, count: nat, ceiling: int): seq<Pass> {
    if count <= ceiling then s.passed + [Pass(at, s.now)] else s.passed
  }

  function Step(s: State, e: Event, delay: nat, ceiling: int): State
    requires Enabled(s, e, delay)
  {
    match e
    case Tick(elapsed) => s.(now := s.now + elapsed)
    case Arrive(id) => s.(requests := s.requests[id := ReadClock(s.now)])
    case Increment(id) =>
      var at := s.requests[id].at;
      var minute := MinuteOf(at);
      var count := Counted(s, minute);
      if count == 1 then
        s.(counters := s.counters[minute := Counter(1, None)], requests := s.requests[id := SetsExpiry(at)])
      else
        s.(counters := s.counters[minute := s.counters[minute].(count := count)],
           requests := s.requests[id := Finished], passed := Admitted(s, at, count, ceiling))
    case ExpirySet(id) =>
      var at := s.requests[id].at;
      var minute := MinuteOf(at);
      s.(counters := if Alive(s, minute)
                     then s.counters[minute := s.counters[minute].(expires := Some(s.now + EXPIRY))] else s.counters,
         requests := s.requests[id := Finished], passed := Admitted(s, at, 1, ceiling))
    case ExpiryFails(id) => s.(requests := s.requests[id := Finished])
  }

  predicate Valid(s: State, events: seq<Event>, delay: nat, ceiling: int)
    decreases |events|, 0
  {
    events == [] || (Valid(s, events[..|events| - 1], delay, ceiling)
                     && Enabled(Exec(s, events[..|events| - 1], delay, ceiling), events[|events| - 1], delay))
  }

  function Exec(s: State, events: seq<Event>, delay: nat, ceiling: int): State
    requires Valid(s, events, delay, ceiling)
    decreases |events|, 1
  {
    if events == [] then s
    else Step(Exec(s, events[..|events| - 1], delay, ceiling), events[|events| - 1], delay, ceiling)
  }

  /** The gate as one request goes through it; its calls to Redis run at the times `now` and `later`. */
  class Gate {
    var counters: map<nat, Counter>

    constructor ()
      ensures counters == map[]
    {
      counters := map[];
    }

    method Check(at: nat, now: nat, later: nat, ceiling: int) returns (passes: bool)
      requires at <= now <= later
      modifies this
      ensures var s := Step(State(now, old(counters), map[0 := ReadClock(at)], []), Increment(0), later - at, ceiling);
        var t := if s.requests[0].SetsExpiry? then Step(s.(now := later), ExpirySet(0), later - at, ceiling) else s;
        counters == t.counters && passes == (t.passed != [])
      ensures var minute := at / 60000;
        var alive := minute in old(counters)
                     && (old(counters)[minute].expires.None? || now < old(counters)[minute].expires.value);
        var count := if alive then old(counters)[minute].count + 1 else 1;
        && minute in counters && counters[minute].count == count && passes == (count <= ceiling)
        && counters[minute].expires
           == (if count == 1 then Some(later + 65000) else old(counters)[minute].expires)
        && forall m :: m != minute ==> (m in counters <==> m in old(counters))
                                       && (m in counters ==> counters[m] == old(counters)[m])
    {
      var minute := MinuteOf(at);
      var alive := minute in counters
                   && (counters[minute].expires.None? || now < counters[minute].expires.value);
      var count := if alive then counters[minute].count + 1 else 1;
      counters := counters[minute := Counter(count, if alive then counters[minute].expires else None)];
      if count == 1 {
        counters := counters[minute := Counter(1, Some(later + EXPIRY))];
      }
      passes := count <= ceiling;
    }
  }

  // ----- how many pass -----

  /** The requests let through whose clock reading lies in a minute. */
  function PassedIn(passed: seq<Pass>, minute: nat): nat {
    if passed == [] then 0
    else PassedIn(passed[..|passed| - 1], minute) + if MinuteOf(passed[|passed| - 1].at) == minute then 1 else 0
  }

  /** The requests that left the gate from `from` up to but not including `to`. */
  function PassedDuring(passed: seq<Pass>, from: nat, to: nat): nat {
    if passed == [] then 0
    else PassedDuring(passed[..|passed| - 1], from, to) + if from <= passed[|passed| - 1].time < to then 1 else 0
  }

  /** A request of the minute that has incremented the counter as its first and not passed yet. */
  ghost predicate Pending(s: State, id: nat, minute: nat) {
    id in s.requests && s.requests[id].SetsExpiry? && MinuteOf(s.requests[id].at) == minute
  }

  ghost function Waiting(s: State, minute: nat): nat { if exists id :: Pending(s, id, minute) then 1 else 0 }

  ghost predicate OneFirst(s: State, minute: nat) {
    forall a, b :: Pending(s, a, minute) && Pending(s, b, minute) ==> a == b
  }

  /** A counter that is to expire does so no earlier than 65 seconds into its minute, and after its first request. */
  ghost predicate ExpiresLate(s: State, minute: nat) {
    minute in s.counters && s.counters[minute].expires.Some? ==>
      s.counters[minute].expires.value >= minute * MINUTE + EXPIRY && Waiting(s, minute) == 0
  }

  /** The counter has counted whatever passed or is about to. */
  ghost predicate Covers(s: State, minute: nat, ceiling: int) {
    var used := PassedIn(s.passed, minute) + Waiting(s, minute);
    && used <= (if minute in s.counters then s.counters[minute].count else 0)
    && (if ceiling >= 1 then used <= ceiling else PassedIn(s.passed, minute) == 0)
  }

  ghost predicate ClockRead(s: State) {
    forall id :: id in s.requests && !s.requests[id].Finished? ==> s.requests[id].at <= s.now
  }

  ghost predicate MinuteInv(s: State, minute: nat, ceiling: int) {
    ClockRead(s) && OneFirst(s, minute) && ExpiresLate(s, minute) && Covers(s, minute, ceiling)
  }

  lemma MinuteSpan(at: nat, minute: nat)
    ensures MinuteOf(at) == minute <==> minute * MINUTE <= at < (minute + 1) * MINUTE
  {
  }

  lemma PassedAppend(passed: seq<Pass>, p: Pass, minute: nat)
    ensures PassedIn(passed + [p], minute) == PassedIn(passed, minute) + if MinuteOf(p.at) == minute then 1 else 0
  {
    assert (passed + [p])[..|passed|] == passed;
  }

  /** The expired counter of a minute is out of reach of the requests of that minute. */
  lemma NoLateIncrement(s: State, id: nat, delay: nat)
    requires Enabled(s, Increment(id), delay) && delay <= EXPIRY - MINUTE
    requires MinuteOf(s.requests[id].at) in s.counters && ExpiresLate(s, MinuteOf(s.requests[id].at))
    ensures Alive(s, MinuteOf(s.requests[id].at))
  {
    MinuteSpan(s.requests[id].at, MinuteOf(s.requests[id].at));
  }

  /** An event that lets the requests waiting for a minute be, and neither counts nor passes in it. */
  lemma OtherMinute(s: State, t: State, minute: nat, ceiling: int)
    requires MinuteInv(s, minute, ceiling) && ClockRead(t)
    requires forall id :: Pending(s, id, minute) <==> Pending(t, id, minute)
    requires PassedIn(t.passed, minute) == PassedIn(s.passed, minute)
    requires minute in s.counters <==> minute in t.counters
    requires minute in s.counters ==> s.counters[minute] == t.counters[minute]
    ensures MinuteInv(t, minute, ceiling)
  {
    hide Pending, PassedIn;
    assert Waiting(s, minute) == Waiting(t, minute);
  }

  lemma FirstIncrement(s: State, id: nat, delay: nat, ceiling: int)
    requires Enabled(s, Increment(id), delay) && delay <= EXPIRY - MINUTE
    requires MinuteInv(s, MinuteOf(s.requests[id].at), ceiling)
    requires Counted(s, MinuteOf(s.requests[id].at)) == 1
    ensures MinuteInv(Step(s, Increment(id), delay, ceiling), MinuteOf(s.requests[id].at), ceiling)
  {
    hide PassedIn;
    var minute := MinuteOf(s.requests[id].at);
    var t := Step(s, Increment(id), delay, ceiling);
    if minute in s.counters {
      NoLateIncrement(s, id, delay);
    }
    assert Waiting(s, minute) == 0 && PassedIn(s.passed, minute) == 0;
    forall other | Pending(t, other, minute) ensures other == id {
      assert other != id ==> Pending(s, other, minute);
    }
  }

  lemma LaterIncrement(s: State, id: nat, delay: nat, ceiling: int)
    requires Enabled(s, Increment(id), delay) && Counted(s, MinuteOf(s.requests[id].at)) != 1
    requires MinuteInv(s, MinuteOf(s.requests[id].at), ceiling)
    ensures MinuteInv(Step(s, Increment(id), delay, ceiling), MinuteOf(s.requests[id].at), ceiling)
  {
    hide PassedIn;
    var minute := MinuteOf(s.requests[id].at);
    var t := Step(s, Increment(id), delay, ceiling);
    PassedAppend(s.passed, Pass(s.requests[id].at, s.now), minute);
    forall other ensures Pending(s, other, minute) <==> Pending(t, other, minute) { }
    assert Waiting(s, minute) == Waiting(t, minute);
  }

  lemma FirstPasses(s: State, e: Event, delay: nat, ceiling: int)
    requires Enabled(s, e, delay) && (e.ExpirySet? || e.ExpiryFails?)
    requires MinuteInv(s, MinuteOf(s.requests[e.id].at), ceiling)
    ensures MinuteInv(Step(s, e, delay, ceiling), MinuteOf(s.requests[e.id].at), ceiling)
  {
    hide PassedIn;
    var at := s.requests[e.id].at;
    var minute := MinuteOf(at);
    var t := Step(s, e, delay, ceiling);
    PassedAppend(s.passed, Pass(at, s.now), minute);
    MinuteSpan(at, minute);
    assert Pending(s, e.id, minute);
    forall other ensures !Pending(t, other, minute) {
      assert Pending(t, other, minute) ==> other != e.id && Pending(s, other, minute);
    }
    assert Waiting(t, minute) == 0 && Waiting(s, minute) == 1;
  }

  lemma StepKeepsClock(s: State, e: Event, delay: nat, ceiling: int)
    requires ClockRead(s) && Enabled(s, e, delay)
    ensures ClockRead(Step(s, e, delay, ceiling))
  {
    hide MinuteOf, Alive, Counted, Admitted;
  }

  lemma StepKeepsMinute(s: State, e: Event, delay: nat, ceiling: int, minute: nat)
    requires MinuteInv(s, minute, ceiling) && Enabled(s, e, delay) && delay <= EXPIRY - MINUTE
    ensures MinuteInv(Step(s, e, delay, ceiling), minute, ceiling)
  {
    hide PassedIn, MinuteOf, OneFirst, ExpiresLate, Covers, ClockRead, Alive;
    var t := Step(s, e, delay, ceiling);
    StepKeepsClock(s, e, delay, ceiling);
    if (e.Increment? || e.ExpirySet? || e.ExpiryFails?) && MinuteOf(s.requests[e.id].at) == minute {
      if !e.Increment? {
        FirstPasses(s, e, delay, ceiling);
      } else if Counted(s, minute) == 1 {
        FirstIncrement(s, e.id, delay, ceiling);
      } else {
        LaterIncrement(s, e.id, delay, ceiling);
      }
    } else {
      if e.Increment? || e.ExpirySet? {
        PassedAppend(s.passed, Pass(s.requests[e.id].at, s.now), minute);
      }
      forall id ensures Pending(s, id, minute) <==> Pending(t, id, minute) { }
      OtherMinute(s, t, minute, ceiling);
    }
  }

  lemma {:induction false} RunKeepsMinute(events: seq<Event>, delay: nat, ceiling: int, minute: nat)
    requires Valid(INIT, events, delay, ceiling) && delay <= EXPIRY - MINUTE
    ensures MinuteInv(Exec(INIT, events, delay, ceiling), minute, ceiling)
  {
    hide Step, Enabled, MinuteInv;
    if events == [] {
      InitMinute(minute, ceiling);
    } else {
      RunKeepsMinute(events[..|events| - 1], delay, ceiling, minute);
      StepKeepsMinute(Exec(INIT, events[..|events| - 1], delay, ceiling), events[|events| - 1], delay, ceiling, minute);
    }
  }

  lemma InitMinute(minute: nat, ceiling: int)
    ensures MinuteInv(INIT, minute, ceiling)
  {
  }

  /**
   When every request is through the gate within five seconds of reading the clock, a
   minute never lets more through than its ceiling.
   */
  lemma MinuteKeepsCeiling(events: seq<Event>, delay: nat, rate: real, minute: nat)
    requires rate > 0.0 && delay <= 5000 && Valid(INIT, events, delay, Ceiling(rate))
    ensures PassedIn(Exec(INIT, events, delay, Ceiling(rate)).passed, minute) <= Ceiling(rate)
    ensures PassedIn(Exec(INIT, events, delay, Ceiling(rate)).passed, minute) as real <= 0.9 * rate
  {
    hide Exec, Valid, PassedIn;
    RunKeepsMinute(events, delay, Ceiling(rate), minute);
  }

  // ----- any 60 seconds -----

  /** Every request left the gate within the delay. */
  ghost predicate InTime(passed: seq<Pass>, delay: nat) {
    forall i :: 0 <= i < |passed| ==> passed[i].at <= passed[i].time <= passed[i].at + delay
  }

  lemma {:induction false} RunKeepsInTime(events: seq<Event>, delay: nat, ceiling: int)
    requires Valid(INIT, events, delay, ceiling)
    ensures ClockRead(Exec(INIT, events, delay, ceiling)) && InTime(Exec(INIT, events, delay, ceiling).passed, delay)
  {
    if events != [] {
      var front := events[..|events| - 1];
      RunKeepsInTime(front, delay, ceiling);
      StepKeepsInTime(Exec(INIT, front, delay, ceiling), events[|events| - 1], delay, ceiling);
    }
  }

  lemma StepKeepsInTime(s: State, e: Event, delay: nat, ceiling: int)
    requires ClockRead(s) && InTime(s.passed, delay) && Enabled(s, e, delay)
    ensures ClockRead(Step(s, e, delay, ceiling)) && InTime(Step(s, e, delay, ceiling).passed, delay)
  {
    StepKeepsClock(s, e, delay, ceiling);
    hide MinuteOf, Alive, Counted;
  }

  /** How many minutes the clock readings of one 60-second window can lie in. */
  function MinutesPerWindow(delay: nat): nat { if delay <= 1 then 2 else 3 }

  /** The first minute in which a request that leaves the gate from `from` on can have read the clock. */
  function FirstMinute(from: nat, delay: nat): nat { MinuteOf(if from >= delay then from - delay else 0) }

  lemma ReadingMinute(p: Pass, from: nat, delay: nat)
    requires p.at <= p.time <= p.at + delay && from <= p.time < from + MINUTE && delay <= 5000
    ensures FirstMinute(from, delay) <= MinuteOf(p.at) < FirstMinute(from, delay) + MinutesPerWindow(delay)
  {
    var base := if from >= delay then from - delay else 0;
    assert base <= p.at < base + MINUTE + (if delay <= 1 then 1 else 5000);
  }

  function PassedInMinutes(passed: seq<Pass>, first: nat, n: nat): nat {
    if n == 0 then 0 else PassedInMinutes(passed, first, n - 1) + PassedIn(passed, first + n - 1)
  }

  lemma {:induction false} MinutesAppend(passed: seq<Pass>, p: Pass, first: nat, n: nat)
    ensures PassedInMinutes(passed + [p], first, n)
         == PassedInMinutes(passed, first, n) + if first <= MinuteOf(p.at) < first + n then 1 else 0
    decreases n
  {
    if n > 0 {
      MinutesAppend(passed, p, first, n - 1);
      PassedAppend(passed, p, first + n - 1);
    }
  }

  lemma {:induction false} WindowInMinutes(passed: seq<Pass>, from: nat, delay: nat)
    requires InTime(passed, delay) && delay <= 5000
    ensures PassedDuring(passed, from, from + MINUTE)
         <= PassedInMinutes(passed, FirstMinute(from, delay), MinutesPerWindow(delay))
  {
    hide PassedInMinutes, FirstMinute, MinutesPerWindow, MinuteOf;
    if passed != [] {
      var front, p := passed[..|passed| - 1], passed[|passed| - 1];
      WindowInMinutes(front, from, delay);
      assert passed == front + [p];
      MinutesAppend(front, p, FirstMinute(from, delay), MinutesPerWindow(delay));
      if from <= p.time < from + MINUTE { ReadingMinute(p, from, delay); }
    }
  }

  lemma {:induction false} MinutesKeepCeiling(passed: seq<Pass>, first: nat, n: nat, ceiling: nat)
    requires forall m :: PassedIn(passed, m) <= ceiling
    ensures PassedInMinutes(passed, first, n) <= n * ceiling
    decreases n
  {
    hide PassedIn;
    if n > 0 {
      MinutesKeepCeiling(passed, first, n - 1, ceiling);
      assert n * ceiling == (n - 1) * ceiling + ceiling;
    }
  }

  /**
   In any 60 seconds at most three times the ceiling leaves the gate, and at most twice
   when no request takes longer than a millisecond.
   */
  lemma WindowKeepsCeilings(events: seq<Event>, delay: nat, rate: real, from: nat)
    requires rate > 0.0 && delay <= 5000 && Valid(INIT, events, delay, Ceiling(rate))
    ensures PassedDuring(Exec(INIT, events, delay, Ceiling(rate)).passed, from, from + MINUTE)
         <= MinutesPerWindow(delay) * Ceiling(rate)
  {
    hide Exec, Valid, PassedIn, PassedDuring, PassedInMinutes, MinutesPerWindow;
    var passed := Exec(INIT, events, delay, Ceiling(rate)).passed;
    RunKeepsInTime(events, delay, Ceiling(rate));
    forall m ensures PassedIn(passed, m) <= Ceiling(rate) {
      MinuteKeepsCeiling(events, delay, rate, m);
    }
    WindowInMinutes(passed, from, delay);
    MinutesKeepCeiling(passed, FirstMinute(from, delay), MinutesPerWindow(delay), Ceiling(rate));
  }

  // ----- the bounds are reached -----

  ghost predicate Reachable(s: State, delay: nat, ceiling: int) {
    exists events :: Valid(INIT, events, delay, ceiling) && Exec(INIT, events, delay, ceiling) == s
  }

  lemma Go(s: State, e: Event, delay: nat, ceiling: int) returns (t: State)
    requires Reachable(s, delay, ceiling) && Enabled(s, e, delay)
    ensures Reachable(t, delay, ceiling) && t == Step(s, e, delay, ceiling)
  {
    hide Step, Enabled;
    t := Step(s, e, delay, ceiling);
    var events :| Valid(INIT, events, delay, ceiling) && Exec(INIT, events, delay, ceiling) == s;
    var longer := events + [e];
    assert longer[..|longer| - 1] == events;
    assert Valid(INIT, longer, delay, ceiling) && Exec(INIT, longer, delay, ceiling) == t;
  }

  /** Ids from base on have not been used. */
  predicate Unused(s: State, base: nat) { forall id :: id in s.requests ==> id < base }

  /** The requests base to base + n have read the clock at `at` and wait to increment. */
  predicate Read(s: State, base: nat, n: nat, at: nat) {
    forall id :: base <= id < base + n ==> id in s.requests && s.requests[id] == ReadClock(at)
  }

  /** Counters have been used up to a minute only. */
  predicate UpTo(s: State, minute: int) { forall m :: m in s.counters ==> m <= minute }

  lemma {:induction false} ReadMany(s: State, base: nat, n: nat, delay: nat, ceiling: int) returns (t: State)
    requires Reachable(s, delay, ceiling) && Unused(s, base)
    ensures Reachable(t, delay, ceiling) && Unused(t, base + n) && Read(t, base, n, s.now)
    ensures t.now == s.now && t.counters == s.counters && t.passed == s.passed
    decreases n
  {
    hide Reachable;
    if n == 0 {
      t := s;
    } else {
      var u := ReadMany(s, base, n - 1, delay, ceiling);
      t := Go(u, Arrive(base + n - 1), delay, ceiling);
    }
  }

  function Copies(p: Pass, n: nat): seq<Pass> { seq(n, i => p) }

  /** The first request of a minute increments the counter, sets its expiry and is through. */
  lemma PassFirst(s: State, id: nat, delay: nat, ceiling: int) returns (t: State)
    requires Reachable(s, delay, ceiling) && id in s.requests && s.requests[id].ReadClock? && ceiling >= 1
    requires s.now <= s.requests[id].at + delay && !Alive(s, MinuteOf(s.requests[id].at))
    ensures Reachable(t, delay, ceiling) && t.now == s.now && t.passed == s.passed + [Pass(s.requests[id].at, s.now)]
    ensures t.requests == s.requests[id := Finished]
    ensures t.counters == s.counters[MinuteOf(s.requests[id].at) := Counter(1, Some(s.now + EXPIRY))]
  {
    hide Reachable, MinuteOf;
    var u := Go(s, Increment(id), delay, ceiling);
    t := Go(u, ExpirySet(id), delay, ceiling);
  }

  lemma PassNext(s: State, id: nat, delay: nat, ceiling: int) returns (t: State)
    requires Reachable(s, delay, ceiling) && id in s.requests && s.requests[id].ReadClock?
    requires s.now <= s.requests[id].at + delay && Alive(s, MinuteOf(s.requests[id].at))
    requires 1 <= s.counters[MinuteOf(s.requests[id].at)].count < ceiling
    ensures Reachable(t, delay, ceiling) && t.now == s.now && t.passed == s.passed + [Pass(s.requests[id].at, s.now)]
    ensures t.requests == s.requests[id := Finished]
    ensures var m := MinuteOf(s.requests[id].at);
      t.counters == s.counters[m := s.counters[m].(count := s.counters[m].count + 1)]
  {
    hide Reachable, MinuteOf;
    t := Go(s, Increment(id), delay, ceiling);
  }

  /** As many requests as the ceiling allows leave the gate at once. */
  lemma {:induction false} PassMany(s: State, base: nat, n: nat, at: nat, delay: nat, ceiling: int) returns (t: State)
    requires Reachable(s, delay, ceiling) && Read(s, base, n, at) && Unused(s, base + n)
    requires at <= s.now <= at + delay && n <= ceiling && UpTo(s, MinuteOf(at) - 1)
    ensures Reachable(t, delay, ceiling) && Unused(t, base + n) && UpTo(t, MinuteOf(at))
    ensures t.now == s.now && t.passed == s.passed + Copies(Pass(at, s.now), n)
    ensures n > 0 ==> MinuteOf(at) in t.counters && t.counters[MinuteOf(at)] == Counter(n, Some(s.now + EXPIRY))
    decreases n
  {
    t := PassPart(s, base, n, n, at, delay, ceiling);
  }

  lemma {:induction false} PassPart(s: State, base: nat, n: nat, k: nat, at: nat, delay: nat, ceiling: int)
    returns (t: State)
    requires Reachable(s, delay, ceiling) && Read(s, base, n, at) && Unused(s, base + n) && k <= n
    requires at <= s.now <= at + delay && n <= ceiling && UpTo(s, MinuteOf(at) - 1)
    ensures Reachable(t, delay, ceiling) && Unused(t, base + n) && UpTo(t, MinuteOf(at))
    ensures Read(t, base + k, n - k, at)
    ensures t.now == s.now && t.passed == s.passed + Copies(Pass(at, s.now), k)
    ensures if k == 0 then t == s
            else MinuteOf(at) in t.counters && t.counters[MinuteOf(at)] == Counter(k, Some(s.now + EXPIRY))
    decreases k
  {
    hide Reachable, MinuteOf;
    if k == 0 {
      t := s;
    } else {
      var u := PassPart(s, base, n, k - 1, at, delay, ceiling);
      assert u.requests[base + k - 1] == ReadClock(at);
      if k == 1 {
        t := PassFirst(u, base, delay, ceiling);
      } else {
        t := PassNext(u, base + k - 1, delay, ceiling);
      }
      assert Copies(Pass(at, s.now), k) == Copies(Pass(at, s.now), k - 1) + [Pass(at, s.now)];
    }
  }

  lemma {:induction false} CopiesCount(passed: seq<Pass>, p: Pass, n: nat, from: nat, to: nat, minute: nat)
    ensures PassedDuring(passed + Copies(p, n), from, to)
         == PassedDuring(passed, from, to) + if from <= p.time < to then n else 0
    ensures PassedIn(passed + Copies(p, n), minute)
         == PassedIn(passed, minute) + if MinuteOf(p.at) == minute then n else 0
    decreases n
  {
    if n == 0 {
      assert passed + Copies(p, 0) == passed;
    } else {
      CopiesCount(passed, p, n - 1, from, to, minute);
      var longer := passed + Copies(p, n);
      assert longer[..|longer| - 1] == passed + Copies(p, n - 1) && longer[|longer| - 1] == p;
    }
  }

  lemma InitReachable(delay: nat, ceiling: int)
    ensures Reachable(INIT, delay, ceiling)
  {
    assert Valid(INIT, [], delay, ceiling) && Exec(INIT, [], delay, ceiling) == INIT;
  }

  /** A full minute's requests read the clock and leave the gate at once. */
  lemma FullMinute(s: State, base: nat, delay: nat, ceiling: nat) returns (t: State)
    requires Reachable(s, delay, ceiling) && Unused(s, base) && UpTo(s, MinuteOf(s.now) - 1)
    ensures Reachable(t, delay, ceiling) && Unused(t, base + ceiling) && UpTo(t, MinuteOf(s.now)) && t.now == s.now
    ensures t.passed == s.passed + Copies(Pass(s.now, s.now), ceiling)
  {
    hide Reachable, MinuteOf, Copies;
    t := ReadMany(s, base, ceiling, delay, ceiling);
    t := PassMany(t, base, ceiling, s.now, delay, ceiling);
  }

  /** With at most a millisecond in the gate, two full minutes meet inside one window. */
  lemma TwoMinutesMeet(delay: nat, ceiling: nat) returns (s: State)
    ensures Reachable(s, delay, ceiling)
    ensures PassedDuring(s.passed, 59999, 59999 + MINUTE) == 2 * ceiling
  {
    hide Reachable, Copies, PassedDuring;
    InitReachable(delay, ceiling);
    s := Go(INIT, Tick(59999), delay, ceiling);
    var first := FullMinute(s, 0, delay, ceiling);
    s := Go(first, Tick(1), delay, ceiling);
    s := FullMinute(s, ceiling, delay, ceiling);
    CopiesCount([], Pass(59999, 59999), ceiling, 59999, 59999 + MINUTE, 0);
    CopiesCount(first.passed, Pass(60000, 60000), ceiling, 59999, 59999 + MINUTE, 0);
    NothingPassed(59999, 59999 + MINUTE, 0);
  }

  lemma NothingPassed(from: nat, to: nat, minute: nat)
    ensures PassedDuring([], from, to) == 0 && PassedIn([], minute) == 0
  {
  }

  /** With two milliseconds, the requests of a third minute join them. */
  lemma ThreeMinutesMeet(delay: nat, ceiling: nat) returns (s: State)
    requires delay >= 2
    ensures Reachable(s, delay, ceiling)
    ensures PassedDuring(s.passed, 60001, 60001 + MINUTE) == 3 * ceiling
  {
    hide Reachable, Copies, PassedDuring;
    InitReachable(delay, ceiling);
    s := Go(INIT, Tick(59999), delay, ceiling);
    s := ReadMany(s, 0, ceiling, delay, ceiling);
    s := Go(s, Tick(2), delay, ceiling);
    var first := PassMany(s, 0, ceiling, 59999, delay, ceiling);
    var second := FullMinute(first, ceiling, delay, ceiling);
    s := Go(second, Tick(59999), delay, ceiling);
    s := FullMinute(s, ceiling + ceiling, delay, ceiling);
    CopiesCount([], Pass(59999, 60001), ceiling, 60001, 60001 + MINUTE, 0);
    CopiesCount(first.passed, Pass(60001, 60001), ceiling, 60001, 60001 + MINUTE, 0);
    CopiesCount(second.passed, Pass(120000, 120000), ceiling, 60001, 60001 + MINUTE, 0);
    NothingPassed(60001, 60001 + MINUTE, 0);
  }

  /** The bound on a window is exact for every ceiling and every delay. */
  lemma WindowBoundReached(delay: nat, ceiling: nat) returns (s: State, from: nat)
    ensures Reachable(s, delay, ceiling)
    ensures PassedDuring(s.passed, from, from + MINUTE) == MinutesPerWindow(delay) * ceiling
  {
    hide Reachable, PassedDuring;
    if delay <= 1 {
      from := 59999;
      s := TwoMinutesMeet(delay, ceiling);
    } else {
      from := 60001;
      s := ThreeMinutesMeet(delay, ceiling);
    }
  }

  /**
   A request that is held up for more than five seconds can find its minute's counter
   expired and start it again: for every ceiling, one request too many gets through.
   */
  lemma LateRequestExceedsCeiling(delay: nat, ceiling: nat) returns (s: State)
    requires delay > 5000 && ceiling >= 1
    ensures Reachable(s, delay, ceiling) && PassedIn(s.passed, 0) == ceiling + 1
  {
    hide Reachable, Copies, PassedIn;
    InitReachable(delay, ceiling);
    var full := FullFirstMinute(delay, ceiling);
    s := Go(full, Tick(59999), delay, ceiling);
    s := Go(s, Arrive(ceiling), delay, ceiling);
    s := Go(s, Tick(5001), delay, ceiling);
    s := PassFirst(s, ceiling, delay, ceiling);
    CopiesCount([], Pass(0, 0), ceiling, 0, 0, 0);
    PassedAppend(full.passed, Pass(59999, 65000), 0);
    NothingPassed(0, 0, 0);
  }

  lemma FullFirstMinute(delay: nat, ceiling: nat) returns (s: State)
    requires ceiling >= 1
    ensures Reachable(s, delay, ceiling) && Unused(s, ceiling) && s.now == 0
    ensures s.passed == [] + Copies(Pass(0, 0), ceiling)
    ensures 0 in s.counters && s.counters[0] == Counter(ceiling, Some(EXPIRY))
  {
    hide Reachable, Copies;
    InitReachable(delay, ceiling);
    s := ReadMany(INIT, 0, ceiling, delay, ceiling);
    s := PassMany(s, 0, ceiling, 0, delay, ceiling);
  }
}
