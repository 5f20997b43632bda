/**
 One flush of an armed, unpaused tab while the socket is joined, with all its messages and
 confirmations delivered, in whatever way the two are interleaved: the buffer is empty
 afterwards and every step that had been in it has been emitted exactly once in this
 pairing, in order.
 */
module RecorderFlush {
  import opened Common
  import opened RecorderSteps
  import opened RecorderBackground
  import opened RecorderContent
  import opened RecorderProtocol
  import opened RecorderDelivery

  /** The steps the worker has not forwarded in this pairing. */
  function Unseen(steps: seq<Step>, seen: set<Cid>): seq<Step> {
    if steps == [] then []
    else Unseen(steps[..|steps| - 1], seen)
         + if steps[|steps| - 1].cid in seen then [] else [steps[|steps| - 1]]
  }

  function Emissions(steps: seq<Step>): seq<Entry> {
    seq(|steps|, i requires 0 <= i < |steps| => WasEmitted(steps[i]))
  }

  function CidsOf(steps: seq<Step>): set<Cid> { set i | 0 <= i < |steps| :: steps[i].cid }

  predicate Ready(desk: Desk, tab: nat) {
    tab != 0 && tab in desk.armed && !desk.paused && SocketReady(desk.link)
  }

  /** How the worker and the page take turns: true for a message handled, false for a confirmation returned. */
  type Schedule = seq<bool>

  function Handles(schedule: Schedule): nat {
    if schedule == [] then 0
    else Handles(schedule[..|schedule| - 1]) + if schedule[|schedule| - 1] then 1 else 0
  }

  function Confirms(schedule: Schedule): nat {
    if schedule == [] then 0
    else Confirms(schedule[..|schedule| - 1]) + if schedule[|schedule| - 1] then 0 else 1
  }

  /** At no time have more confirmations come back than messages been handled. */
  predicate Possible(schedule: Schedule, n: nat) {
    && Confirms(schedule) <= Handles(schedule) <= n
    && (schedule == [] || Possible(schedule[..|schedule| - 1], n))
  }

  /** The flush's own events, with the oldest message or confirmation first. */
  function Turns(s: State, schedule: Schedule): seq<Event> {
    seq(|schedule|, i requires 0 <= i < |schedule| =>
      if schedule[i] then Deliver(|s.wires.messages|) else AckArrives(|s.wires.acks|))
  }

  function Exchange(s: State, tab: nat, schedule: Schedule): seq<Event> { [Flush(tab)] + Turns(s, schedule) }

  /** After n of the flushed messages have been handled and m confirmations have come back. */
  function Between(s: State, tab: nat, n: nat, m: nat): State
    requires tab in s.tabs && m <= n <= |PageAt(s, tab).store.buffer|
  {
    var place, sender := PlaceOf(s, tab), s.tabs[tab].script.nonce;
    var steps, store := PageAt(s, tab).store.buffer, PageAt(s, tab).store;
    s.(tabs := s.tabs[tab := s.tabs[tab].(script := s.tabs[tab].script)],
       stores := s.stores[place := store.(buffer := steps[m..])],
       desk := s.desk.(seen := s.desk.seen + CidsOf(steps[..n])),
       wires := s.wires.(messages := s.wires.messages + Sent(place, sender, steps[n..]),
                         acks := s.wires.acks + Sent(place, sender, steps[m..n])),
       history := s.history + Emissions(Unseen(steps[..n], s.desk.seen)))
  }

  lemma FlushStarts(s: State, tab: nat)
    requires tab in s.tabs && s.tabs[tab].script.active
    ensures After(s, Flush(tab)) == Between(s, tab, 0, 0)
  {
    var steps := PageAt(s, tab).store.buffer;
    assert steps[0..] == steps && steps[..0] == [] && steps[0..0] == [];
    assert s.desk.seen + CidsOf([]) == s.desk.seen;
    assert [] + steps == steps;
    assert Noted(PlaceOf(s, tab), Flushed(PageAt(s, tab))) == [];
    assert Emissions([]) == [] && Sent(PlaceOf(s, tab), s.tabs[tab].script.nonce, []) == [];
    assert s.history + [] == s.history && s.wires.acks + [] == s.wires.acks;
  }

  lemma CidsNext(steps: seq<Step>, n: nat)
    requires n < |steps|
    ensures CidsOf(steps[..n + 1]) == CidsOf(steps[..n]) + {steps[n].cid}
  {
    forall cid | cid in CidsOf(steps[..n + 1]) ensures cid in CidsOf(steps[..n]) + {steps[n].cid} {
      var i :| 0 <= i < n + 1 && steps[..n + 1][i].cid == cid;
      assert i < n ==> steps[..n][i].cid == cid;
    }
    forall cid | cid in CidsOf(steps[..n]) ensures cid in CidsOf(steps[..n + 1]) {
      var i :| 0 <= i < n && steps[..n][i].cid == cid;
      assert steps[..n + 1][i].cid == cid;
    }
    assert steps[..n + 1][n].cid == steps[n].cid;
  }

  lemma UnseenNext(steps: seq<Step>, n: nat, seen: set<Cid>)
    requires n < |steps|
    ensures Unseen(steps[..n + 1], seen)
         == Unseen(steps[..n], seen) + if steps[n].cid in seen then [] else [steps[n]]
  {
    assert steps[..n + 1][..n] == steps[..n];
  }

  lemma EmissionsNext(steps: seq<Step>, more: seq<Step>)
    ensures Emissions(steps + more) == Emissions(steps) + Emissions(more)
  {
  }

  lemma OmitMiddle<T>(a: seq<T>, x: T, b: seq<T>)
    ensures (a + ([x] + b))[|a|] == x && Omit(a + ([x] + b), |a|) == a + b
  {
  }

  lemma SentFirst(place: Place, sender: nat, steps: seq<Step>, m: nat, n: nat)
    requires m < n <= |steps|
    ensures Sent(place, sender, steps[m..n])
         == [Message(place, sender, steps[m])] + Sent(place, sender, steps[m + 1..n])
  {
  }

  lemma SentLast(place: Place, sender: nat, steps: seq<Step>, m: nat, n: nat)
    requires m <= n < |steps|
    ensures Sent(place, sender, steps[m..n + 1])
         == Sent(place, sender, steps[m..n]) + [Message(place, sender, steps[n])]
  {
  }

  lemma JudgeNext(s: State, tab: nat, n: nat, m: nat)
    requires tab in s.tabs && m <= n < |PageAt(s, tab).store.buffer| && Ready(s.desk, tab)
    requires Distinct(PageAt(s, tab).store.buffer)
    ensures var step := PageAt(s, tab).store.buffer[n];
      Judge(Between(s, tab, n, m).desk, tab, step.cid) == if step.cid in s.desk.seen then AlreadySent else Forwarded
  {
    var steps := PageAt(s, tab).store.buffer;
    assert steps[n].cid !in CidsOf(steps[..n]);
  }

  lemma HandleNext(s: State, tab: nat, n: nat, m: nat)
    requires tab in s.tabs && m <= n < |PageAt(s, tab).store.buffer| && Ready(s.desk, tab)
    requires Distinct(PageAt(s, tab).store.buffer)
    ensures Enabled(Between(s, tab, n, m), Deliver(|s.wires.messages|))
    ensures After(Between(s, tab, n, m), Deliver(|s.wires.messages|)) == Between(s, tab, n + 1, m)
  {
    hide Distinct, Ready, CidsOf, Unseen, Sent, Emissions, Omit, Judge;
    var place, sender := PlaceOf(s, tab), s.tabs[tab].script.nonce;
    var steps := PageAt(s, tab).store.buffer;
    JudgeNext(s, tab, n, m);
    SentFirst(place, sender, steps, n, |steps|);
    assert steps[n..|steps|] == steps[n..] && steps[n + 1..|steps|] == steps[n + 1..];
    SentLast(place, sender, steps, m, n);
    var message := Message(place, sender, steps[n]);
    OmitMiddle(s.wires.messages, message, Sent(place, sender, steps[n + 1..]));
    CidsNext(steps, n);
    UnseenNext(steps, n, s.desk.seen);
    var unsent := if steps[n].cid in s.desk.seen then [] else [steps[n]];
    EmissionsNext(Unseen(steps[..n], s.desk.seen), unsent);
    EmissionsOne(unsent);
    Regrouped(s.history, Emissions(Unseen(steps[..n], s.desk.seen)), Emissions(unsent));
    Regrouped(s.wires.acks, Sent(place, sender, steps[m..n]), [message]);
    SeenNext(s.desk.seen, CidsOf(steps[..n]), steps[n].cid);
  }

  lemma EmissionsOne(steps: seq<Step>)
    requires |steps| <= 1
    ensures Emissions(steps) == if steps == [] then [] else [WasEmitted(steps[0])]
  {
  }

  lemma Regrouped<T>(a: seq<T>, b: seq<T>, c: seq<T>)
    ensures a + (b + c) == a + b + c
  {
  }

  lemma SeenNext(seen: set<Cid>, ids: set<Cid>, cid: Cid)
    ensures seen + (ids + {cid}) == seen + ids + {cid}
    ensures cid in seen ==> seen + (ids + {cid}) == seen + ids
  {
  }

  lemma KeptFirst(steps: seq<Step>, n: nat)
    requires n < |steps| && Distinct(steps)
    ensures Kept(steps[n..], steps[n].cid) == steps[n + 1..]
  {
    hide Kept;
    var first, later := steps[n], steps[n + 1..];
    forall i | 0 <= i < |later| ensures later[i].cid != first.cid {
      assert later[i] == steps[n + 1 + i];
    }
    hide Distinct;
    KeptOthers(later, first.cid);
    assert steps[n..] == [first] + later;
    KeptAppend([first], later, first.cid);
    KeptNone(first);
  }

  lemma KeptNone(step: Step)
    ensures Kept([step], step.cid) == []
  {
    assert [step][..0] == [];
  }

  lemma {:induction false} KeptOthers(steps: seq<Step>, cid: Cid)
    requires forall i :: 0 <= i < |steps| ==> steps[i].cid != cid
    ensures Kept(steps, cid) == steps
  {
    if steps != [] {
      KeptOthers(steps[..|steps| - 1], cid);
      assert steps == steps[..|steps| - 1] + [steps[|steps| - 1]];
    }
  }

  lemma {:induction false} KeptAppend(a: seq<Step>, b: seq<Step>, cid: Cid)
    ensures Kept(a + b, cid) == Kept(a, cid) + Kept(b, cid)
  {
    if b == [] {
      assert a + b == a;
    } else {
      var front, last := b[..|b| - 1], b[|b| - 1];
      KeptAppend(a, front, cid);
      assert (a + b)[..|a + b| - 1] == a + front;
      assert (a + b)[|a + b| - 1] == last;
    }
  }

  lemma ConfirmNext(s: State, tab: nat, n: nat, m: nat)
    requires tab in s.tabs && m < n <= |PageAt(s, tab).store.buffer|
    requires Distinct(PageAt(s, tab).store.buffer)
    ensures Enabled(Between(s, tab, n, m), AckArrives(|s.wires.acks|))
    ensures After(Between(s, tab, n, m), AckArrives(|s.wires.acks|)) == Between(s, tab, n, m + 1)
  {
    hide Distinct, CidsOf, Unseen, Sent, Emissions, Omit, Kept;
    var place, sender := PlaceOf(s, tab), s.tabs[tab].script.nonce;
    var steps := PageAt(s, tab).store.buffer;
    SentFirst(place, sender, steps, m, n);
    OmitMiddle(s.wires.acks, Message(place, sender, steps[m]), Sent(place, sender, steps[m + 1..n]));
    KeptFirst(steps, m);
  }

  /** However the turns are taken, the state depends on their numbers only. */
  lemma {:induction false} TakeTurns(s: State, tab: nat, schedule: Schedule)
    requires tab in s.tabs && Ready(s.desk, tab) && Possible(schedule, |PageAt(s, tab).store.buffer|)
    requires Distinct(PageAt(s, tab).store.buffer)
    ensures Valid(Between(s, tab, 0, 0), Turns(s, schedule))
    ensures Exec(Between(s, tab, 0, 0), Turns(s, schedule)) == Between(s, tab, Handles(schedule), Confirms(schedule))
    decreases |schedule|
  {
    hide Between, After, Enabled, Distinct, Ready, PageAt;
    if schedule != [] {
      var front, last := schedule[..|schedule| - 1], schedule[|schedule| - 1];
      TakeTurns(s, tab, front);
      var events := Turns(s, schedule);
      assert events[..|events| - 1] == Turns(s, front);
      if last {
        HandleNext(s, tab, Handles(front), Confirms(front));
      } else {
        ConfirmNext(s, tab, Handles(front), Confirms(front));
      }
    }
  }

  lemma ExchangeRuns(s: State, tab: nat, schedule: Schedule)
    requires tab in s.tabs && s.tabs[tab].script.active && Ready(s.desk, tab)
    requires Possible(schedule, |PageAt(s, tab).store.buffer|) && Distinct(PageAt(s, tab).store.buffer)
    ensures Leads(s, Exchange(s, tab, schedule), Between(s, tab, Handles(schedule), Confirms(schedule)))
  {
    hide Between, After, Distinct, PageAt, Ready, Turns, Possible;
    assert Valid(s, [Flush(tab)]) && Exec(s, [Flush(tab)]) == After(s, Flush(tab)) by {
      assert [Flush(tab)][..0] == [];
      assert Valid(s, []);
    }
    FlushStarts(s, tab);
    TakeTurns(s, tab, schedule);
    ExecConcat(s, [Flush(tab)], Turns(s, schedule));
  }

  /**
   From any reachable state with the tab ready, one flush whose messages are all handled and
   whose confirmations all come back drains the buffer, in every interleaving of the two.
   */
  lemma FlushDrains(s: State, tab: nat, schedule: Schedule) returns (t: State)
    requires Reachable(s) && tab in s.tabs && s.tabs[tab].script.active && Ready(s.desk, tab)
    requires Possible(schedule, |PageAt(s, tab).store.buffer|)
    requires Handles(schedule) == Confirms(schedule) == |PageAt(s, tab).store.buffer|
    ensures Leads(s, Exchange(s, tab, schedule), t)
    ensures StoreAt(t.stores, PlaceOf(s, tab)).buffer == []
    ensures t.history == s.history + Emissions(Unseen(PageAt(s, tab).store.buffer, s.desk.seen))
    ensures t.wires.messages == s.wires.messages && t.wires.acks == s.wires.acks
    ensures forall x :: x in PageAt(s, tab).store.buffer ==> WasEmitted(x) in t.history && x.cid in t.desk.seen
  {
    hide Exec, Valid, Exchange, Distinct, Inv, Unseen, Sent, CidsOf, Emissions, Ready, Possible, Handles, Confirms,
      Leads;
    var events :| Valid(INIT, events) && Exec(INIT, events) == s;
    RunKeepsDistinct(events);
    RunKeepsInv(events);
    var steps := PageAt(s, tab).store.buffer;
    EmptyDistinct();
    ExchangeRuns(s, tab, schedule);
    t := Between(s, tab, |steps|, |steps|);
    assert steps[|steps|..] == [] && steps[..|steps|] == steps && steps[|steps|..|steps|] == [];
    NothingSent(PlaceOf(s, tab), s.tabs[tab].script.nonce);
    forall x | x in steps ensures WasEmitted(x) in t.history && x.cid in t.desk.seen {
      BufferedIsEmitted(s, tab, x);
    }
  }

  lemma NothingSent(place: Place, sender: nat)
    ensures Sent(place, sender, []) == []
    ensures forall list: seq<Message> :: list + [] == list
  {
  }

  lemma BufferedIsEmitted(s: State, tab: nat, x: Step)
    requires Inv(s) && tab in s.tabs && x in PageAt(s, tab).store.buffer
    ensures var steps := PageAt(s, tab).store.buffer;
      && WasEmitted(x) in s.history + Emissions(Unseen(steps, s.desk.seen))
      && x.cid in s.desk.seen + CidsOf(steps)
  {
    hide RecorderDelivery.Ids, MessagesGrounded, AcksGrounded, Conserved, Remembered, OncePerPairing, Genuine;
    var steps := PageAt(s, tab).store.buffer;
    var i :| 0 <= i < |steps| && steps[i] == x;
    assert steps[i].cid in CidsOf(steps);
    if x.cid in s.desk.seen {
      assert Stored(s.stores, PlaceOf(s, tab), x);
      assert WasCaptured(PlaceOf(s, tab), x) in s.history;
    } else {
      UnseenHolds(steps, s.desk.seen, x);
      var j :| 0 <= j < |Unseen(steps, s.desk.seen)| && Unseen(steps, s.desk.seen)[j] == x;
      assert Emissions(Unseen(steps, s.desk.seen))[j] == WasEmitted(x);
    }
  }

  lemma {:induction false} UnseenHolds(steps: seq<Step>, seen: set<Cid>, x: Step)
    requires x in steps && x.cid !in seen
    ensures x in Unseen(steps, seen)
  {
    if x != steps[|steps| - 1] {
      assert x in steps[..|steps| - 1];
      UnseenHolds(steps[..|steps| - 1], seen, x);
    }
  }

  // ----- a step that outlives its pairing -----

  lemma Go(s: State, e: Event, t: State)
    requires Reachable(s) && Enabled(s, e) && After(s, e) == t
    ensures Reachable(t)
  {
    hide After, Enabled;
    var events :| Valid(INIT, events) && Exec(INIT, events) == s;
    var longer := events + [e];
    assert longer[..|longer| - 1] == events;
    assert Valid(INIT, longer) && Exec(INIT, longer) == t;
  }

  const SHOP := Place(1, "shop")

  const ADMIN := Place(1, "admin")

  const FIRST := Step(Cid(0, 0), "Navigate to /")

  const SECOND := Step(Cid(1, 0), "Navigate to /")

  const JOINED := Link(true, true, true)

  /** The tab records a page of the shop; its one step is emitted and the confirmation lost. */
  const AFTER_FIRST := State(
    Desk(JOINED, false, [1], {FIRST.cid}), map[1 := Tab("shop", Script(0, true, false, 1), Known)],
    map[SHOP := Store([FIRST], Some(1))], Wires([], [], []),
    [Unpaired, WasCaptured(SHOP, FIRST), WasEmitted(FIRST)], 1)

  /** A new pairing has been joined. */
  const AFTER_REJOIN := AFTER_FIRST.(
    desk := Desk(JOINED, false, [], {}), history := AFTER_FIRST.history + [Unpaired, Unpaired])

  /** A new recording has been started on another origin. */
  const AFTER_START := State(
    Desk(JOINED, false, [1], {}), map[1 := Tab("admin", Script(1, true, false, 1), Asked)],
    map[SHOP := Store([FIRST], Some(1)), ADMIN := Store([SECOND], Some(1))],
    Wires([Message(ADMIN, 1, SECOND)], [], []), AFTER_REJOIN.history + [WasCaptured(ADMIN, SECOND)], 2)

  lemma JoinFrom(s: State)
    requires Reachable(s) && s.desk == Disconnected()
    ensures Reachable(s.(desk := Desk(JOINED, false, [], {}), history := s.history + [Unpaired]))
  {
    hide Reachable;
    var s1 := s.(desk := Desk(Link(true, false, false), false, [], {}), history := s.history + [Unpaired]);
    assert s.wires.controls + [] == s.wires.controls;
    Go(s, Pair, s1);
    var s2 := s1.(desk := Desk(Link(true, true, false), false, [], {}));
    Go(s1, SocketUp, s2);
    Go(s2, Joined, s2.(desk := Desk(JOINED, false, [], {})));
  }

  lemma OpenFrom(s: State, origin: string, t: State)
    requires Reachable(s) && TabClosed(1) !in s.history
    requires t == s.(tabs := s.tabs[1 := Tab(origin, Script(s.nextNonce, false, false, 0), Asked)],
                     nextNonce := s.nextNonce + 1)
    ensures Reachable(t)
  {
    hide Reachable;
    Go(s, Open(1, origin), t);
  }

  /** The tab is armed and its start message lost; the page learns of it from its own question. */
  lemma ArmSilently(s: State, t: State)
    requires Reachable(s) && s.desk.armed == [] && s.wires.controls == []
    requires 1 in s.tabs && s.tabs[1].probe == Asked && TabClosed(1) !in s.history
    requires t == s.(desk := s.desk.(armed := [1]), tabs := s.tabs[1 := s.tabs[1].(probe := Answered(true))])
    ensures Reachable(t)
  {
    hide Reachable;
    var s1 := s.(desk := s.desk.(armed := [1]), wires := s.wires.(controls := [Control(1, Start)]));
    Go(s, Arm(1), s1);
    var s2 := s1.(wires := s.wires);
    assert Omit([Control(1, Start)], 0) == [];
    Go(s1, LoseControl(0), s2);
    Go(s2, AnswerProbe(1), t);
  }

  const ARMED := State(
    Desk(JOINED, false, [1], {}), map[1 := Tab("shop", Script(0, false, false, 0), Answered(true))], map[],
    Wires([], [], []), [Unpaired], 1)

  const RECORDING := State(
    Desk(JOINED, false, [1], {}), map[1 := Tab("shop", Script(0, true, false, 1), Known)],
    map[SHOP := Store([FIRST], Some(1))], Wires([Message(SHOP, 0, FIRST)], [], []),
    [Unpaired, WasCaptured(SHOP, FIRST)], 1)

  lemma FirstActivation()
    ensures After(ARMED, ProbeArrives(1, "/")) == RECORDING
  {
    var t := Probed(ARMED, 1, Known);
    var q := Activated(PageAt(t, 1), "/");
    assert "Navigate to " + "/" == "Navigate to /";
    assert q == Page(Script(0, true, false, 1), Store([FIRST], Some(1)), [FIRST], [FIRST], []);
    assert Sent(SHOP, 0, [FIRST]) == [Message(SHOP, 0, FIRST)];
    assert Noted(SHOP, q) == [WasCaptured(SHOP, FIRST)];
  }

  lemma FirstDelivery(t: State)
    requires t == AFTER_FIRST.(wires := Wires([], [Message(SHOP, 0, FIRST)], []))
    ensures After(RECORDING, Deliver(0)) == t
  {
    assert Judge(RECORDING.desk, 1, FIRST.cid) == Forwarded;
    assert Omit(RECORDING.wires.messages, 0) == [];
  }

  lemma FirstRecording()
    ensures Reachable(AFTER_FIRST)
  {
    hide Reachable, After;
    InitReachable();
    JoinFrom(INIT);
    var s := INIT.(desk := Desk(JOINED, false, [], {}), history := [Unpaired]);
    assert INIT.history + [Unpaired] == [Unpaired];
    var t := s.(tabs := map[1 := Tab("shop", Script(0, false, false, 0), Asked)], nextNonce := 1);
    OpenFrom(s, "shop", t);
    ArmSilently(t, ARMED);
    FirstActivation();
    Go(ARMED, ProbeArrives(1, "/"), RECORDING);
    var u := AFTER_FIRST.(wires := Wires([], [Message(SHOP, 0, FIRST)], []));
    FirstDelivery(u);
    Go(RECORDING, Deliver(0), u);
    FirstLoss(u);
  }

  lemma FirstLoss(u: State)
    requires Reachable(u) && u == AFTER_FIRST.(wires := Wires([], [Message(SHOP, 0, FIRST)], []))
    ensures Reachable(AFTER_FIRST)
  {
    hide Reachable;
    assert Omit(u.wires.acks, 0) == [];
    Go(u, LoseAck(0), AFTER_FIRST);
  }

  lemma InitReachable()
    ensures Reachable(INIT)
  {
    assert Valid(INIT, []) && Exec(INIT, []) == INIT;
  }

  lemma Rejoining()
    ensures Reachable(AFTER_REJOIN)
  {
    hide Reachable;
    FirstRecording();
    var s := AFTER_FIRST.(desk := Disconnected(), wires := Wires([], [], [Control(1, Stop)]),
                          history := AFTER_FIRST.history + [Unpaired]);
    assert [1][..0] == [] && StopsFor([1]) == [Control(1, Stop)];
    Go(AFTER_FIRST, Disconnect, s);
    var t := s.(wires := Wires([], [], []));
    assert Omit([Control(1, Stop)], 0) == [];
    Go(s, LoseControl(0), t);
    JoinFrom(t);
    assert t.history + [Unpaired] == AFTER_REJOIN.history;
  }

  /** A script activated on a page with an empty buffer, or with the first step still in it. */
  lemma PageActivates(p: Page, buffer: seq<Step>, next: Step)
    requires !p.script.active && p.captured == [] && p.sent == [] && p.store.buffer == buffer
    requires next == Step(Cid(p.script.nonce, Restored(p.script.stepCounter, p.store.counter)), "Navigate to /")
    ensures var q := Activated(p, "/");
      && q.script == p.script.(active := true, paused := false, stepCounter := next.cid.index + 1)
      && q.store == Store(buffer + [next], Some(next.cid.index + 1))
      && q.sent == buffer + [next] && q.captured == [next] && q.wiped == p.wiped
  {
    assert "Navigate to " + "/" == "Navigate to /";
  }

  lemma SecondActivation(s: State)
    requires s == AFTER_REJOIN.(
      desk := Desk(JOINED, false, [1], {}), tabs := map[1 := Tab("admin", Script(1, false, false, 0), Asked)],
      wires := Wires([], [], [Control(1, Start)]), nextNonce := 2)
    ensures After(s, ControlArrives(0, "/")) == AFTER_START
  {
    var t := s.(wires := Wires([], [], []));
    assert Omit(s.wires.controls, 0) == [];
    PageActivates(Cleared(PageAt(t, 1)), [], SECOND);
    hide Activated;
    var q := Controlled(PageAt(t, 1), Start, "/");
    assert [] + [SECOND] == [SECOND];
    assert q == Page(Script(1, true, false, 1), Store([SECOND], Some(1)), [SECOND], [SECOND], []);
    assert Sent(ADMIN, 1, [SECOND]) == [Message(ADMIN, 1, SECOND)];
    assert Noted(ADMIN, q) == [WasCaptured(ADMIN, SECOND)];
  }

  lemma StartingElsewhere()
    ensures Reachable(AFTER_START)
  {
    hide Reachable;
    Rejoining();
    var s := AFTER_REJOIN.(tabs := map[1 := Tab("admin", Script(1, false, false, 0), Asked)], nextNonce := 2);
    OpenFrom(AFTER_REJOIN, "admin", s);
    var t := s.(desk := Desk(JOINED, false, [1], {}), wires := Wires([], [], [Control(1, Start)]));
    Go(s, Arm(1), t);
    SecondActivation(t);
    Go(t, ControlArrives(0, "/"), AFTER_START);
  }

  const THIRD := Step(Cid(2, 1), "Navigate to /")

  const BACK := AFTER_START.(
    tabs := map[1 := Tab("shop", Script(2, true, false, 2), Known)],
    stores := AFTER_START.stores[SHOP := Store([FIRST, THIRD], Some(2))],
    wires := Wires([Message(ADMIN, 1, SECOND), Message(SHOP, 2, FIRST), Message(SHOP, 2, THIRD)], [], []),
    history := AFTER_START.history + [WasCaptured(SHOP, THIRD)],
    nextNonce := 3)

  /** Back on the first origin, activation re-sends what the first recording left there. */
  lemma ThirdActivation(s: State)
    requires s == AFTER_START.(
      tabs := map[1 := Tab("shop", Script(2, false, false, 0), Answered(true))], nextNonce := 3)
    ensures After(s, ProbeArrives(1, "/")) == BACK
  {
    var t := Probed(s, 1, Known);
    PageActivates(PageAt(t, 1), [FIRST], THIRD);
    hide Activated;
    var q := Activated(PageAt(t, 1), "/");
    assert [FIRST] + [THIRD] == [FIRST, THIRD];
    assert q == Page(Script(2, true, false, 2), Store([FIRST, THIRD], Some(2)), [FIRST, THIRD], [THIRD], []);
    assert Sent(SHOP, 2, [FIRST, THIRD]) == [Message(SHOP, 2, FIRST), Message(SHOP, 2, THIRD)];
    assert Noted(SHOP, q) == [WasCaptured(SHOP, THIRD)];
  }

  lemma ComingBack()
    ensures Reachable(BACK)
  {
    hide Reachable;
    StartingElsewhere();
    var s := AFTER_START.(tabs := map[1 := Tab("shop", Script(2, false, false, 0), Asked)], nextNonce := 3);
    OpenFrom(AFTER_START, "shop", s);
    var t := s.(tabs := map[1 := Tab("shop", Script(2, false, false, 0), Answered(true))]);
    Go(s, AnswerProbe(1), t);
    ThirdActivation(t);
    Go(t, ProbeArrives(1, "/"), BACK);
  }

  /**
   A start clears the buffer of the page's own origin only. A step that was emitted but
   whose confirmation was lost stays in the storage of another origin, and when the tab
   comes back there in a later pairing it is emitted again, into that later session.
   */
  lemma StepReachesTwoSessions() returns (s: State, step: Step, i: nat, j: nat, k: nat)
    ensures Reachable(s) && i < j < k < |s.history|
    ensures s.history[i] == WasEmitted(step) && s.history[j] == Unpaired && s.history[k] == WasEmitted(step)
  {
    hide Reachable;
    ComingBack();
    step, i, j, k := FIRST, 2, 3, 7;
    s := After(BACK, Deliver(1));
    assert s.history == BACK.history + [WasEmitted(FIRST)];
    Go(BACK, Deliver(1), s);
  }
}
