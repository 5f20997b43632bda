/**
 Which steps can still be emitted, and so which of those emitted already can reach a later
 session too: exactly those that are stored in, or on their way from, a tab that is open.
 */
module RecorderAgain {
  import opened RecorderSteps
  import opened RecorderBackground
  import opened RecorderContent
  import opened RecorderProtocol
  import opened RecorderDelivery

  /** The step is in the storage of its place or in a message from there, and the tab is open. */
  ghost predicate Lingers(s: State, place: Place, x: Step) {
    && place.tab != 0 && TabClosed(place.tab) !in s.history
    && (Stored(s.stores, place, x) || InFlight(s.wires.messages, place, x))
  }

  ghost predicate InFlight(messages: seq<Message>, place: Place, x: Step) {
    exists i :: 0 <= i < |messages| && messages[i].place == place && messages[i].step == x
  }

  /** The longer history holds an emission of the step beyond the shorter one. */
  ghost predicate EmittedSince(before: seq<Entry>, after: seq<Entry>, x: Step) {
    exists k :: |before| <= k < |after| && after[k] == WasEmitted(x)
  }

  // ----- closed tabs -----

  /** Closed tabs have no page and no place in the armed set. */
  ghost predicate OpenInv(s: State) {
    && (forall t :: t in s.tabs ==> TabClosed(t) !in s.history)
    && (forall t :: t in s.desk.armed ==> TabClosed(t) !in s.history)
  }

  lemma PutKeepsOpen(s: State, tab: nat, q: Page)
    requires tab in s.tabs && OpenInv(s)
    ensures OpenInv(Put(s, tab, q))
    ensures forall t :: TabClosed(t) in Put(s, tab, q).history <==> TabClosed(t) in s.history
  {
    hide Noted;
    NotedEntries(PlaceOf(s, tab), q);
  }

  lemma DeliverKeepsOpen(s: State, i: nat)
    requires i < |s.wires.messages| && OpenInv(s)
    ensures OpenInv(Delivered(s, i))
  {
    hide Omit;
    var m := s.wires.messages[i];
    assert forall e :: e in Verdicts(Judge(s.desk, m.place.tab, m.step.cid), m.step) ==> !e.TabClosed?;
  }

  lemma DeskKeepsOpen(s: State, e: Event)
    requires OpenInv(s) && Enabled(s, e) && (e.Arm? || e.Disarm? || e.ViewerControl? || e.Close?)
    ensures OpenInv(After(s, e))
  {
    match e
    case Disarm(tab, tell) => WithoutRemoves(s.desk.armed, tab);
    case Close(tab) => WithoutRemoves(s.desk.armed, tab);
    case _ =>
  }

  lemma StepKeepsOpen(s: State, e: Event)
    requires OpenInv(s) && Enabled(s, e)
    ensures OpenInv(After(s, e))
  {
    hide Put, Delivered, Omit, With, Without, StopsFor, Activated, Controlled, Emitted, AfterControl, Removed;
    match e
    case ProbeArrives(tab, url) =>
      var t := Probed(s, tab, Known);
      PutKeepsOpen(t, tab, Activated(PageAt(t, tab), url));
    case Capture(tab, name) => PutKeepsOpen(s, tab, Emitted(PageAt(s, tab), name));
    case Flush(tab) => PutKeepsOpen(s, tab, Flushed(PageAt(s, tab)));
    case BarPause(tab, paused) =>
      PutKeepsOpen(s, tab, Controlled(PageAt(s, tab), if paused then Pause else Resume, ""));
    case BarStop(tab) => PutKeepsOpen(s, tab, Deactivated(PageAt(s, tab)));
    case ControlArrives(i, url) =>
      var c := s.wires.controls[i];
      var t := s.(wires := s.wires.(controls := Omit(s.wires.controls, i)));
      PutKeepsOpen(t, c.tab, Controlled(PageAt(t, c.tab), c.action, url));
    case Deliver(i) => DeliverKeepsOpen(s, i);
    case _ =>
      if e.Arm? || e.Disarm? || e.ViewerControl? || e.Close? {
        DeskKeepsOpen(s, e);
      }
  }

  lemma {:induction false} RunKeepsOpen(events: seq<Event>)
    requires Valid(INIT, events)
    ensures OpenInv(Exec(INIT, events))
  {
    hide After, Enabled;
    if events != [] {
      RunKeepsOpen(events[..|events| - 1]);
      StepKeepsOpen(Exec(INIT, events[..|events| - 1]), events[|events| - 1]);
    }
  }

  // ----- a step that does not linger is done with -----

  /** A captured step that lies nowhere in an open tab. */
  ghost predicate DoneWith(s: State, place: Place, x: Step) {
    WasCaptured(place, x) in s.history && !Lingers(s, place, x)
  }

  lemma NotInFlight(messages: seq<Message>, place: Place, x: Step)
    requires forall m :: m in messages ==> m.place != place || m.step != x
    ensures !InFlight(messages, place, x)
  {
  }

  lemma InFlightIn(messages: seq<Message>, place: Place, x: Step, m: Message)
    requires m in messages && m.place == place && m.step == x
    ensures InFlight(messages, place, x)
  {
    var i :| 0 <= i < |messages| && messages[i] == m;
  }

  lemma FewerMessages(before: seq<Message>, after: seq<Message>, place: Place, x: Step)
    requires (forall m :: m in after ==> m in before) && !InFlight(before, place, x)
    ensures !InFlight(after, place, x)
  {
    forall m | m in after ensures m.place != place || m.step != x {
      if m.place == place && m.step == x { InFlightIn(before, place, x, m); }
    }
    NotInFlight(after, place, x);
  }

  /** A page neither sends nor stores a step again that its storage does not hold. */
  lemma PutLeavesDone(s: State, tab: nat, q: Page, place: Place, x: Step)
    requires tab in s.tabs && Moves(PageAt(s, tab), q) && Ids(s) && DoneWith(s, place, x)
    ensures DoneWith(Put(s, tab, q), place, x) && !EmittedSince(s.history, Put(s, tab, q).history, x)
  {
    hide Used, ScriptsDistinct, Unique, NewIds, BufferGrows, Noted;
    var t, here := Put(s, tab, q), PlaceOf(s, tab);
    NotedEntries(here, q);
    if x in q.captured { FreshIds(s, tab, q, x); assert false; }
    forall k | |s.history| <= k < |t.history| ensures t.history[k] != WasEmitted(x) {
      assert t.history[k] == Noted(here, q)[k - |s.history|] && t.history[k] in Noted(here, q);
    }
    if place.tab != 0 && TabClosed(place.tab) !in t.history {
      assert !Stored(t.stores, place, x);
      forall m | m in t.wires.messages ensures m.place != place || m.step != x {
        if m in s.wires.messages {
          if m.place == place && m.step == x { InFlightIn(s.wires.messages, place, x, m); }
        }
      }
      NotInFlight(t.wires.messages, place, x);
    }
  }

  lemma DeliverLeavesDone(s: State, i: nat, place: Place, x: Step)
    requires i < |s.wires.messages| && Inv(s) && OpenInv(s) && DoneWith(s, place, x)
    ensures DoneWith(Delivered(s, i), place, x) && !EmittedSince(s.history, Delivered(s, i).history, x)
  {
    hide Conserved, SeenEmitted, Remembered, OncePerPairing, Genuine, StoresGrounded, AcksGrounded, Omit;
    var t, m := Delivered(s, i), s.wires.messages[i];
    if m.step == x {
      OneStepPerId(s.history, WasCaptured(place, x), WasCaptured(m.place, m.step));
      InFlightIn(s.wires.messages, place, x, m);
      assert Judge(s.desk, m.place.tab, m.step.cid) == NotArmed;
    }
    InOmit(s.wires.messages, i);
    if place.tab != 0 && TabClosed(place.tab) !in t.history {
      FewerMessages(s.wires.messages, t.wires.messages, place, x);
    }
  }

  /** Events that add no message, store nothing and emit nothing. */
  lemma RestLeavesDone(s: State, t: State, place: Place, x: Step)
    requires DoneWith(s, place, x) && s.history <= t.history
    requires forall k :: |s.history| <= k < |t.history| ==> !t.history[k].WasEmitted?
    requires forall p, y :: Stored(t.stores, p, y) ==> Stored(s.stores, p, y)
    requires forall m :: m in t.wires.messages ==> m in s.wires.messages
    ensures DoneWith(t, place, x) && !EmittedSince(s.history, t.history, x)
  {
    assert forall e :: e in s.history ==> e in t.history;
    if place.tab != 0 && TabClosed(place.tab) !in t.history {
      FewerMessages(s.wires.messages, t.wires.messages, place, x);
    }
  }

  lemma AckLeavesDone(s: State, i: nat, place: Place, x: Step)
    requires i < |s.wires.acks| && DoneWith(s, place, x)
    ensures DoneWith(AckHandled(s, i), place, x) && !EmittedSince(s.history, AckHandled(s, i).history, x)
  {
    var a := s.wires.acks[i];
    KeptKeepsOthers(StoreAt(s.stores, a.place).buffer, a.step.cid);
    RestLeavesDone(s, AckHandled(s, i), place, x);
  }

  lemma PageLeavesDone(s: State, e: Event, place: Place, x: Step)
    requires Enabled(s, e) && Inv(s) && DoneWith(s, place, x)
    requires e.Capture? || e.Flush? || e.BarPause? || e.BarStop? || e.ProbeArrives? || e.ControlArrives?
    ensures DoneWith(After(s, e), place, x) && !EmittedSince(s.history, After(s, e).history, x)
  {
    hide Put, Omit, Activated, Controlled, Emitted, Moves, Grounds, SeenEmitted, Conserved, Remembered, OncePerPairing,
      Genuine, DoneWith;
    match e
    case ProbeArrives(tab, url) =>
      var t := Probed(s, tab, Known);
      SameStores(s, t, place, x);
      RestKeepsInv(s, t);
      ActivateMoves(PageAt(t, tab), url);
      PutLeavesDone(t, tab, Activated(PageAt(t, tab), url), place, x);
    case Capture(tab, name) =>
      EmitMoves(PageAt(s, tab), name);
      PutLeavesDone(s, tab, Emitted(PageAt(s, tab), name), place, x);
    case Flush(tab) =>
      FlushMoves(PageAt(s, tab));
      PutLeavesDone(s, tab, Flushed(PageAt(s, tab)), place, x);
    case BarPause(tab, paused) =>
      ControlMoves(PageAt(s, tab), if paused then Pause else Resume, "");
      PutLeavesDone(s, tab, Controlled(PageAt(s, tab), if paused then Pause else Resume, ""), place, x);
    case BarStop(tab) =>
      StopMoves(PageAt(s, tab));
      PutLeavesDone(s, tab, Deactivated(PageAt(s, tab)), place, x);
    case ControlArrives(i, url) =>
      var c := s.wires.controls[i];
      var t := s.(wires := s.wires.(controls := Omit(s.wires.controls, i)));
      SameStores(s, t, place, x);
      RestKeepsInv(s, t);
      ControlMoves(PageAt(t, c.tab), c.action, url);
      PutLeavesDone(t, c.tab, Controlled(PageAt(t, c.tab), c.action, url), place, x);
  }

  lemma SameStores(s: State, t: State, place: Place, x: Step)
    requires DoneWith(s, place, x)
    requires t.history == s.history && t.stores == s.stores && t.wires.messages == s.wires.messages
    ensures DoneWith(t, place, x)
  {
  }

  lemma StepLeavesDone(s: State, e: Event, place: Place, x: Step)
    requires Enabled(s, e) && Inv(s) && OpenInv(s) && DoneWith(s, place, x)
    ensures DoneWith(After(s, e), place, x) && !EmittedSince(s.history, After(s, e).history, x)
  {
    hide Inv, DoneWith, OpenInv, Put, Delivered, AckHandled, With, Without, StopsFor, Activated, Controlled, Emitted;
    if e.Capture? || e.Flush? || e.BarPause? || e.BarStop? || e.ProbeArrives? || e.ControlArrives? {
      PageLeavesDone(s, e, place, x);
    } else if e.Deliver? {
      DeliverLeavesDone(s, e.message, place, x);
    } else if e.AckArrives? {
      AckLeavesDone(s, e.ack, place, x);
    } else {
      if e.Lose? { InOmit(s.wires.messages, e.message); }
      RestLeavesDone(s, After(s, e), place, x);
    }
  }

  lemma HistoryGrows(s: State, e: Event)
    requires Enabled(s, e)
    ensures s.history <= After(s, e).history
  {
    hide Omit, With, Without, StopsFor, Activated, Controlled, Emitted, Noted, Verdicts;
  }

  /** A step that does not linger is not emitted again, whatever happens. */
  lemma {:induction false} NeverAgain(s: State, events: seq<Event>, place: Place, x: Step)
    requires Valid(s, events) && Inv(s) && OpenInv(s) && DoneWith(s, place, x)
    ensures var t := Exec(s, events);
      && Inv(t) && OpenInv(t) && DoneWith(t, place, x)
      && s.history <= t.history && !EmittedSince(s.history, t.history, x)
    decreases |events|
  {
    hide After, Enabled, Inv, OpenInv, DoneWith;
    if events != [] {
      var front, e := events[..|events| - 1], events[|events| - 1];
      NeverAgain(s, front, place, x);
      var u := Exec(s, front);
      StepKeepsInv(u, e);
      StepKeepsOpen(u, e);
      StepLeavesDone(u, e, place, x);
      HistoryGrows(u, e);
      NothingSince(s.history, u.history, After(u, e).history, x);
    }
  }

  lemma NothingSince(a: seq<Entry>, b: seq<Entry>, c: seq<Entry>, x: Step)
    requires a <= b <= c && !EmittedSince(a, b, x) && !EmittedSince(b, c, x)
    ensures !EmittedSince(a, c, x)
  {
    forall k | |a| <= k < |c| ensures c[k] != WasEmitted(x) {
      if k < |b| { assert c[k] == b[k]; }
    }
  }

  // ----- a step that lingers can be emitted -----

  lemma Extend(s: State, events: seq<Event>, t: State, e: Event) returns (longer: seq<Event>, u: State)
    requires Leads(s, events, t) && Enabled(t, e)
    ensures Leads(s, longer, u) && u == After(t, e)
  {
    hide After, Enabled;
    longer, u := events + [e], After(t, e);
    assert longer[..|longer| - 1] == events;
  }

  /** A new pairing is joined and the tab armed; pages, storage and messages stay as they are. */
  predicate Rejoined(s: State, t: State, tab: nat) {
    && t.desk == Desk(Link(true, true, true), false, [tab], {})
    && t.tabs == s.tabs && t.stores == s.stores && t.wires.messages == s.wires.messages
    && t.history == s.history + [Unpaired] && t.nextNonce == s.nextNonce
  }

  lemma LeadsNowhere(s: State)
    ensures Leads(s, [], s)
  {
  }

  lemma RejoinAndArm(s: State, tab: nat) returns (events: seq<Event>, t: State)
    requires TabClosed(tab) !in s.history
    ensures Leads(s, events, t) && Rejoined(s, t, tab)
  {
    hide Leads, StopsFor, Omit, Put, Activated, Controlled, Emitted, Flushed;
    LeadsNowhere(s);
    events, t := Extend(s, [], s, Pair);
    events, t := Extend(s, events, t, SocketUp);
    events, t := Extend(s, events, t, Joined);
    events, t := Extend(s, events, t, Arm(tab));
  }

  lemma DeliversIt(s: State, events: seq<Event>, t: State, i: nat, x: Step) returns (longer: seq<Event>, u: State)
    requires Leads(s, events, t) && s.history <= t.history && i < |t.wires.messages|
    requires t.wires.messages[i].step == x && t.wires.messages[i].place.tab != 0
    requires t.wires.messages[i].place.tab in t.desk.armed && x.cid !in t.desk.seen && !t.desk.paused
    requires SocketReady(t.desk.link)
    ensures Leads(s, longer, u) && EmittedSince(s.history, u.history, x)
  {
    hide Leads, Omit;
    longer, u := Extend(s, events, t, Deliver(i));
    assert u.history == t.history + [WasEmitted(x)];
    assert u.history[|t.history|] == WasEmitted(x);
  }

  /** A message on its way is handled in a later pairing. */
  lemma InFlightIsEmitted(s: State, place: Place, x: Step) returns (events: seq<Event>, t: State)
    requires place.tab != 0 && TabClosed(place.tab) !in s.history && InFlight(s.wires.messages, place, x)
    ensures Leads(s, events, t) && EmittedSince(s.history, t.history, x)
  {
    hide Leads;
    var i :| 0 <= i < |s.wires.messages| && s.wires.messages[i].place == place && s.wires.messages[i].step == x;
    events, t := RejoinAndArm(s, place.tab);
    events, t := DeliversIt(s, events, t, i, x);
  }

  /** The page that opens in the armed tab at the step's origin sends what its storage holds. */
  lemma PageSendsIt(t: State, place: Place, x: Step) returns (u: State, i: nat)
    requires place.tab in t.tabs && t.tabs[place.tab].origin == place.origin
    requires t.tabs[place.tab].probe == Answered(true) && !t.tabs[place.tab].script.active
    requires Stored(t.stores, place, x)
    ensures u == After(t, ProbeArrives(place.tab, "/"))
    ensures u.desk == t.desk && t.history <= u.history
    ensures i < |u.wires.messages| && u.wires.messages[i].step == x && u.wires.messages[i].place == place
  {
    var tab := place.tab;
    var v := Probed(t, tab, Known);
    var p, q := PageAt(v, tab), Activated(PageAt(v, tab), "/");
    u := Put(v, tab, q);
    assert p.store == t.stores[place] && p.store.buffer <= q.sent;
    var j :| 0 <= j < |p.store.buffer| && p.store.buffer[j] == x;
    i := |t.wires.messages| + j;
    assert Sent(place, q.script.nonce, q.sent)[j] == Message(place, q.script.nonce, x);
  }

  /** A stored step is sent again by the next page of its origin in the armed tab. */
  lemma StoredIsEmitted(s: State, place: Place, x: Step) returns (events: seq<Event>, t: State)
    requires place.tab != 0 && TabClosed(place.tab) !in s.history && Stored(s.stores, place, x)
    ensures Leads(s, events, t) && EmittedSince(s.history, t.history, x)
  {
    hide Leads, Activated, Put;
    var tab := place.tab;
    events, t := RejoinAndArm(s, tab);
    events, t := Extend(s, events, t, Open(tab, place.origin));
    events, t := Extend(s, events, t, AnswerProbe(tab));
    var u, i := PageSendsIt(t, place, x);
    events, t := Extend(s, events, t, ProbeArrives(tab, "/"));
    events, t := DeliversIt(s, events, t, i, x);
  }

  // ----- the condition -----

  ghost predicate CanBeEmitted(s: State, x: Step) {
    exists events, t :: Leads(s, events, t) && EmittedSince(s.history, t.history, x)
  }

  /**
   A captured step can still be emitted by some continuation if and only if it lingers: it
   is stored at its place, or in a message from there, and its tab is open.
   */
  lemma CanBeEmittedExactly(s: State, place: Place, x: Step)
    requires Reachable(s) && WasCaptured(place, x) in s.history
    ensures CanBeEmitted(s, x) <==> Lingers(s, place, x)
  {
    hide Leads, EmittedSince, Stored, InFlight, Reachable;
    if Lingers(s, place, x) {
      if Stored(s.stores, place, x) {
        var events, t := StoredIsEmitted(s, place, x);
      } else {
        var events, t := InFlightIsEmitted(s, place, x);
      }
    }
    if CanBeEmitted(s, x) && !Lingers(s, place, x) {
      var events, t :| Leads(s, events, t) && EmittedSince(s.history, t.history, x);
      DoneForGood(s, events, t, place, x);
      assert false;
    }
  }

  lemma DoneForGood(s: State, events: seq<Event>, t: State, place: Place, x: Step)
    requires Reachable(s) && WasCaptured(place, x) in s.history && !Lingers(s, place, x) && Leads(s, events, t)
    ensures !EmittedSince(s.history, t.history, x)
  {
    hide Exec, Valid, EmittedSince, Lingers, Inv, OpenInv;
    var before :| Valid(INIT, before) && Exec(INIT, before) == s;
    RunKeepsInv(before);
    RunKeepsOpen(before);
    NeverAgain(s, events, place, x);
  }

  /**
   So a step that has been emitted can reach a second session if and only if it lingers;
   an unpairing then lies between the two emissions.
   */
  lemma ReachesTwoSessionsExactly(s: State, place: Place, x: Step, i: nat)
    requires Reachable(s) && WasCaptured(place, x) in s.history
    requires i < |s.history| && s.history[i] == WasEmitted(x)
    ensures EmittedInLaterPairing(s, x, i) <==> Lingers(s, place, x)
  {
    hide Leads, EmittedSince, Lingers, Reachable;
    CanBeEmittedExactly(s, place, x);
    if CanBeEmitted(s, x) {
      var events, t :| Leads(s, events, t) && EmittedSince(s.history, t.history, x);
      LaterPairing(s, events, t, x, i);
    }
    if EmittedInLaterPairing(s, x, i) {
      var events, t, k :| Leads(s, events, t) && |s.history| <= k < |t.history|
        && t.history[k] == WasEmitted(x) && Unpaired in t.history[i..k];
      SinceAt(s.history, t.history, x, k);
    }
  }

  ghost predicate EmittedInLaterPairing(s: State, x: Step, i: nat)
    requires i < |s.history|
  {
    exists events, t, k :: Leads(s, events, t) && |s.history| <= k < |t.history|
      && t.history[k] == WasEmitted(x) && Unpaired in t.history[i..k]
  }

  lemma SinceAt(before: seq<Entry>, after: seq<Entry>, x: Step, k: nat)
    requires |before| <= k < |after| && after[k] == WasEmitted(x)
    ensures EmittedSince(before, after, x)
  {
  }

  lemma LaterPairing(s: State, events: seq<Event>, t: State, x: Step, i: nat)
    requires Reachable(s) && Leads(s, events, t) && EmittedSince(s.history, t.history, x)
    requires i < |s.history| && s.history[i] == WasEmitted(x)
    ensures EmittedInLaterPairing(s, x, i)
  {
    hide Exec, Valid, Inv, Leads;
    var k :| |s.history| <= k < |t.history| && t.history[k] == WasEmitted(x);
    var before := RunTo(s, events, t);
    RunKeepsInv(before);
    OnlyGrows(s, events, t);
    ApartInTime(t, i, k);
    assert Leads(s, events, t) && t.history[k] == WasEmitted(x) && Unpaired in t.history[i..k];
  }

  lemma ApartInTime(t: State, i: nat, k: nat)
    requires Inv(t) && i < k < |t.history| && SameEmitted(t.history[i], t.history[k])
    ensures Unpaired in t.history[i..k]
  {
  }

  lemma RunTo(s: State, events: seq<Event>, t: State) returns (run: seq<Event>)
    requires Reachable(s) && Leads(s, events, t)
    ensures Valid(INIT, run) && Exec(INIT, run) == t
  {
    hide After, Enabled;
    var before :| Valid(INIT, before) && Exec(INIT, before) == s;
    ExecConcat(INIT, before, events);
    run := before + events;
  }

  lemma {:induction false} OnlyGrows(s: State, events: seq<Event>, t: State)
    requires Leads(s, events, t)
    ensures s.history <= t.history
    decreases |events|
  {
    hide After, Enabled;
    if events != [] {
      var front := events[..|events| - 1];
      OnlyGrows(s, front, Exec(s, front));
      HistoryGrows(Exec(s, front), events[|events| - 1]);
    }
  }
}
