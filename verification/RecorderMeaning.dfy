/**
 What the recorder's rules mean in runs: over which socket a step can be emitted, what
 becomes of each delivered step, who can be recording, what a pause stops, and how step
 indices go on from page to page.
 */
module RecorderMeaning {
  import opened Common
  import opened RecorderSteps
  import opened RecorderBackground
  import opened RecorderContent
  import opened RecorderProtocol

  // ----- emission -----

  /** Armed, not paused, and the socket there, connected and joined. */
  predicate MayEmit(desk: Desk, tab: nat) {
    tab != 0 && tab in desk.armed && !desk.paused && desk.link.socket && desk.link.connected && desk.link.joined
  }

  /** What a step adds to the history is an emission only when a message is handled and everything is ready. */
  lemma StepEmits(s: State, e: Event, k: nat)
    requires Enabled(s, e) && |s.history| <= k < |After(s, e).history| && After(s, e).history[k].WasEmitted?
    ensures e.Deliver? && var m := s.wires.messages[e.message];
      && MayEmit(s.desk, m.place.tab) && m.step.cid !in s.desk.seen
      && After(s, e).history == s.history + [WasEmitted(m.step)]
  {
    hide Activated, Controlled, Emitted, Flushed, Deactivated, Sent, Without, With, StopsFor;
  }

  lemma HistoryGrows(s: State, e: Event)
    requires Enabled(s, e)
    ensures s.history <= After(s, e).history
  {
    hide Activated, Controlled, Emitted, Flushed, Deactivated, Sent, Noted, Without, With, StopsFor;
  }

  /** The n-th event of a run handled this step's message, in a state in which it could be emitted. */
  ghost predicate EmittedBy(events: seq<Event>, n: nat, step: Step)
    requires Valid(INIT, events)
  {
    && n < |events| && Valid(INIT, events[..n]) && events[n].Deliver?
    && var s := Exec(INIT, events[..n]);
       && events[n].message < |s.wires.messages|
       && var m := s.wires.messages[events[n].message];
       && m.step == step && MayEmit(s.desk, m.place.tab) && step.cid !in s.desk.seen
  }

  /**
   Every emission of every run was made while the socket was there, connected and joined, the
   worker not paused, the tab armed and the id not yet remembered.
   */
  lemma {:induction false} EmissionNeedsSocket(events: seq<Event>, k: nat) returns (n: nat)
    requires Valid(INIT, events) && k < |Exec(INIT, events).history|
    requires Exec(INIT, events).history[k].WasEmitted?
    ensures EmittedBy(events, n, Exec(INIT, events).history[k].step)
    decreases |events|
  {
    hide After, Enabled, MayEmit;
    var front, e := events[..|events| - 1], events[|events| - 1];
    var s := Exec(INIT, front);
    HistoryGrows(s, e);
    if k < |s.history| {
      n := EmissionNeedsSocket(front, k);
      assert front[..n] == events[..n] && front[n] == events[n];
    } else {
      StepEmits(s, e, k);
      n := |front|;
      DeliverInRange(s, e);
    }
  }

  lemma DeliverInRange(s: State, e: Event)
    requires Enabled(s, e) && e.Deliver?
    ensures e.message < |s.wires.messages|
  {
  }

  /**
   The five fates of a delivered step. Dropped for good unless armed, unless remembered and
   unless paused; kept without a confirmation when the socket is not ready; else emitted.
   */
  lemma DeliveryDecides(s: State, i: nat)
    requires Enabled(s, Deliver(i))
    ensures var (m, t) := (s.wires.messages[i], After(s, Deliver(i)));
      var armed := m.place.tab != 0 && m.place.tab in s.desk.armed;
      var known, ready := m.step.cid in s.desk.seen, MayEmit(s.desk, m.place.tab);
      && t.stores == s.stores && t.tabs == s.tabs
      && t.wires.messages == s.wires.messages[..i] + s.wires.messages[i + 1..]
      && (!armed || (!known && s.desk.paused) ==> t.history == s.history + [WasDropped(m.step)] && t.desk == s.desk)
      && (armed && known ==> t.history == s.history && t.desk == s.desk)
      && (armed && !known && ready ==>
            t.history == s.history + [WasEmitted(m.step)] && t.desk == s.desk.(seen := s.desk.seen + {m.step.cid}))
      && (armed && !known && !s.desk.paused && !ready ==>
            t.history == s.history && t.desk == s.desk && t.wires.acks == s.wires.acks)
      && (!(armed && !known && !s.desk.paused && !ready) ==> t.wires.acks == s.wires.acks + [m])
  {
  }

  /** A confirmation takes the step out of the storage only while the script that sent it still runs. */
  lemma AckReachesItsSender(s: State, i: nat)
    requires Enabled(s, AckArrives(i))
    ensures var (a, t) := (s.wires.acks[i], After(s, AckArrives(i)));
      var alive := a.place.tab in s.tabs && s.tabs[a.place.tab].script.nonce == a.sender;
      && t.history == s.history && t.desk == s.desk && t.tabs == s.tabs
      && (!alive ==> t.stores == s.stores)
      && (alive && a.place in s.stores ==>
            && a.place in t.stores
            && forall x :: x in t.stores[a.place].buffer <==> x in s.stores[a.place].buffer && x.cid != a.step.cid)
      && forall p :: p != a.place && p in s.stores ==> p in t.stores && t.stores[p] == s.stores[p]
  {
    var a := s.wires.acks[i];
    KeptKeepsOthers(StoreAt(s.stores, a.place).buffer, a.step.cid);
  }

  // ----- who records -----

  /** The tab was armed in some state of the run. */
  ghost predicate WasArmed(events: seq<Event>, tab: nat)
    requires Valid(INIT, events)
  {
    exists n: nat :: n <= |events| && Valid(INIT, events[..n]) && tab in Exec(INIT, events[..n]).desk.armed
  }

  /** A recording page, a positive answer to its question, or a start on its way. */
  ghost predicate MayRecord(s: State, tab: nat) {
    || (tab in s.tabs && (s.tabs[tab].script.active || s.tabs[tab].probe == Answered(true)))
    || Control(tab, Start) in s.wires.controls
  }

  lemma {:induction false} StopsAreStops(tabs: seq<nat>)
    ensures forall c :: c in StopsFor(tabs) ==> c.action == Stop
  {
    if tabs != [] { StopsAreStops(tabs[..|tabs| - 1]); }
  }

  lemma PutLeavesRest(s: State, tab: nat, p: Page)
    requires tab in s.tabs
    ensures var t := Put(s, tab, p);
      && t.wires.controls == s.wires.controls && t.tabs.Keys == s.tabs.Keys
      && (forall u :: u in s.tabs && u != tab ==> t.tabs[u] == s.tabs[u])
      && t.tabs[tab] == s.tabs[tab].(script := p.script) && t.desk == s.desk
  {
  }

  lemma ActiveAfter(p: Page, action: Action, url: string, name: string)
    ensures Activated(p, url).script.active
    ensures Emitted(p, name).script.active == p.script.active && Flushed(p).script.active == p.script.active
    ensures action != Start ==> Controlled(p, action, url).script.active ==> p.script.active
    ensures !Deactivated(p).script.active
  {
  }

  predicate PageEvent(e: Event) {
    e.ProbeArrives? || e.Capture? || e.Flush? || e.BarPause? || e.BarStop? || e.ControlArrives?
  }

  lemma PageRecords(s: State, e: Event, tab: nat)
    requires Enabled(s, e) && PageEvent(e) && MayRecord(After(s, e), tab)
    ensures MayRecord(s, tab)
  {
    hide Activated, Controlled, Emitted, Flushed, Deactivated, Sent, Noted, Without, Put, AfterStep, Removed;
    match e
    case ProbeArrives(u, url) =>
      var t := Probed(s, u, Known);
      PutLeavesRest(t, u, Activated(PageAt(t, u), url));
    case Capture(u, name) =>
      ActiveAfter(PageAt(s, u), Stop, "", name);
      PutLeavesRest(s, u, Emitted(PageAt(s, u), name));
    case Flush(u) =>
      ActiveAfter(PageAt(s, u), Stop, "", "");
      PutLeavesRest(s, u, Flushed(PageAt(s, u)));
    case BarPause(u, paused) =>
      ActiveAfter(PageAt(s, u), if paused then Pause else Resume, "", "");
      PutLeavesRest(s, u, Controlled(PageAt(s, u), if paused then Pause else Resume, ""));
    case BarStop(u) =>
      ActiveAfter(PageAt(s, u), Stop, "", "");
      PutLeavesRest(s, u, Deactivated(PageAt(s, u)));
    case ControlArrives(i, url) =>
      var c := s.wires.controls[i];
      var t := s.(wires := s.wires.(controls := Omit(s.wires.controls, i)));
      ActiveAfter(PageAt(t, c.tab), c.action, url, "");
      PutLeavesRest(t, c.tab, Controlled(PageAt(t, c.tab), c.action, url));
  }

  /** Of the other events only the popup's and a positive answer add a page that may record. */
  lemma OtherRecords(s: State, e: Event, tab: nat)
    requires Enabled(s, e) && !PageEvent(e) && MayRecord(After(s, e), tab) && !MayRecord(s, tab)
    ensures tab in s.desk.armed || tab in After(s, e).desk.armed
  {
    hide Activated, Controlled, Emitted, Flushed, Deactivated, Sent, Noted, Without, Put, Judge, Removed, PageAt;
    StopsAreStops(s.desk.armed);
  }

  /** In every run a page records only if its tab has been armed, by the popup, at some time before. */
  lemma {:induction false} RecordsOnlyWhenArmed(events: seq<Event>, tab: nat)
    requires Valid(INIT, events) && MayRecord(Exec(INIT, events), tab)
    ensures WasArmed(events, tab)
    decreases |events|
  {
    hide After, Enabled, MayRecord;
    if events == [] {
      NobodyRecords(tab);
    } else {
      var front, e := events[..|events| - 1], events[|events| - 1];
      assert events[..|events|] == events;
      if MayRecord(Exec(INIT, front), tab) {
        RecordsOnlyWhenArmed(front, tab);
        var n: nat :| n <= |front| && Valid(INIT, front[..n]) && tab in Exec(INIT, front[..n]).desk.armed;
        assert front[..n] == events[..n];
      } else {
        if PageEvent(e) {
          PageRecords(Exec(INIT, front), e, tab);
        } else {
          OtherRecords(Exec(INIT, front), e, tab);
        }
        if tab in Exec(INIT, front).desk.armed {
          assert events[..|front|] == front;
        }
      }
    }
  }

  lemma NobodyRecords(tab: nat)
    ensures !MayRecord(INIT, tab)
  {
  }

  /** A tab that closes takes its storage with it and is no longer armed; other tabs keep theirs. */
  lemma CloseEndsTab(s: State, tab: nat)
    requires tab in s.tabs
    ensures var t := After(s, Close(tab));
      && t.tabs.Keys == s.tabs.Keys - {tab} && tab !in t.desk.armed
      && (forall p :: p in t.stores <==> p in s.stores && p.tab != tab)
      && (forall p :: p in t.stores ==> t.stores[p] == s.stores[p])
      && (forall u :: u != tab ==> (u in t.desk.armed <==> u in s.desk.armed))
      && !Enabled(t, Open(tab, "")) && !Enabled(t, Arm(tab))
  {
    WithoutRemoves(s.desk.armed, tab);
    assert TabClosed(tab) in After(s, Close(tab)).history;
  }

  // ----- pause -----

  /** A page that is paused captures nothing; one that is active and resumed captures with the next index. */
  lemma PauseStopsCapture(s: State, tab: nat, name: string)
    requires tab in s.tabs
    ensures var paused := After(s, BarPause(tab, true));
      Enabled(paused, Capture(tab, name)) && After(paused, Capture(tab, name)).history == paused.history
    ensures s.tabs[tab].script.active ==>
      var resumed := After(s, BarPause(tab, false));
      var step := Step(Cid(s.tabs[tab].script.nonce, s.tabs[tab].script.stepCounter), name);
      && Enabled(resumed, Capture(tab, name))
      && After(resumed, Capture(tab, name)).history
         == resumed.history + [WasCaptured(Place(tab, s.tabs[tab].origin), step)]
  {
  }

  // ----- indices from page to page -----

  /**
   A page that loads where an earlier one recorded, in an armed tab, goes on with the index
   that was saved, keeps what is still stored, and sends all of it again.
   */
  lemma IndicesGoOn(s: State, tab: nat, origin: string, url: string) returns (t: State)
    requires TabClosed(tab) !in s.history && tab in s.desk.armed
    ensures Valid(s, [Open(tab, origin), AnswerProbe(tab), ProbeArrives(tab, url)])
    ensures t == Exec(s, [Open(tab, origin), AnswerProbe(tab), ProbeArrives(tab, url)])
    ensures var place := Place(tab, origin);
      var (buffer, saved) :=
        if place in s.stores then (s.stores[place].buffer, s.stores[place].counter) else ([], None);
      var index := if saved.Some? then saved.value else 0;
      var step := Step(Cid(s.nextNonce, index), "Navigate to " + url);
      && place in t.stores && t.stores[place] == Store(buffer + [step], Some(index + 1))
      && tab in t.tabs && t.tabs[tab].script == Script(s.nextNonce, true, false, index + 1)
      && t.history == s.history + [WasCaptured(place, step)]
      && t.wires.messages == s.wires.messages + Sent(place, s.nextNonce, buffer + [step])
  {
    var s1 := After(s, Open(tab, origin));
    var s2 := After(s1, AnswerProbe(tab));
    t := After(s2, ProbeArrives(tab, url));
    assert s2.tabs[tab] == Tab(origin, Script(s.nextNonce, false, false, 0), Answered(true));
    ProbedPage(s2, tab, url);
    hide After, Enabled;
    ThreeEvents(s, s1, s2, Open(tab, origin), AnswerProbe(tab), ProbeArrives(tab, url));
  }

  lemma ThreeEvents(s: State, s1: State, s2: State, a: Event, b: Event, c: Event)
    requires Enabled(s, a) && s1 == After(s, a) && Enabled(s1, b) && s2 == After(s1, b) && Enabled(s2, c)
    ensures Valid(s, [a, b, c]) && Exec(s, [a, b, c]) == After(s2, c)
  {
    hide After, Enabled;
    assert [a, b, c][..2] == [a, b] && [a, b][..1] == [a] && [a][..0] == [];
    assert Valid(s, []) && Exec(s, []) == s;
    assert Valid(s, [a]) && Exec(s, [a]) == s1;
    assert Valid(s, [a, b]) && Exec(s, [a, b]) == s2;
  }

  /** The page that learns it is armed activates and records itself. */
  lemma ProbedPage(s: State, tab: nat, url: string)
    requires tab in s.tabs && s.tabs[tab].probe == Answered(true) && !s.tabs[tab].script.active
    requires s.tabs[tab].script.stepCounter == 0
    ensures var t := After(s, ProbeArrives(tab, url));
      var place, nonce := Place(tab, s.tabs[tab].origin), s.tabs[tab].script.nonce;
      var (buffer, saved) :=
        if place in s.stores then (s.stores[place].buffer, s.stores[place].counter) else ([], None);
      var index := if saved.Some? then saved.value else 0;
      var step := Step(Cid(nonce, index), "Navigate to " + url);
      && place in t.stores && t.stores[place] == Store(buffer + [step], Some(index + 1))
      && tab in t.tabs && t.tabs[tab].script == Script(nonce, true, false, index + 1)
      && t.history == s.history + [WasCaptured(place, step)]
      && t.wires.messages == s.wires.messages + Sent(place, nonce, buffer + [step])
  {
    var p := PageAt(Probed(s, tab, Known), tab);
    var q := Activated(p, url);
    assert q.sent == p.store.buffer + q.captured && q.wiped == [] && |q.captured| == 1;
    assert Noted(PlaceOf(s, tab), q) == [WasCaptured(PlaceOf(s, tab), q.captured[0])];
  }
}
