/**
 Delivery of recorded steps: no captured step is ever just lost, none is emitted twice in
 one pairing, and nothing is emitted that was not captured.
 */
module RecorderDelivery {
  import opened RecorderSteps
  import opened RecorderBackground
  import opened RecorderContent
  import opened RecorderProtocol

  // ----- what one move of a page can do -----

  ghost predicate NewIds(p: Page, q: Page) {
    forall i :: 0 <= i < |q.captured| ==>
      && q.captured[i].cid.script == p.script.nonce
      && p.script.stepCounter <= q.captured[i].cid.index < q.script.stepCounter
  }

  ghost predicate StoreFollows(p: Page, q: Page) {
    && (forall x :: x in q.store.buffer ==> x in p.store.buffer || x in q.captured)
    && (forall x :: x in p.store.buffer ==> x in q.store.buffer || x in q.wiped)
    && (forall x :: x in q.captured ==> x in q.store.buffer)
  }

  /** The buffer grows at its end, or starts again from nothing when it is wiped. */
  ghost predicate BufferGrows(p: Page, q: Page) {
    || (q.wiped == [] && q.store.buffer == p.store.buffer + q.captured)
    || (q.wiped == p.store.buffer && q.store.buffer == q.captured)
  }

  /** A move of a page: new ids are new, and the store only gains captures and only loses to a wipe. */
  ghost predicate Moves(p: Page, q: Page) {
    && q.script.nonce == p.script.nonce && q.script.stepCounter >= p.script.stepCounter
    && |q.captured| <= 1 && NewIds(p, q) && StoreFollows(p, q) && BufferGrows(p, q)
    && (forall x :: x in q.sent ==> x in p.store.buffer || x in q.captured)
  }

  ghost predicate Quiet(p: Page) { p.sent == [] && p.captured == [] && p.wiped == [] }

  lemma EmitMoves(p: Page, name: string)
    requires p.captured == [] && p.wiped == [] && forall x :: x in p.sent ==> x in p.store.buffer
    ensures Moves(p, Emitted(p, name))
  {
  }

  lemma ActivateMoves(p: Page, url: string)
    requires Quiet(p)
    ensures Moves(p, Activated(p, url))
  {
    if !p.script.active {
      var script := p.script.(active := true, paused := false,
                              stepCounter := Restored(p.script.stepCounter, p.store.counter));
      EmitMoves(Flushed(p.(script := script)), "Navigate to " + url);
    }
  }

  lemma ControlMoves(p: Page, action: Action, url: string)
    requires Quiet(p)
    ensures Moves(p, Controlled(p, action, url))
  {
    if action == Start {
      ActivateMoves(p.(store := NO_STORE), url);
    }
  }

  // ----- the invariant -----

  ghost predicate Settled(history: seq<Entry>, step: Step) {
    WasEmitted(step) in history || WasDropped(step) in history
  }

  ghost predicate Stored(stores: map<Place, Store>, place: Place, step: Step) {
    place in stores && step in stores[place].buffer
  }

  /** Messages and stored steps were captured where they say; a confirmation is sent for a settled step. */
  ghost predicate MessagesGrounded(messages: seq<Message>, history: seq<Entry>) {
    forall m :: m in messages ==> WasCaptured(m.place, m.step) in history
  }

  ghost predicate AcksGrounded(acks: seq<Message>, history: seq<Entry>) {
    forall a :: a in acks ==> WasCaptured(a.place, a.step) in history && Settled(history, a.step)
  }

  ghost predicate StoresGrounded(stores: map<Place, Store>, history: seq<Entry>) {
    forall place, step :: Stored(stores, place, step) ==> WasCaptured(place, step) in history
  }

  /** An id that may have been handed out already. */
  ghost predicate Used(tabs: map<nat, Tab>, nextNonce: nat, cid: Cid) {
    && cid.script < nextNonce
    && forall t :: t in tabs && tabs[t].script.nonce == cid.script ==> cid.index < tabs[t].script.stepCounter
  }

  ghost predicate ScriptsDistinct(tabs: map<nat, Tab>, nextNonce: nat) {
    && (forall t :: t in tabs ==> tabs[t].script.nonce < nextNonce)
    && (forall t, u :: t in tabs && u in tabs && t != u ==> tabs[t].script.nonce != tabs[u].script.nonce)
  }

  ghost predicate HistoryUsed(s: State) {
    forall place, step :: WasCaptured(place, step) in s.history ==> Used(s.tabs, s.nextNonce, step.cid)
  }

  /** No two captures share an id. */
  ghost predicate Unique(history: seq<Entry>) {
    forall i, j :: 0 <= i < j < |history| && history[i].WasCaptured? && history[j].WasCaptured? ==>
      history[i].step.cid != history[j].step.cid
  }

  /** A remembered id was emitted as the step it belongs to. */
  ghost predicate SeenEmitted(seen: set<Cid>, history: seq<Entry>) {
    forall place, step :: WasCaptured(place, step) in history && step.cid in seen ==> WasEmitted(step) in history
  }

  ghost predicate SeenUsed(s: State) {
    forall cid :: cid in s.desk.seen ==> Used(s.tabs, s.nextNonce, cid)
  }

  /** Where a captured step is. */
  ghost predicate Accounted(s: State, place: Place, step: Step) {
    || Stored(s.stores, place, step)
    || Settled(s.history, step)
    || WasWiped(place, step) in s.history
    || TabClosed(place.tab) in s.history
  }

  ghost predicate Conserved(s: State) {
    forall place, step :: WasCaptured(place, step) in s.history ==> Accounted(s, place, step)
  }

  /** The ids emitted since the last unpairing are the ones the worker remembers. */
  ghost predicate Remembered(seen: set<Cid>, history: seq<Entry>) {
    forall i :: 0 <= i < |history| && history[i].WasEmitted? && Unpaired !in history[i..] ==>
      history[i].step.cid in seen
  }

  predicate SameEmitted(a: Entry, b: Entry) { a.WasEmitted? && b.WasEmitted? && a.step.cid == b.step.cid }

  ghost predicate OncePerPairing(history: seq<Entry>) {
    forall i, j :: 0 <= i < j < |history| && SameEmitted(history[i], history[j]) ==> Unpaired in history[i..j]
  }

  /** Emitted and dropped steps were captured. */
  ghost predicate Genuine(history: seq<Entry>) {
    forall step :: Settled(history, step) ==> exists place :: WasCaptured(place, step) in history
  }

  ghost predicate Ids(s: State) {
    ScriptsDistinct(s.tabs, s.nextNonce) && HistoryUsed(s) && SeenUsed(s) && Unique(s.history)
  }

  ghost predicate Grounds(s: State) {
    && MessagesGrounded(s.wires.messages, s.history)
    && AcksGrounded(s.wires.acks, s.history)
    && StoresGrounded(s.stores, s.history)
  }

  ghost predicate Inv(s: State) {
    && Ids(s) && Grounds(s) && SeenEmitted(s.desk.seen, s.history) && Conserved(s)
    && Remembered(s.desk.seen, s.history) && OncePerPairing(s.history) && Genuine(s.history)
  }

  // ----- adding to the history -----

  /** Entries that neither emit nor drop nor unpair. */
  ghost predicate Plain(added: seq<Entry>) {
    forall e :: e in added ==> e.WasCaptured? || e.WasWiped? || e.TabClosed?
  }

  lemma TailEntry(history: seq<Entry>, added: seq<Entry>, j: int)
    requires |history| <= j < |history| + |added|
    ensures (history + added)[j] in added
  {
  }

  lemma UniqueAppend(history: seq<Entry>, e: Entry)
    requires Unique(history)
    requires e.WasCaptured? ==> forall place, step :: WasCaptured(place, step) in history ==> step.cid != e.step.cid
    ensures Unique(history + [e])
  {
    var h := history + [e];
    forall i, j | 0 <= i < j < |h| && h[i].WasCaptured? && h[j].WasCaptured?
      ensures h[i].step.cid != h[j].step.cid
    {
      assert h[i] == history[i] == WasCaptured(h[i].place, h[i].step);
    }
  }

  lemma UniqueAppendOthers(history: seq<Entry>, added: seq<Entry>)
    requires Unique(history) && forall e :: e in added ==> !e.WasCaptured?
    ensures Unique(history + added)
  {
    var h := history + added;
    forall i, j | 0 <= i < j < |h| && h[i].WasCaptured? && h[j].WasCaptured?
      ensures h[i].step.cid != h[j].step.cid
    {
      assert j < |history| by {
        if j >= |history| {
          TailEntry(history, added, j);
          assert false;
        }
      }
    }
  }

  lemma RememberedAppend(seen: set<Cid>, history: seq<Entry>, added: seq<Entry>)
    requires Remembered(seen, history)
    requires forall e :: e in added && e.WasEmitted? ==> e.step.cid in seen
    ensures Remembered(seen, history + added)
  {
    var h := history + added;
    forall i | 0 <= i < |h| && h[i].WasEmitted? && Unpaired !in h[i..] ensures h[i].step.cid in seen {
      if i < |history| {
        assert h[i..] == history[i..] + added;
      } else {
        assert h[i] in added;
      }
    }
  }

  lemma OnceAppendOthers(history: seq<Entry>, added: seq<Entry>)
    requires OncePerPairing(history) && forall e :: e in added ==> !e.WasEmitted?
    ensures OncePerPairing(history + added)
  {
    var h := history + added;
    forall i, j | 0 <= i < j < |h| && SameEmitted(h[i], h[j]) ensures Unpaired in h[i..j] {
      assert j < |history| by {
        if j >= |history| {
          TailEntry(history, added, j);
          assert false;
        }
      }
      assert h[i..j] == history[i..j];
    }
  }

  lemma OnceAppendEmitted(seen: set<Cid>, history: seq<Entry>, step: Step)
    requires OncePerPairing(history) && Remembered(seen, history) && step.cid !in seen
    ensures OncePerPairing(history + [WasEmitted(step)])
  {
    var h := history + [WasEmitted(step)];
    forall i, j | 0 <= i < j < |h| && SameEmitted(h[i], h[j]) ensures Unpaired in h[i..j] {
      if j < |history| {
        assert h[i..j] == history[i..j];
      } else {
        assert h[i] == history[i] && h[i..j] == history[i..];
      }
    }
  }

  lemma GenuineAppend(history: seq<Entry>, added: seq<Entry>)
    requires Genuine(history)
    requires forall e :: e in added && (e.WasEmitted? || e.WasDropped?) ==>
      exists place :: WasCaptured(place, e.step) in history
    ensures Genuine(history + added)
  {
    var h := history + added;
    forall step | Settled(h, step) ensures exists place :: WasCaptured(place, step) in h {
      assert Settled(history, step) || WasEmitted(step) in added || WasDropped(step) in added;
      assert WasEmitted(step).step == step == WasDropped(step).step;
      var place :| WasCaptured(place, step) in history;
      assert WasCaptured(place, step) in h;
    }
  }

  /** Adding captures, wipes and closings says nothing new about emission. */
  lemma PlainAppend(seen: set<Cid>, history: seq<Entry>, added: seq<Entry>)
    requires Remembered(seen, history) && OncePerPairing(history) && Genuine(history) && Plain(added)
    ensures Remembered(seen, history + added) && OncePerPairing(history + added) && Genuine(history + added)
  {
    hide Remembered, OncePerPairing, Genuine;
    RememberedAppend(seen, history, added);
    OnceAppendOthers(history, added);
    GenuineAppend(history, added);
  }

  // ----- a page moves -----

  lemma NotedEntries(place: Place, q: Page)
    ensures forall x :: WasWiped(place, x) in Noted(place, q) <==> x in q.wiped
    ensures forall x :: WasCaptured(place, x) in Noted(place, q) <==> x in q.captured
    ensures forall e :: e in Noted(place, q) ==>
      (e.WasWiped? || e.WasCaptured?) && e.place == place
    ensures Plain(Noted(place, q))
  {
    var noted := Noted(place, q);
    forall x | x in q.wiped ensures WasWiped(place, x) in noted {
      var i :| 0 <= i < |q.wiped| && q.wiped[i] == x;
      assert noted[i] == WasWiped(place, x);
    }
    forall x | x in q.captured ensures WasCaptured(place, x) in noted {
      var i :| 0 <= i < |q.captured| && q.captured[i] == x;
      assert noted[|q.wiped| + i] == WasCaptured(place, x);
    }
  }

  /** The ids a move hands out are fresh, and used afterwards. */
  lemma FreshIds(s: State, tab: nat, q: Page, x: Step)
    requires tab in s.tabs && Moves(PageAt(s, tab), q) && x in q.captured
    requires ScriptsDistinct(s.tabs, s.nextNonce)
    ensures !Used(s.tabs, s.nextNonce, x.cid) && Used(Put(s, tab, q).tabs, s.nextNonce, x.cid)
  {
    hide StoreFollows, Noted, Sent;
    var i :| 0 <= i < |q.captured| && q.captured[i] == x;
    assert s.tabs[tab].script.nonce == x.cid.script;
  }

  lemma StillUsed(s: State, tab: nat, q: Page, cid: Cid)
    requires tab in s.tabs && Moves(PageAt(s, tab), q) && Used(s.tabs, s.nextNonce, cid)
    ensures Used(Put(s, tab, q).tabs, s.nextNonce, cid)
  {
    hide StoreFollows, Noted, Sent, NewIds;
  }

  lemma PutUnique(s: State, tab: nat, q: Page)
    requires tab in s.tabs && Moves(PageAt(s, tab), q) && ScriptsDistinct(s.tabs, s.nextNonce)
    requires HistoryUsed(s) && Unique(s.history)
    ensures Unique(Put(s, tab, q).history)
  {
    hide Used, ScriptsDistinct, StoreFollows, NewIds, Unique;
    var place := PlaceOf(s, tab);
    var wiped := Noted(place, q)[..|q.wiped|];
    UniqueAppendOthers(s.history, wiped);
    if q.captured == [] {
      assert Noted(place, q) == wiped;
    } else {
      var x := q.captured[0];
      assert Noted(place, q) == wiped + [WasCaptured(place, x)];
      FreshIds(s, tab, q, x);
      UniqueAppend(s.history + wiped, WasCaptured(place, x));
      assert s.history + wiped + [WasCaptured(place, x)] == Put(s, tab, q).history;
    }
  }

  lemma PutIds(s: State, tab: nat, q: Page)
    requires tab in s.tabs && Moves(PageAt(s, tab), q) && Ids(s)
    ensures Ids(Put(s, tab, q))
  {
    hide StoreFollows, NewIds, Unique, Used;
    var t := Put(s, tab, q);
    assert ScriptsDistinct(t.tabs, t.nextNonce);
    PutUnique(s, tab, q);
    NotedEntries(PlaceOf(s, tab), q);
    forall place, step | WasCaptured(place, step) in t.history ensures Used(t.tabs, t.nextNonce, step.cid) {
      if WasCaptured(place, step) in s.history {
        StillUsed(s, tab, q, step.cid);
      } else {
        FreshIds(s, tab, q, step);
      }
    }
    forall cid | cid in t.desk.seen ensures Used(t.tabs, t.nextNonce, cid) {
      StillUsed(s, tab, q, cid);
    }
  }

  lemma PutGrounds(s: State, tab: nat, q: Page)
    requires tab in s.tabs && Moves(PageAt(s, tab), q) && Grounds(s)
    ensures Grounds(Put(s, tab, q))
  {
    hide NewIds, Noted;
    var t := Put(s, tab, q);
    var place := PlaceOf(s, tab);
    NotedEntries(place, q);
    forall x | x in PageAt(s, tab).store.buffer || x in q.captured ensures WasCaptured(place, x) in t.history {
      assert x in PageAt(s, tab).store.buffer ==> Stored(s.stores, place, x);
    }
    forall m | m in t.wires.messages ensures WasCaptured(m.place, m.step) in t.history {
    }
    forall a | a in t.wires.acks ensures WasCaptured(a.place, a.step) in t.history && Settled(t.history, a.step) {
    }
    forall p, x | Stored(t.stores, p, x) ensures WasCaptured(p, x) in t.history {
      assert p != place ==> Stored(s.stores, p, x);
    }
  }

  lemma PutSeen(s: State, tab: nat, q: Page)
    requires tab in s.tabs && Moves(PageAt(s, tab), q) && Ids(s) && SeenEmitted(s.desk.seen, s.history)
    ensures SeenEmitted(s.desk.seen, Put(s, tab, q).history)
  {
    hide StoreFollows, NewIds, Unique, Used, Noted, Moves;
    var t := Put(s, tab, q);
    NotedEntries(PlaceOf(s, tab), q);
    forall place, step | WasCaptured(place, step) in t.history && step.cid in s.desk.seen
      ensures WasEmitted(step) in t.history
    {
      if WasCaptured(place, step) !in s.history {
        FreshIds(s, tab, q, step);
        assert false;
      }
    }
  }

  lemma PutConserved(s: State, tab: nat, q: Page)
    requires tab in s.tabs && Moves(PageAt(s, tab), q) && Conserved(s)
    ensures Conserved(Put(s, tab, q))
  {
    hide NewIds, Noted;
    var t := Put(s, tab, q);
    var here := PlaceOf(s, tab);
    NotedEntries(here, q);
    forall place, step | WasCaptured(place, step) in t.history ensures Accounted(t, place, step) {
      if WasCaptured(place, step) in s.history {
        assert Accounted(s, place, step);
        assert place == here && Stored(s.stores, place, step) ==> step in PageAt(s, tab).store.buffer;
      }
    }
  }

  lemma PutKeepsInv(s: State, tab: nat, q: Page)
    requires tab in s.tabs && Moves(PageAt(s, tab), q) && Inv(s)
    ensures Inv(Put(s, tab, q))
  {
    hide Ids, Grounds, Conserved, SeenEmitted, Remembered, OncePerPairing, Genuine, Noted, Plain, Moves;
    PutIds(s, tab, q);
    PutGrounds(s, tab, q);
    PutSeen(s, tab, q);
    PutConserved(s, tab, q);
    NotedEntries(PlaceOf(s, tab), q);
    PlainAppend(s.desk.seen, s.history, Noted(PlaceOf(s, tab), q));
  }

  // ----- the worker and the wires -----

  lemma InOmit<T>(list: seq<T>, i: nat)
    requires i < |list|
    ensures forall x :: x in Omit(list, i) ==> x in list
  {
  }

  lemma OneStepPerId(history: seq<Entry>, a: Entry, b: Entry)
    requires Unique(history) && a in history && b in history
    requires a.WasCaptured? && b.WasCaptured? && a.step.cid == b.step.cid
    ensures a == b
  {
    var i :| 0 <= i < |history| && history[i] == a;
    var j :| 0 <= j < |history| && history[j] == b;
    assert i == j;
  }

  lemma DeliverGrounds(s: State, i: nat)
    requires i < |s.wires.messages| && Grounds(s) && SeenEmitted(s.desk.seen, s.history)
    ensures Grounds(Delivered(s, i))
  {
    var t := Delivered(s, i);
    var m := s.wires.messages[i];
    InOmit(s.wires.messages, i);
    assert Received(Judge(s.desk, m.place.tab, m.step.cid)) ==> Settled(t.history, m.step);
    forall a | a in t.wires.acks ensures WasCaptured(a.place, a.step) in t.history && Settled(t.history, a.step) {
    }
    assert StoresGrounded(t.stores, t.history);
  }

  lemma DeliverSeen(s: State, i: nat)
    requires i < |s.wires.messages| && MessagesGrounded(s.wires.messages, s.history) && Unique(s.history)
    requires SeenEmitted(s.desk.seen, s.history)
    ensures SeenEmitted(Delivered(s, i).desk.seen, Delivered(s, i).history)
  {
    hide Unique;
    var t := Delivered(s, i);
    var m := s.wires.messages[i];
    forall place, step | WasCaptured(place, step) in t.history && step.cid in t.desk.seen
      ensures WasEmitted(step) in t.history
    {
      if step.cid !in s.desk.seen {
        OneStepPerId(s.history, WasCaptured(place, step), WasCaptured(m.place, m.step));
      }
    }
  }

  lemma DeliverIds(s: State, i: nat)
    requires i < |s.wires.messages| && MessagesGrounded(s.wires.messages, s.history) && Ids(s)
    ensures Ids(Delivered(s, i))
  {
    hide Unique, Used, ScriptsDistinct;
    var t := Delivered(s, i);
    var m := s.wires.messages[i];
    UniqueAppendOthers(s.history, Verdicts(Judge(s.desk, m.place.tab, m.step.cid), m.step));
    assert WasCaptured(m.place, m.step) in s.history;
  }

  lemma DeliverConserves(s: State, i: nat)
    requires i < |s.wires.messages| && Conserved(s)
    ensures Conserved(Delivered(s, i))
  {
    var t := Delivered(s, i);
    forall place, step | WasCaptured(place, step) in t.history ensures Accounted(t, place, step) {
      assert Accounted(s, place, step);
    }
  }

  lemma DeliverOnce(s: State, i: nat)
    requires i < |s.wires.messages| && MessagesGrounded(s.wires.messages, s.history)
    requires Remembered(s.desk.seen, s.history) && OncePerPairing(s.history) && Genuine(s.history)
    ensures Remembered(Delivered(s, i).desk.seen, Delivered(s, i).history)
    ensures OncePerPairing(Delivered(s, i).history) && Genuine(Delivered(s, i).history)
  {
    hide OncePerPairing, Genuine, Omit;
    var t := Delivered(s, i);
    var m := s.wires.messages[i];
    var added := Verdicts(Judge(s.desk, m.place.tab, m.step.cid), m.step);
    assert Remembered(t.desk.seen, s.history);
    RememberedAppend(t.desk.seen, s.history, added);
    if Judge(s.desk, m.place.tab, m.step.cid) == Forwarded {
      OnceAppendEmitted(s.desk.seen, s.history, m.step);
    } else {
      OnceAppendOthers(s.history, added);
    }
    assert WasCaptured(m.place, m.step) in s.history;
    GenuineAppend(s.history, added);
  }

  lemma DeliverKeepsInv(s: State, i: nat)
    requires i < |s.wires.messages| && Inv(s)
    ensures Inv(Delivered(s, i))
  {
    hide Conserved, SeenEmitted, Remembered, OncePerPairing, Genuine, Omit, Judge, AfterStep, Verdicts;
    DeliverGrounds(s, i);
    DeliverSeen(s, i);
    DeliverIds(s, i);
    DeliverConserves(s, i);
    DeliverOnce(s, i);
  }

  lemma AckKeepsInv(s: State, i: nat)
    requires i < |s.wires.acks| && Inv(s)
    ensures Inv(AckHandled(s, i))
  {
    hide Remembered, OncePerPairing, Genuine, SeenEmitted, Used, ScriptsDistinct, Unique;
    var t := AckHandled(s, i);
    var a := s.wires.acks[i];
    InOmit(s.wires.acks, i);
    KeptKeepsOthers(StoreAt(s.stores, a.place).buffer, a.step.cid);
    forall place, step | Stored(t.stores, place, step) ensures WasCaptured(place, step) in t.history {
      assert Stored(s.stores, place, step);
    }
    forall place, step | WasCaptured(place, step) in t.history ensures Accounted(t, place, step) {
      assert Accounted(s, place, step);
      if step.cid == a.step.cid {
        OneStepPerId(s.history, WasCaptured(place, step), WasCaptured(a.place, a.step));
      }
    }
  }

  lemma UnpairKeepsInv(s: State, link: Link, tell: bool)
    requires Inv(s)
    ensures Inv(Unpair(s, link, tell))
  {
    hide Genuine, OncePerPairing, Used, ScriptsDistinct, Unique, StopsFor;
    var t := Unpair(s, link, tell);
    UniqueAppendOthers(s.history, [Unpaired]);
    OnceAppendOthers(s.history, [Unpaired]);
    GenuineAppend(s.history, [Unpaired]);
    assert Remembered(t.desk.seen, t.history) by {
      forall i | 0 <= i < |t.history| && t.history[i].WasEmitted? ensures Unpaired in t.history[i..] {
        assert t.history[i..][|t.history| - 1 - i] == Unpaired;
      }
    }
    forall place, step | WasCaptured(place, step) in t.history ensures Accounted(t, place, step) {
      assert Accounted(s, place, step);
    }
  }

  lemma OpenKeepsInv(s: State, tab: nat, origin: string)
    requires Inv(s) && Enabled(s, Open(tab, origin))
    ensures Inv(After(s, Open(tab, origin)))
  {
    hide Genuine, OncePerPairing, Remembered, SeenEmitted, Unique;
    var t := After(s, Open(tab, origin));
    forall cid | Used(s.tabs, s.nextNonce, cid) ensures Used(t.tabs, t.nextNonce, cid) {
    }
    forall place, step | WasCaptured(place, step) in t.history ensures Accounted(t, place, step) {
      assert Accounted(s, place, step);
    }
  }

  lemma CloseKeepsInv(s: State, tab: nat)
    requires Inv(s) && Enabled(s, Close(tab))
    ensures Inv(After(s, Close(tab)))
  {
    hide Genuine, OncePerPairing, Remembered, Unique, Without;
    var t := After(s, Close(tab));
    PlainAppend(s.desk.seen, s.history, [TabClosed(tab)]);
    UniqueAppendOthers(s.history, [TabClosed(tab)]);
    forall cid | Used(s.tabs, s.nextNonce, cid) ensures Used(t.tabs, t.nextNonce, cid) {
    }
    forall place, step | Stored(t.stores, place, step) ensures WasCaptured(place, step) in t.history {
      assert Stored(s.stores, place, step);
    }
    forall place, step | WasCaptured(place, step) in t.history ensures Accounted(t, place, step) {
      assert Accounted(s, place, step);
    }
  }

  /** Events that change neither storage, nor history, nor what the worker remembers. */
  lemma RestKeepsInv(s: State, t: State)
    requires Inv(s)
    requires t.stores == s.stores && t.history == s.history && t.nextNonce == s.nextNonce
    requires t.desk.seen == s.desk.seen && t.tabs.Keys == s.tabs.Keys
    requires forall tab :: tab in s.tabs ==> t.tabs[tab].script == s.tabs[tab].script
    requires forall m :: m in t.wires.messages ==> m in s.wires.messages
    requires forall a :: a in t.wires.acks ==> a in s.wires.acks
    ensures Inv(t)
  {
    hide Genuine, OncePerPairing, Remembered, SeenEmitted, Unique;
    forall cid | Used(s.tabs, s.nextNonce, cid) ensures Used(t.tabs, t.nextNonce, cid) {
    }
    forall place, step | WasCaptured(place, step) in t.history ensures Accounted(t, place, step) {
      assert Accounted(s, place, step);
    }
  }

  // ----- runs -----

  lemma PageEventKeepsInv(s: State, e: Event)
    requires Inv(s) && Enabled(s, e)
    requires e.Capture? || e.Flush? || e.BarPause? || e.BarStop?
    ensures Inv(After(s, e))
  {
    hide Inv;
    var p := PageAt(s, e.tab);
    match e
    case Capture(tab, name) =>
      EmitMoves(p, name);
      PutKeepsInv(s, tab, Emitted(p, name));
    case Flush(tab) => PutKeepsInv(s, tab, Flushed(p));
    case BarPause(tab, paused) =>
      ControlMoves(p, if paused then Pause else Resume, "");
      PutKeepsInv(s, tab, Controlled(p, if paused then Pause else Resume, ""));
    case BarStop(tab) => PutKeepsInv(s, tab, Deactivated(p));
  }

  lemma ArrivalKeepsInv(s: State, e: Event)
    requires Inv(s) && Enabled(s, e) && (e.ProbeArrives? || e.ControlArrives?)
    ensures Inv(After(s, e))
  {
    hide Inv, Activated, Controlled, Put, Moves;
    match e
    case ProbeArrives(tab, url) =>
      var t := Probed(s, tab, Known);
      RestKeepsInv(s, t);
      ActivateMoves(PageAt(t, tab), url);
      PutKeepsInv(t, tab, Activated(PageAt(t, tab), url));
    case ControlArrives(i, url) =>
      var c := s.wires.controls[i];
      var t := s.(wires := s.wires.(controls := Omit(s.wires.controls, i)));
      RestKeepsInv(s, t);
      ControlMoves(PageAt(t, c.tab), c.action, url);
      PutKeepsInv(t, c.tab, Controlled(PageAt(t, c.tab), c.action, url));
  }

  lemma WireEventKeepsInv(s: State, e: Event)
    requires Inv(s) && Enabled(s, e)
    requires e.AnswerProbe? || e.Lose? || e.LoseAck? || e.LoseControl? || e.Arm? || e.Disarm?
          || e.SocketUp? || e.SocketDown? || e.Joined? || e.ViewerControl?
    ensures Inv(After(s, e))
  {
    hide Inv, With, Without, StopsFor;
    if e.Lose? {
      InOmit(s.wires.messages, e.message);
    } else if e.LoseAck? {
      InOmit(s.wires.acks, e.ack);
    }
    RestKeepsInv(s, After(s, e));
  }

  lemma StepKeepsInv(s: State, e: Event)
    requires Inv(s) && Enabled(s, e)
    ensures Inv(After(s, e))
  {
    hide Inv, Put, Delivered, AckHandled, Unpair, Activated, Controlled, Emitted;
    match e
    case Open(tab, origin) => OpenKeepsInv(s, tab, origin);
    case Close(tab) => CloseKeepsInv(s, tab);
    case Deliver(i) => DeliverKeepsInv(s, i);
    case AckArrives(i) => AckKeepsInv(s, i);
    case Pair => UnpairKeepsInv(s, Link(true, false, false), true);
    case Disconnect => UnpairKeepsInv(s, NO_LINK, true);
    case RestartWorker => UnpairKeepsInv(s, NO_LINK, false);
    case _ =>
      if e.Capture? || e.Flush? || e.BarPause? || e.BarStop? {
        PageEventKeepsInv(s, e);
      } else if e.ProbeArrives? || e.ControlArrives? {
        ArrivalKeepsInv(s, e);
      } else {
        WireEventKeepsInv(s, e);
      }
  }

  lemma {:induction false} RunKeepsInv(events: seq<Event>)
    requires Valid(INIT, events)
    ensures Inv(Exec(INIT, events))
  {
    hide Inv, After, Enabled;
    if events == [] {
      InitInv();
    } else {
      RunKeepsInv(events[..|events| - 1]);
      StepKeepsInv(Exec(INIT, events[..|events| - 1]), events[|events| - 1]);
    }
  }

  lemma InitInv()
    ensures Inv(INIT)
  {
  }

  /**
   No captured step is just lost: after any run, with navigations, lost confirmations,
   socket outages and worker restarts, it is still in the storage of the tab and origin it
   was captured in, or was emitted, or dropped on arrival, or wiped by an explicit start,
   or its tab was closed.
   */
  lemma NoStepIsLost(s: State, place: Place, step: Step)
    requires Reachable(s) && WasCaptured(place, step) in s.history
    ensures
      || (place in s.stores && step in s.stores[place].buffer)
      || WasEmitted(step) in s.history
      || WasDropped(step) in s.history
      || WasWiped(place, step) in s.history
      || TabClosed(place.tab) in s.history
  {
    ReachableKeepsInv(s);
    assert Accounted(s, place, step);
  }

  lemma ReachableKeepsInv(s: State)
    requires Reachable(s)
    ensures Inv(s)
  {
    hide Exec, Valid, Inv;
    var events :| Valid(INIT, events) && Exec(INIT, events) == s;
    RunKeepsInv(events);
  }

  /** Two emissions of one step id lie in different pairings, and every emitted step was captured as it is. */
  lemma AtMostOncePerPairing(s: State, i: nat, j: nat)
    requires Reachable(s) && i < j < |s.history|
    requires s.history[i].WasEmitted? && s.history[j].WasEmitted? && Unpaired !in s.history[i..j]
    ensures s.history[i].step.cid != s.history[j].step.cid
    ensures exists place :: WasCaptured(place, s.history[j].step) in s.history
  {
    hide Exec, Valid;
    ReachableKeepsInv(s);
    var h := s.history;
    assert h[j] == WasEmitted(h[j].step);
    assert Settled(h, h[j].step);
  }

  ghost predicate NewEntry(s: State, t: State, e: Entry) { e in t.history && e !in s.history }

  lemma PutAdds(s: State, tab: nat, q: Page, e: Entry)
    requires tab in s.tabs && NewEntry(s, Put(s, tab, q), e) && !e.WasCaptured?
    ensures e.WasWiped? && e.place == PlaceOf(s, tab) && e.step in q.wiped
  {
    hide Noted;
    NotedEntries(PlaceOf(s, tab), q);
    assert e in Noted(PlaceOf(s, tab), q);
    assert e == WasWiped(e.place, e.step);
  }

  lemma PageEventAdds(s: State, e: Event, x: Entry)
    requires Enabled(s, e) && (e.Capture? || e.Flush? || e.BarPause? || e.BarStop? || e.ProbeArrives?)
    requires NewEntry(s, After(s, e), x)
    ensures x.WasCaptured?
  {
    hide Put, Noted;
    if !x.WasCaptured? {
      match e
      case Capture(tab, name) => PutAdds(s, tab, Emitted(PageAt(s, tab), name), x);
      case Flush(tab) => PutAdds(s, tab, Flushed(PageAt(s, tab)), x);
      case BarPause(tab, paused) =>
        PutAdds(s, tab, Controlled(PageAt(s, tab), if paused then Pause else Resume, ""), x);
      case BarStop(tab) => PutAdds(s, tab, Deactivated(PageAt(s, tab)), x);
      case ProbeArrives(tab, url) =>
        var t := Probed(s, tab, Known);
        PutAdds(t, tab, Activated(PageAt(t, tab), url), x);
    }
  }

  lemma ControlAdds(s: State, i: nat, url: string, x: Entry)
    requires Enabled(s, ControlArrives(i, url)) && NewEntry(s, After(s, ControlArrives(i, url)), x)
    requires !x.WasCaptured?
    ensures x.WasWiped? && s.wires.controls[i].action == Start
    ensures x.place == PlaceOf(s, s.wires.controls[i].tab) && Stored(s.stores, x.place, x.step)
  {
    hide Put, Noted, Omit;
    var c := s.wires.controls[i];
    var t := s.(wires := s.wires.(controls := Omit(s.wires.controls, i)));
    PutAdds(t, c.tab, Controlled(PageAt(t, c.tab), c.action, url), x);
  }

  /**
   A stored step is wiped only when a start from the popup reaches a page of its tab and
   origin; a step is dropped only when it arrives from an unarmed tab or in a pause.
   */
  lemma LossIsDeliberate(s: State, e: Event, x: Entry)
    requires Enabled(s, e) && NewEntry(s, After(s, e), x)
    ensures x.WasWiped? ==>
      && e.ControlArrives? && s.wires.controls[e.control].action == Start
      && x.place == PlaceOf(s, s.wires.controls[e.control].tab) && Stored(s.stores, x.place, x.step)
    ensures x.WasDropped? ==>
      && e.Deliver? && s.wires.messages[e.message].step == x.step
      && var tab := s.wires.messages[e.message].place.tab;
         tab == 0 || tab !in s.desk.armed || (s.desk.paused && x.step.cid !in s.desk.seen)
  {
    hide Without, With, StopsFor, Omit, Put, AfterStep, Controlled, Activated, Emitted;
    if e.Capture? || e.Flush? || e.BarPause? || e.BarStop? || e.ProbeArrives? {
      PageEventAdds(s, e, x);
    } else if e.ControlArrives? {
      if !x.WasCaptured? {
        ControlAdds(s, e.control, e.url, x);
      }
    } else if e.Deliver? {
      var m := s.wires.messages[e.message];
      assert x in Verdicts(Judge(s.desk, m.place.tab, m.step.cid), m.step);
    }
  }

  // ----- stored once -----

  ghost predicate Distinct(buffer: seq<Step>) {
    forall i, j :: 0 <= i < j < |buffer| ==> buffer[i].cid != buffer[j].cid
  }

  ghost predicate StoresDistinct(stores: map<Place, Store>) {
    forall place :: place in stores ==> Distinct(stores[place].buffer)
  }

  lemma {:induction false} KeptDistinct(buffer: seq<Step>, cid: Cid)
    requires Distinct(buffer)
    ensures Distinct(Kept(buffer, cid))
  {
    if buffer != [] {
      var front := buffer[..|buffer| - 1];
      KeptDistinct(front, cid);
      KeptKeepsOthers(front, cid);
      forall i | 0 <= i < |Kept(front, cid)| ensures Kept(front, cid)[i].cid != buffer[|buffer| - 1].cid {
        assert Kept(front, cid)[i] in front;
      }
    }
  }

  lemma PutDistinct(s: State, tab: nat, q: Page)
    requires tab in s.tabs && Moves(PageAt(s, tab), q) && StoresDistinct(s.stores)
    requires Ids(s) && StoresGrounded(s.stores, s.history)
    ensures StoresDistinct(Put(s, tab, q).stores)
  {
    hide Used, ScriptsDistinct, NewIds, StoreFollows, Noted, Unique;
    var place := PlaceOf(s, tab);
    var before := StoreAt(s.stores, place).buffer;
    if q.captured != [] {
      var x := q.captured[0];
      FreshIds(s, tab, q, x);
      forall i | 0 <= i < |before| ensures before[i].cid != x.cid {
        assert Stored(s.stores, place, before[i]);
      }
      assert q.captured == [x];
    }
    assert Distinct(q.store.buffer);
  }

  lemma StepKeepsDistinct(s: State, e: Event)
    requires Inv(s) && StoresDistinct(s.stores) && Enabled(s, e)
    ensures StoresDistinct(After(s, e).stores)
  {
    hide Ids, StoresDistinct, MessagesGrounded, AcksGrounded, StoresGrounded, SeenEmitted, Conserved, Remembered;
    hide OncePerPairing, Genuine, Moves, Activated, Controlled, Emitted, Put;
    match e
    case ProbeArrives(tab, url) =>
      var t := Probed(s, tab, Known);
      RestKeepsInv(s, t);
      ActivateMoves(PageAt(t, tab), url);
      PutDistinct(t, tab, Activated(PageAt(t, tab), url));
    case Capture(tab, name) =>
      EmitMoves(PageAt(s, tab), name);
      PutDistinct(s, tab, Emitted(PageAt(s, tab), name));
    case Flush(tab) =>
      FlushMoves(PageAt(s, tab));
      PutDistinct(s, tab, Flushed(PageAt(s, tab)));
    case BarPause(tab, paused) =>
      ControlMoves(PageAt(s, tab), if paused then Pause else Resume, "");
      PutDistinct(s, tab, Controlled(PageAt(s, tab), if paused then Pause else Resume, ""));
    case BarStop(tab) =>
      StopMoves(PageAt(s, tab));
      PutDistinct(s, tab, Deactivated(PageAt(s, tab)));
    case ControlArrives(i, url) =>
      var c := s.wires.controls[i];
      var t := s.(wires := s.wires.(controls := Omit(s.wires.controls, i)));
      RestKeepsInv(s, t);
      ControlMoves(PageAt(t, c.tab), c.action, url);
      PutDistinct(t, c.tab, Controlled(PageAt(t, c.tab), c.action, url));
    case AckArrives(i) => AckKeepsDistinct(s, i);
    case Close(tab) => CloseKeepsDistinct(s, tab);
    case _ =>
  }

  lemma FlushMoves(p: Page)
    requires Quiet(p)
    ensures Moves(p, Flushed(p))
  {
  }

  lemma StopMoves(p: Page)
    requires Quiet(p)
    ensures Moves(p, Deactivated(p))
  {
  }

  lemma AckKeepsDistinct(s: State, i: nat)
    requires i < |s.wires.acks| && StoresDistinct(s.stores)
    ensures StoresDistinct(AckHandled(s, i).stores)
  {
    hide Distinct;
    var a := s.wires.acks[i];
    assert Distinct([]) by { EmptyDistinct(); }
    KeptDistinct(StoreAt(s.stores, a.place).buffer, a.step.cid);
  }

  lemma EmptyDistinct()
    ensures Distinct([])
  {
  }

  lemma CloseKeepsDistinct(s: State, tab: nat)
    requires tab in s.tabs && StoresDistinct(s.stores)
    ensures StoresDistinct(After(s, Close(tab)).stores)
  {
    hide Distinct, Without;
  }

  lemma {:induction false} RunKeepsDistinct(events: seq<Event>)
    requires Valid(INIT, events)
    ensures StoresDistinct(Exec(INIT, events).stores)
  {
    hide Inv, After, Enabled, Distinct;
    if events != [] {
      RunKeepsDistinct(events[..|events| - 1]);
      RunKeepsInv(events[..|events| - 1]);
      StepKeepsDistinct(Exec(INIT, events[..|events| - 1]), events[|events| - 1]);
    }
  }
}
