/**
 The recorder as a whole: one background worker, any number of tabs whose pages come and
 go, storage that outlives pages, and messages that may be delayed, reordered or lost.
 `history` lists what happened to steps, oldest first.
 */
module RecorderProtocol {
  import opened Common
  import opened RecorderSteps
  import opened RecorderBackground
  import opened RecorderContent

  /** Session storage is separate for each tab and origin. */
  datatype Place = Place(tab: nat, origin: string)

  /** A page asks the worker, once, whether its tab is armed. */
  datatype Probe = Asked | Answered(armed: bool) | Known

  datatype Tab = Tab(origin: string, script: Script, probe: Probe)

  /** A step on its way to the worker, and a confirmation on its way to the script that sent it. */
  datatype Message = Message(place: Place, sender: nat, step: Step)

  datatype Wires = Wires(messages: seq<Message>, acks: seq<Message>, controls: seq<Control>)

  datatype Entry =
    | WasCaptured(place: Place, step: Step)
    | WasEmitted(step: Step)
    | WasDropped(step: Step)
    | WasWiped(place: Place, step: Step)
    | TabClosed(tab: nat)
    | Unpaired

  datatype State = State(
    desk: Desk,
    tabs: map<nat, Tab>,
    stores: map<Place, Store>,
    wires: Wires,
    history: seq<Entry>,
    nextNonce: nat
  )

  datatype Event =
    | Open(tab: nat, origin: string)          // a page load, in a new tab or an old one
    | Close(tab: nat)
    | AnswerProbe(tab: nat)
    | ProbeArrives(tab: nat, url: string)
    | Capture(tab: nat, name: string)
    | Flush(tab: nat)
    | BarPause(tab: nat, paused: bool)
    | BarStop(tab: nat)                       // also when sending throws: the script turns itself off
    | Deliver(message: nat)
    | Lose(message: nat)
    | AckArrives(ack: nat)
    | LoseAck(ack: nat)
    | ControlArrives(control: nat, url: string)
    | LoseControl(control: nat)
    | Arm(tab: nat)
    | Disarm(tab: nat, tell: bool)
    | Pair
    | SocketUp
    | SocketDown
    | Joined
    | Disconnect                              // by the popup, an expired session or the grace timer
    | ViewerControl(action: Action)
    | RestartWorker

  function StoreAt(stores: map<Place, Store>, place: Place): Store {
    if place in stores then stores[place] else NO_STORE
  }

  function Omit<T>(list: seq<T>, i: nat): seq<T>
    requires i < |list|
  {
    list[..i] + list[i + 1..]
  }

  // ----- what a page does -----

  function PlaceOf(s: State, tab: nat): Place
    requires tab in s.tabs
  {
    Place(tab, s.tabs[tab].origin)
  }

  function PageAt(s: State, tab: nat): Page
    requires tab in s.tabs
  {
    Page(s.tabs[tab].script, StoreAt(s.stores, PlaceOf(s, tab)), [], [], [])
  }

  function Sent(place: Place, sender: nat, steps: seq<Step>): seq<Message> {
    seq(|steps|, i requires 0 <= i < |steps| => Message(place, sender, steps[i]))
  }

  function Noted(place: Place, p: Page): seq<Entry> {
    seq(|p.wiped|, i requires 0 <= i < |p.wiped| => WasWiped(place, p.wiped[i]))
      + seq(|p.captured|, i requires 0 <= i < |p.captured| => WasCaptured(place, p.captured[i]))
  }

  /** The state after the page of a tab has become p. */
  function Put(s: State, tab: nat, p: Page): State
    requires tab in s.tabs
  {
    var place := PlaceOf(s, tab);
    s.(tabs := s.tabs[tab := s.tabs[tab].(script := p.script)],
       stores := s.stores[place := p.store],
       wires := s.wires.(messages := s.wires.messages + Sent(place, p.script.nonce, p.sent)),
       history := s.history + Noted(place, p))
  }

  function Probed(s: State, tab: nat, probe: Probe): State
    requires tab in s.tabs
  {
    s.(tabs := s.tabs[tab := s.tabs[tab].(probe := probe)])
  }

  // ----- what the worker does -----

  function Verdicts(verdict: Verdict, step: Step): seq<Entry> {
    match verdict
    case NotArmed => [WasDropped(step)]
    case WhilePaused => [WasDropped(step)]
    case Forwarded => [WasEmitted(step)]
    case AlreadySent => []
    case NoSocket => []
  }

  function Delivered(s: State, i: nat): State
    requires i < |s.wires.messages|
  {
    var m := s.wires.messages[i];
    var verdict := Judge(s.desk, m.place.tab, m.step.cid);
    s.(desk := AfterStep(s.desk, m.place.tab, m.step.cid),
       wires := s.wires.(messages := Omit(s.wires.messages, i),
                         acks := s.wires.acks + if Received(verdict) then [m] else []),
       history := s.history + Verdicts(verdict, m.step))
  }

  /** The acknowledged step leaves the storage, if the script that waits for it still runs. */
  function AckHandled(s: State, i: nat): State
    requires i < |s.wires.acks|
  {
    var a := s.wires.acks[i];
    var alive := a.place.tab in s.tabs && s.tabs[a.place.tab].script.nonce == a.sender;
    s.(stores := if alive then s.stores[a.place := Removed(StoreAt(s.stores, a.place), a.step.cid)] else s.stores,
       wires := s.wires.(acks := Omit(s.wires.acks, i)))
  }

  /** The pairing ends: the worker forgets it and tells the armed tabs. */
  function Unpair(s: State, link: Link, tell: bool): State {
    s.(desk := Disconnected().(link := link),
       wires := s.wires.(controls := s.wires.controls + if tell then StopsFor(s.desk.armed) else []),
       history := s.history + [Unpaired])
  }

  predicate Enabled(s: State, e: Event) {
    match e
    case Open(tab, _) => TabClosed(tab) !in s.history    // the browser does not reuse tab ids
    case Close(tab) => tab in s.tabs
    case AnswerProbe(tab) => tab in s.tabs && s.tabs[tab].probe == Asked
    case ProbeArrives(tab, _) => tab in s.tabs && s.tabs[tab].probe.Answered?
    case Capture(tab, _) => tab in s.tabs
    case Flush(tab) => tab in s.tabs && s.tabs[tab].script.active
    case BarPause(tab, _) => tab in s.tabs
    case BarStop(tab) => tab in s.tabs
    case Deliver(i) => i < |s.wires.messages|
    case Lose(i) => i < |s.wires.messages|
    case AckArrives(i) => i < |s.wires.acks|
    case LoseAck(i) => i < |s.wires.acks|
    case ControlArrives(i, _) => i < |s.wires.controls| && s.wires.controls[i].tab in s.tabs
    case LoseControl(i) => i < |s.wires.controls|
    case Arm(tab) => TabClosed(tab) !in s.history         // the popup arms the tab it is opened on
    case Disarm(_, _) => true
    case Pair => true
    case SocketUp => s.desk.link.socket
    case SocketDown => true
    case Joined => s.desk.link.socket && s.desk.link.connected
    case Disconnect => true
    case ViewerControl(_) => s.desk.link.socket
    case RestartWorker => true
  }

  function After(s: State, e: Event): State
    requires Enabled(s, e)
  {
    match e
    case Open(tab, origin) =>
      s.(tabs := s.tabs[tab := Tab(origin, Script(s.nextNonce, false, false, 0), Asked)], nextNonce := s.nextNonce + 1)
    case Close(tab) =>
      s.(tabs := s.tabs - {tab}, stores := map p | p in s.stores && p.tab != tab :: s.stores[p],
         desk := s.desk.(armed := Without(s.desk.armed, tab)), history := s.history + [TabClosed(tab)])
    case AnswerProbe(tab) => Probed(s, tab, Answered(tab in s.desk.armed))
    case ProbeArrives(tab, url) =>
      var t := Probed(s, tab, Known);
      if s.tabs[tab].probe.armed then Put(t, tab, Activated(PageAt(t, tab), url)) else t
    case Capture(tab, name) => Put(s, tab, Emitted(PageAt(s, tab), name))
    case Flush(tab) => Put(s, tab, Flushed(PageAt(s, tab)))
    case BarPause(tab, paused) => Put(s, tab, Controlled(PageAt(s, tab), if paused then Pause else Resume, ""))
    case BarStop(tab) => Put(s, tab, Deactivated(PageAt(s, tab)))
    case Deliver(i) => Delivered(s, i)
    case Lose(i) => s.(wires := s.wires.(messages := Omit(s.wires.messages, i)))
    case AckArrives(i) => AckHandled(s, i)
    case LoseAck(i) => s.(wires := s.wires.(acks := Omit(s.wires.acks, i)))
    case ControlArrives(i, url) =>
      var c := s.wires.controls[i];
      var t := s.(wires := s.wires.(controls := Omit(s.wires.controls, i)));
      Put(t, c.tab, Controlled(PageAt(t, c.tab), c.action, url))
    case LoseControl(i) => s.(wires := s.wires.(controls := Omit(s.wires.controls, i)))
    case Arm(tab) =>
      s.(desk := s.desk.(armed := With(s.desk.armed, tab)),
         wires := s.wires.(controls := s.wires.controls + [Control(tab, Start)]))
    case Disarm(tab, tell) =>
      s.(desk := s.desk.(armed := Without(s.desk.armed, tab)),
         wires := s.wires.(controls := s.wires.controls + if tell then [Control(tab, Stop)] else []))
    case Pair => Unpair(s, Link(true, false, false), true)
    case SocketUp => s.(desk := s.desk.(link := s.desk.link.(connected := true)))
    case SocketDown => s.(desk := s.desk.(link := s.desk.link.(connected := false)))
    case Joined => s.(desk := s.desk.(link := s.desk.link.(joined := true)))
    case Disconnect => Unpair(s, NO_LINK, true)
    case ViewerControl(action) =>
      s.(desk := AfterControl(s.desk, action),
         wires := s.wires.(controls := s.wires.controls + if action == Stop then StopsFor(s.desk.armed) else []))
    case RestartWorker => Unpair(s, NO_LINK, false)
  }

  const INIT := State(Disconnected(), map[], map[], Wires([], [], []), [], 0)

  predicate Valid(s: State, events: seq<Event>)
    decreases |events|, 0
  {
    events == [] || (Valid(s, events[..|events| - 1])
                     && Enabled(Exec(s, events[..|events| - 1]), events[|events| - 1]))
  }

  /** The state after a run. */
  function Exec(s: State, events: seq<Event>): State
    requires Valid(s, events)
    decreases |events|, 1
  {
    if events == [] then s
    else After(Exec(s, events[..|events| - 1]), events[|events| - 1])
  }

  lemma {:induction false} ExecConcat(s: State, a: seq<Event>, b: seq<Event>)
    requires Valid(s, a) && Valid(Exec(s, a), b)
    ensures Valid(s, a + b) && Exec(s, a + b) == Exec(Exec(s, a), b)
  {
    hide After, Enabled;
    if b == [] {
      assert a + b == a;
    } else {
      var front := b[..|b| - 1];
      ExecConcat(s, a, front);
      assert (a + b)[..|a + b| - 1] == a + front;
    }
  }

  ghost predicate Leads(s: State, events: seq<Event>, t: State) { Valid(s, events) && Exec(s, events) == t }

  ghost predicate Reachable(s: State) {
    exists events :: Valid(INIT, events) && Exec(INIT, events) == s
  }
}
