/**
 The events of the recorder's state machine are calls of its two objects: each method here
 calls the worker or the content script and shows, from that call's contract, that the
 state after the event holds what the object holds, and that what the object sent is on the
 wires.
 */
module RecorderMethods {
  import opened RecorderSteps
  import opened RecorderBackground
  import opened RecorderContent
  import opened RecorderProtocol

  // ----- the worker -----

  /** Handling a step's message: the worker's memory, its reply, and what went out. */
  method HandleStep(worker: Background, ghost s: State, ghost i: nat, tab: nat, step: Step) returns (received: bool)
    requires Enabled(s, Deliver(i)) && worker.View() == s.desk
    requires s.wires.messages[i].place.tab == tab && s.wires.messages[i].step == step
    modifies worker
    ensures var (m, t) := (s.wires.messages[i], After(s, Deliver(i)));
      && worker.View() == t.desk
      && t.wires.acks == (if received then s.wires.acks + [m] else s.wires.acks)
      && (worker.emitted == old(worker.emitted) + [step] <==> t.history == s.history + [WasEmitted(step)])
      && (worker.emitted == old(worker.emitted) || worker.emitted == old(worker.emitted) + [step])
  {
    received := worker.OnStep(tab, step);
    assert |s.history + [WasEmitted(step)]| == |s.history| + 1;
    assert (s.history + [WasDropped(step)])[|s.history|] != (s.history + [WasEmitted(step)])[|s.history|];
    assert |old(worker.emitted) + [step]| == |old(worker.emitted)| + 1;
  }

  /** The controls that a call has sent, after those that were on the wires. */
  ghost predicate SentOn(s: State, t: State, before: seq<Control>, after: seq<Control>) {
    before <= after && t.wires.controls == s.wires.controls + after[|before|..]
  }

  method Arms(worker: Background, ghost s: State, tab: nat)
    requires Enabled(s, Arm(tab)) && worker.View() == s.desk
    modifies worker
    ensures worker.View() == After(s, Arm(tab)).desk
    ensures SentOn(s, After(s, Arm(tab)), old(worker.controls), worker.controls)
  {
    worker.ArmTab(tab);
  }

  method Disarms(worker: Background, ghost s: State, tab: nat, tell: bool)
    requires worker.View() == s.desk
    modifies worker
    ensures worker.View() == After(s, Disarm(tab, tell)).desk
    ensures SentOn(s, After(s, Disarm(tab, tell)), old(worker.controls), worker.controls)
  {
    worker.DisarmTab(tab, tell);
  }

  method Disconnects(worker: Background, ghost s: State)
    requires worker.View() == s.desk
    modifies worker
    ensures worker.View() == After(s, Event.Disconnect).desk
    ensures SentOn(s, After(s, Event.Disconnect), old(worker.controls), worker.controls)
  {
    worker.Disconnect();
  }

  method Pairs(worker: Background, ghost s: State)
    requires worker.View() == s.desk
    modifies worker
    ensures worker.View() == After(s, Pair).desk
    ensures SentOn(s, After(s, Pair), old(worker.controls), worker.controls)
  {
    worker.Connect();
  }

  method TakesControl(worker: Background, ghost s: State, action: Action)
    requires Enabled(s, ViewerControl(action)) && worker.View() == s.desk
    modifies worker
    ensures worker.View() == After(s, ViewerControl(action)).desk
    ensures SentOn(s, After(s, ViewerControl(action)), old(worker.controls), worker.controls)
  {
    worker.OnControl(action);
  }

  /** A worker that starts again remembers nothing, and tells nobody. */
  method Restarts(ghost s: State) returns (worker: Background)
    ensures fresh(worker) && worker.View() == After(s, RestartWorker).desk
    ensures After(s, RestartWorker).wires == s.wires
  {
    worker := new Background();
  }

  // ----- a page -----

  method Captures(script: ContentScript, ghost s: State, ghost tab: nat, name: string)
    requires tab in s.tabs && script.View() == PageAt(s, tab)
    modifies script, script.storage
    ensures After(s, Capture(tab, name)) == Put(s, tab, script.View())
  {
    script.Emit(name);
  }

  method Flushes(script: ContentScript, ghost s: State, ghost tab: nat)
    requires Enabled(s, Flush(tab)) && script.View() == PageAt(s, tab)
    modifies script, script.storage
    ensures After(s, Flush(tab)) == Put(s, tab, script.View())
  {
    script.FlushBuffer();
  }

  /** The answer to the page's question activates it, if it is positive. */
  method LearnsArmed(script: ContentScript, ghost s: State, ghost tab: nat, armed: bool, url: string)
    requires tab in s.tabs && s.tabs[tab].probe == Answered(armed) && script.View() == PageAt(s, tab)
    modifies script, script.storage
    ensures var t := Probed(s, tab, Known);
      After(s, ProbeArrives(tab, url)) == if armed then Put(t, tab, script.View()) else t
    ensures !armed ==> script.View() == old(script.View())
  {
    if armed {
      script.Activate(url);
    }
  }

  /** A control from the worker. */
  method ObeysControl(script: ContentScript, ghost s: State, ghost i: nat, action: Action, url: string)
    requires Enabled(s, ControlArrives(i, url)) && s.wires.controls[i].action == action
    requires script.View() == PageAt(s, s.wires.controls[i].tab)
    modifies script, script.storage
    ensures var t := s.(wires := s.wires.(controls := Omit(s.wires.controls, i)));
      After(s, ControlArrives(i, url)) == Put(t, s.wires.controls[i].tab, script.View())
  {
    script.OnControl(action, url);
  }

  /** The page's own bar. */
  method PausesItself(script: ContentScript, ghost s: State, ghost tab: nat, paused: bool)
    requires tab in s.tabs && script.View() == PageAt(s, tab)
    modifies script, script.storage
    ensures After(s, BarPause(tab, paused)) == Put(s, tab, script.View())
  {
    script.OnControl(if paused then Pause else Resume, "");
  }

  method StopsItself(script: ContentScript, ghost s: State, ghost tab: nat)
    requires tab in s.tabs && script.View() == PageAt(s, tab)
    modifies script, script.storage
    ensures After(s, BarStop(tab)) == Put(s, tab, script.View())
  {
    script.Deactivate();
  }

  /** A confirmation for a step this script sent from this page. */
  method IsConfirmed(script: ContentScript, ghost s: State, ghost i: nat, ghost tab: nat, step: Step)
    requires Enabled(s, AckArrives(i)) && s.wires.acks[i].step == step
    requires tab in s.tabs && s.wires.acks[i].place == PlaceOf(s, tab) && s.wires.acks[i].sender == script.nonce
    requires script.View() == PageAt(s, tab)
    modifies script, script.storage
    ensures var t := After(s, AckArrives(i));
      PlaceOf(s, tab) in t.stores && t.stores[PlaceOf(s, tab)] == script.View().store
  {
    script.OnAck(step);
  }
}
