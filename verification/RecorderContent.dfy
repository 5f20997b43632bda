/**
 The content script of a page: steps are written to the tab's session storage before they
 are sent, kept there until the worker acknowledges them, and sent again by every flush.
 */
module RecorderContent {
  import opened Common
  import opened RecorderSteps

  /** The recorder's keys in the session storage of one tab and origin. */
  datatype Store = Store(buffer: seq<Step>, counter: Option<nat>)

  const NO_STORE := Store([], None)

  /** One injected script; `nonce` tells it from every other. */
  datatype Script = Script(nonce: nat, active: bool, paused: bool, stepCounter: nat)

  /**
   A script with its storage and what it has done: the steps sent to the worker, the steps
   captured, and the buffered steps thrown away by an explicit start.
   */
  datatype Page = Page(script: Script, store: Store, sent: seq<Step>, captured: seq<Step>, wiped: seq<Step>)

  function Kept(buffer: seq<Step>, cid: Cid): seq<Step> {
    if buffer == [] then []
    else Kept(buffer[..|buffer| - 1], cid)
         + if buffer[|buffer| - 1].cid == cid then [] else [buffer[|buffer| - 1]]
  }

  lemma {:induction false} KeptKeepsOthers(buffer: seq<Step>, cid: Cid)
    ensures forall step :: step in Kept(buffer, cid) <==> step in buffer && step.cid != cid
  {
    if buffer != [] {
      KeptKeepsOthers(buffer[..|buffer| - 1], cid);
      assert buffer == buffer[..|buffer| - 1] + [buffer[|buffer| - 1]];
    }
  }

  function Removed(store: Store, cid: Cid): Store { store.(buffer := Kept(store.buffer, cid)) }

  function Flushed(p: Page): Page { p.(sent := p.sent + p.store.buffer) }

  function Emitted(p: Page, name: string): Page {
    if !p.script.active || p.script.paused then p
    else
      var n := p.script.stepCounter;
      var step := Step(Cid(p.script.nonce, n), name);
      p.(script := p.script.(stepCounter := n + 1),
         store := Store(p.store.buffer + [step], Some(n + 1)),
         sent := p.sent + [step],
         captured := p.captured + [step])
  }

  function Restored(counter: nat, saved: Option<nat>): nat {
    if saved.Some? && saved.value > counter then saved.value else counter
  }

  /** Activation re-sends what an earlier script of the tab left behind, then records the page itself. */
  function Activated(p: Page, url: string): Page {
    if p.script.active then p
    else
      var script := p.script.(active := true, paused := false,
                              stepCounter := Restored(p.script.stepCounter, p.store.counter));
      Emitted(Flushed(p.(script := script)), "Navigate to " + url)
  }

  function Deactivated(p: Page): Page { p.(script := p.script.(active := false, paused := false)) }

  function Cleared(p: Page): Page { p.(store := NO_STORE, wiped := p.wiped + p.store.buffer) }

  function Controlled(p: Page, action: Action, url: string): Page {
    match action
    case Start => Activated(Cleared(p), url)
    case Stop => Deactivated(p)
    case Pause => p.(script := p.script.(paused := true))
    case Resume => p.(script := p.script.(paused := false))
  }

  /** The storage outlives the scripts that use it. */
  class SessionStorage {
    var buffer: seq<Step>
    var counter: Option<nat>

    constructor ()
      ensures buffer == [] && counter == None
    {
      buffer, counter := [], None;
    }
  }

  class ContentScript {
    const nonce: nat
    const storage: SessionStorage
    var active: bool
    var paused: bool
    var stepCounter: nat
    var sent: seq<Step>
    ghost var captured: seq<Step>
    ghost var wiped: seq<Step>

    constructor (nonce: nat, storage: SessionStorage)
      ensures this.storage == storage && storage.buffer == old(storage.buffer)
      ensures View() == Page(Script(nonce, false, false, 0), Store(storage.buffer, storage.counter), [], [], [])
    {
      this.nonce, this.storage := nonce, storage;
      active, paused, stepCounter, sent := false, false, 0, [];
      captured, wiped := [], [];
    }

    ghost function View(): Page
      reads this, storage
    {
      Page(Script(nonce, active, paused, stepCounter), Store(storage.buffer, storage.counter), sent, captured, wiped)
    }

    /** The worker's confirmation of a step. */
    method OnAck(step: Step)
      modifies storage
      ensures View() == old(View()).(store := Removed(old(View()).store, step.cid))
      ensures storage.counter == old(storage.counter)
      ensures forall x :: x in storage.buffer <==> x in old(storage.buffer) && x.cid != step.cid
    {
      var kept: seq<Step> := [];
      for n := 0 to |storage.buffer|
        invariant kept == Kept(storage.buffer[..n], step.cid)
        invariant storage.buffer == old(storage.buffer) && storage.counter == old(storage.counter)
      {
        assert storage.buffer[..n + 1][..n] == storage.buffer[..n];
        if storage.buffer[n].cid != step.cid {
          kept := kept + [storage.buffer[n]];
        }
      }
      assert storage.buffer[..|storage.buffer|] == storage.buffer;
      KeptKeepsOthers(storage.buffer, step.cid);
      storage.buffer := kept;
    }

    method FlushBuffer()
      modifies this`sent
      ensures View() == Flushed(old(View())) && sent == old(sent) + storage.buffer
    {
      var buf := storage.buffer;
      for n := 0 to |buf|
        invariant sent == old(sent) + buf[..n]
      {
        assert old(sent) + buf[..n + 1] == old(sent) + buf[..n] + [buf[n]];
        sent := sent + [buf[n]];
      }
      assert buf[..|buf|] == buf;
    }

    /** The next step, with the next index, is the last one stored and the last one sent. */
    ghost predicate Recorded(index: nat, before: seq<Step>, sentBefore: seq<Step>, name: string)
      reads this, storage
    {
      var step := Step(Cid(nonce, index), name);
      && storage.buffer == before + [step] && sent == sentBefore + [step]
      && captured != [] && captured[|captured| - 1] == step
      && stepCounter == index + 1 && storage.counter == Some(index + 1)
    }

    method Emit(name: string)
      modifies this, storage
      ensures View() == Emitted(old(View()), name)
      ensures active == old(active) && paused == old(paused)
      ensures if old(active) && !old(paused) then Recorded(old(stepCounter), old(storage.buffer), old(sent), name)
              else storage.buffer == old(storage.buffer) && storage.counter == old(storage.counter)
                   && sent == old(sent) && captured == old(captured) && stepCounter == old(stepCounter)
    {
      if !active {
        return;
      }
      if paused {
        return;
      }
      var idx := stepCounter;
      stepCounter := stepCounter + 1;
      var step := Step(Cid(nonce, idx), name);
      captured := captured + [step];
      storage.counter := Some(stepCounter);
      storage.buffer := storage.buffer + [step];
      sent := sent + [step];
    }

    method Activate(url: string)
      modifies this, storage
      ensures View() == Activated(old(View()), url)
      ensures active && (old(active) ==> View() == old(View()))
      ensures !old(active) ==>
        !paused && Recorded(if old(storage.counter).Some? && old(storage.counter).value > old(stepCounter)
                            then old(storage.counter).value else old(stepCounter),
                            old(storage.buffer), old(sent) + old(storage.buffer), "Navigate to " + url)
    {
      if active {
        return;
      }
      active, paused := true, false;
      if storage.counter.Some? && storage.counter.value > stepCounter {
        stepCounter := storage.counter.value;
      }
      FlushBuffer();
      Emit("Navigate to " + url);
    }

    method Deactivate()
      modifies this`active, this`paused
      ensures View() == Deactivated(old(View())) && !active && !paused
    {
      active, paused := false, false;
    }

    method OnControl(action: Action, url: string)
      modifies this, storage
      ensures View() == Controlled(old(View()), action, url)
      ensures action == Pause ==> paused && active == old(active)
      ensures action == Resume ==> !paused && active == old(active)
      ensures action == Stop ==> !active && !paused
      ensures action != Start ==> storage.buffer == old(storage.buffer) && storage.counter == old(storage.counter)
      ensures action == Start ==> active && wiped == old(wiped) + old(storage.buffer)
      ensures action == Start && old(active) ==> storage.buffer == [] && storage.counter == None
      ensures action == Start && !old(active) ==> Recorded(old(stepCounter), [], old(sent), "Navigate to " + url)
    {
      match action
      case Start =>
        wiped := wiped + storage.buffer;
        storage.buffer, storage.counter := [], None;
        Activate(url);
      case Stop => Deactivate();
      case Pause => paused := true;
      case Resume => paused := false;
    }
  }
}
