/** What travels between the recorder's content scripts and its background worker. */
module RecorderSteps {
  /** A step id: the content script's nonce and the script's running index. */
  datatype Cid = Cid(script: nat, index: nat)

  datatype Step = Step(cid: Cid, name: string)

  datatype Action = Start | Stop | Pause | Resume

  /** A control message to the content script of a tab. */
  datatype Control = Control(tab: nat, action: Action)
}

/**
 The background worker: it owns the socket, knows which tabs are armed and which step ids
 it has already forwarded, and answers every step with whether to stop retrying it.
 */
module RecorderBackground {
  import opened RecorderSteps

  datatype Link = Link(socket: bool, connected: bool, joined: bool)

  /** The worker's module variables; `armed` in insertion order, as a JavaScript Set keeps it. */
  datatype Desk = Desk(link: Link, paused: bool, armed: seq<nat>, seen: set<Cid>)

  const NO_LINK := Link(false, false, false)

  datatype Verdict = NotArmed | AlreadySent | WhilePaused | NoSocket | Forwarded

  predicate SocketReady(link: Link) { link.socket && link.connected && link.joined }

  /** What becomes of a step; tab ids start at 1, 0 stands for a message without a tab. */
  function Judge(desk: Desk, tab: nat, cid: Cid): Verdict {
    if tab == 0 || tab !in desk.armed then NotArmed
    else if cid in desk.seen then AlreadySent
    else if desk.paused then WhilePaused
    else if !SocketReady(desk.link) then NoSocket
    else Forwarded
  }

  /** The reply: only a step that met no socket is to be sent again. */
  predicate Received(verdict: Verdict) { verdict != NoSocket }

  function AfterStep(desk: Desk, tab: nat, cid: Cid): Desk {
    if Judge(desk, tab, cid) == Forwarded then desk.(seen := desk.seen + {cid}) else desk
  }

  function Without(tabs: seq<nat>, tab: nat): seq<nat> {
    if tabs == [] then []
    else Without(tabs[..|tabs| - 1], tab) + if tabs[|tabs| - 1] == tab then [] else [tabs[|tabs| - 1]]
  }

  function With(tabs: seq<nat>, tab: nat): seq<nat> {
    if tab in tabs then tabs else tabs + [tab]
  }

  function StopsFor(tabs: seq<nat>): seq<Control> {
    if tabs == [] then [] else StopsFor(tabs[..|tabs| - 1]) + [Control(tabs[|tabs| - 1], Stop)]
  }

  /** One stop for each tab, in their order. */
  lemma {:induction false} StopsInOrder(tabs: seq<nat>)
    ensures |StopsFor(tabs)| == |tabs|
    ensures forall i :: 0 <= i < |tabs| ==> StopsFor(tabs)[i] == Control(tabs[i], Stop)
  {
    if tabs != [] { StopsInOrder(tabs[..|tabs| - 1]); }
  }

  lemma {:induction false} WithoutRemoves(tabs: seq<nat>, tab: nat)
    ensures forall t :: t in Without(tabs, tab) <==> t in tabs && t != tab
  {
    if tabs != [] {
      WithoutRemoves(tabs[..|tabs| - 1], tab);
      assert tabs == tabs[..|tabs| - 1] + [tabs[|tabs| - 1]];
    }
  }

  /** The worker after its socket is dropped and all its memory of the pairing with it. */
  function Disconnected(): Desk { Desk(NO_LINK, false, [], {}) }

  /** A control from the viewer. Stop also leaves the worker paused. */
  function AfterControl(desk: Desk, action: Action): Desk {
    match action
    case Pause => desk.(paused := true)
    case Resume => desk.(paused := false)
    case Stop => desk.(paused := true, armed := [])
    case Start => desk
  }

  class Background {
    var link: Link
    var paused: bool
    var recordingTabs: seq<nat>
    var seenStepIds: set<Cid>
    /** What went out: steps to the socket, controls to the tabs. */
    var emitted: seq<Step>
    var controls: seq<Control>

    constructor ()
      ensures View() == Disconnected() && emitted == [] && controls == []
    {
      link, paused, recordingTabs, seenStepIds := NO_LINK, false, [], {};
      emitted, controls := [], [];
    }

    ghost function View(): Desk
      reads this
    {
      Desk(link, paused, recordingTabs, seenStepIds)
    }

    method StopAll()
      modifies this`controls
      ensures controls == old(controls) + StopsFor(recordingTabs)
    {
      assert controls == old(controls) + [];
      for n := 0 to |recordingTabs|
        invariant controls == old(controls) + StopsFor(recordingTabs[..n])
      {
        assert recordingTabs[..n + 1][..n] == recordingTabs[..n];
        controls := controls + [Control(recordingTabs[n], Stop)];
      }
      assert recordingTabs[..|recordingTabs|] == recordingTabs;
    }

    method Disconnect()
      modifies this
      ensures View() == Disconnected() && emitted == old(emitted)
      ensures !link.socket && !link.connected && !link.joined && !paused && recordingTabs == [] && seenStepIds == {}
      ensures controls == old(controls) + StopsFor(old(recordingTabs))
    {
      link := NO_LINK;
      paused := false;
      seenStepIds := {};
      StopAll();
      recordingTabs := [];
    }

    /** A new pairing; the socket connects and joins later. */
    method Connect()
      modifies this
      ensures View() == Disconnected().(link := Link(true, false, false)) && emitted == old(emitted)
      ensures controls == old(controls) + StopsFor(old(recordingTabs))
    {
      Disconnect();
      link := Link(true, false, false);
    }

    method OnControl(action: Action)
      modifies this
      ensures View() == AfterControl(old(View()), action) && emitted == old(emitted)
      ensures paused == if action == Start then old(paused) else action != Resume
      ensures recordingTabs == (if action == Stop then [] else old(recordingTabs))
      ensures link == old(link) && seenStepIds == old(seenStepIds)
      ensures controls == old(controls) + if action == Stop then StopsFor(old(recordingTabs)) else []
    {
      if action == Pause {
        paused := true;
      } else if action == Resume {
        paused := false;
      } else if action == Stop {
        paused := true;
        StopAll();
        recordingTabs := [];
      }
    }

    method ArmTab(tab: nat)
      modifies this`recordingTabs, this`controls
      ensures View() == old(View()).(armed := With(old(recordingTabs), tab))
      ensures forall t :: t in recordingTabs <==> t == tab || t in old(recordingTabs)
      ensures controls == old(controls) + [Control(tab, Start)]
    {
      if tab !in recordingTabs {
        recordingTabs := recordingTabs + [tab];
      }
      controls := controls + [Control(tab, Start)];
    }

    /** Disarmed from the popup (which tells the tab), by the tab's own bar, or with the tab. */
    method DisarmTab(tab: nat, tell: bool)
      modifies this`recordingTabs, this`controls
      ensures View() == old(View()).(armed := Without(old(recordingTabs), tab))
      ensures forall t :: t in recordingTabs <==> t in old(recordingTabs) && t != tab
      ensures controls == old(controls) + if tell then [Control(tab, Stop)] else []
    {
      var kept: seq<nat> := [];
      for n := 0 to |recordingTabs|
        invariant kept == Without(recordingTabs[..n], tab)
      {
        assert recordingTabs[..n + 1][..n] == recordingTabs[..n];
        if recordingTabs[n] != tab {
          kept := kept + [recordingTabs[n]];
        }
      }
      assert recordingTabs[..|recordingTabs|] == recordingTabs;
      WithoutRemoves(recordingTabs, tab);
      recordingTabs := kept;
      if tell {
        controls := controls + [Control(tab, Stop)];
      }
    }

    method OnStep(tab: nat, step: Step) returns (received: bool)
      modifies this`seenStepIds, this`emitted
      ensures received == Received(Judge(old(View()), tab, step.cid))
      ensures View() == AfterStep(old(View()), tab, step.cid)
      ensures emitted == old(emitted) + if Judge(old(View()), tab, step.cid) == Forwarded then [step] else []
      ensures var wanted := tab != 0 && tab in recordingTabs && step.cid !in old(seenStepIds) && !paused;
        var ready := link.socket && link.connected && link.joined;
        && received == (wanted ==> ready)
        && emitted == (if wanted && ready then old(emitted) + [step] else old(emitted))
        && seenStepIds == (if wanted && ready then old(seenStepIds) + {step.cid} else old(seenStepIds))
    {
      if tab == 0 || tab !in recordingTabs {
        return true;
      }
      if step.cid in seenStepIds {
        return true;
      }
      if paused {
        return true;
      }
      if !link.socket || !link.connected || !link.joined {
        return false;
      }
      emitted := emitted + [step];
      seenStepIds := seenStepIds + {step.cid};
      return true;
    }
  }
}
