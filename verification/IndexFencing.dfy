/**
 Fencing: what a job of an older generation can and cannot do. Nothing here assumes
 anything about the queue: a generation may be delivered any number of times, to any
 number of workers at once, and workers may crash.
 */
module IndexFencing {
  import opened Common
  import opened IndexStore
  import opened IndexProtocol

  function Active(s: State): Option<nat> { s.db.row.activeGeneration }

  function Requested(s: State): nat { s.db.row.requestedGeneration }

  ghost predicate WorkerBelongs(s: State, w: Worker) {
    w.generation in s.enqueued && (w.pc != LoadRow ==> w.context.generation == w.generation || !Live(w))
  }

  ghost predicate FenceInv(s: State) {
    && (Active(s).Some? ==> Active(s).value <= Requested(s))
    && (forall g :: g in s.announced ==> g <= Requested(s) && g !in s.enqueued)
    && (forall g :: g in s.enqueued ==> g <= Requested(s))
    && s.queue <= s.enqueued
    && (forall id :: id in s.workers ==> WorkerBelongs(s, s.workers[id]))
  }

  /** What one statement may do to the row, whatever it is. */
  lemma RowFrame(row: Row, w: Worker, input: Input)
    requires w.pc != LoadRow && Live(w) ==> w.context.generation == w.generation
    ensures var row' := RowAfter(row, w, input);
      && row'.requestedGeneration == row.requestedGeneration
      && row'.deleted == row.deleted
      && (!Current(row, w.generation) && Live(w) ==> row' == row)
      && (row'.activeGeneration != row.activeGeneration && Live(w) ==>
            w.pc == Flip && row'.activeGeneration == Some(w.generation) && Current(row, w.generation))
  {
  }

  lemma WorkerFrame(db: Db, w: Worker, input: Input)
    requires Accepts(w, input)
    requires w.pc != LoadRow ==> w.context.generation == w.generation
    ensures WorkerAfter(db, w, input).generation == w.generation
    ensures Live(WorkerAfter(db, w, input)) ==> WorkerAfter(db, w, input).context.generation == w.generation
  {
  }

  lemma StepKeepsFence(s: State, e: Event)
    requires FenceInv(s) && Enabled(s, e)
    ensures FenceInv(Step(s, e))
    ensures Requested(s) <= Requested(Step(s, e))
    ensures Active(s).Some? ==> Active(Step(s, e)).Some? && Active(s).value <= Active(Step(s, e)).value
  {
    hide RowAfter, WorkerAfter, ChunksAfter, Accepts;
    if e.Work? {
      WorkKeepsFence(s, e);
    }
  }

  lemma WorkKeepsFence(s: State, e: Event)
    requires FenceInv(s) && Enabled(s, e) && e.Work?
    ensures FenceInv(Step(s, e)) && Requested(s) == Requested(Step(s, e))
    ensures Active(s).Some? ==> Active(Step(s, e)).Some? && Active(s).value <= Active(Step(s, e)).value
  {
    hide RowAfter, WorkerAfter, ChunksAfter, Accepts;
    assert WorkerBelongs(s, s.workers[e.id]);
    AcceptsLive(s.workers[e.id], e.input);
    RowFrame(s.db.row, s.workers[e.id], e.input);
    WorkerFrame(s.db, s.workers[e.id], e.input);
  }

  lemma AcceptsLive(w: Worker, input: Input)
    requires Accepts(w, input)
    ensures Live(w)
  {
  }

  lemma {:induction false} RunKeepsFence(s: State, events: seq<Event>)
    requires FenceInv(s) && Valid(s, events)
    ensures FenceInv(Exec(s, events))
    ensures Requested(s) <= Requested(Exec(s, events))
    ensures Active(s).Some? ==>
      Active(Exec(s, events)).Some? && Active(s).value <= Active(Exec(s, events)).value
    decreases |events|
  {
    if events != [] {
      RunKeepsFence(s, events[..|events| - 1]);
      StepKeepsFence(Exec(s, events[..|events| - 1]), events[|events| - 1]);
    }
  }

  lemma {:induction false} ExecSplits(s: State, first: seq<Event>, second: seq<Event>)
    requires Valid(s, first + second)
    ensures Valid(s, first) && Valid(Exec(s, first), second)
    ensures Exec(s, first + second) == Exec(Exec(s, first), second)
    decreases |second|
  {
    if second == [] {
      assert first + second == first;
    } else {
      var front := second[..|second| - 1];
      assert (first + second)[..|first + second| - 1] == first + front;
      ExecSplits(s, first, front);
    }
  }

  /** In every run the active generation never exceeds the requested one and never goes back. */
  lemma ActiveGenerationAdvances(first: seq<Event>, second: seq<Event>)
    requires Valid(INIT, first + second)
    ensures Valid(INIT, first)
    ensures var (before, after) := (Exec(INIT, first), Exec(INIT, first + second));
      && (Active(after).Some? ==> Active(after).value <= Requested(after))
      && (Active(before).Some? ==> Active(after).Some? && Active(before).value <= Active(after).value)
  {
    ExecSplits(INIT, first, second);
    RunKeepsFence(INIT, first);
    RunKeepsFence(Exec(INIT, first), second);
  }

  lemma StepKeepsSuperseded(s: State, e: Event, generation: nat)
    requires FenceInv(s) && Enabled(s, e) && generation <= Requested(s) && !Current(s.db.row, generation)
    ensures generation <= Requested(Step(s, e)) && !Current(Step(s, e).db.row, generation)
  {
    if e.Work? {
      assert WorkerBelongs(s, s.workers[e.id]);
      RowFrame(s.db.row, s.workers[e.id], e.input);
    }
    hide FenceInv, WorkersAfter, WorkerAfter, RowAfter, ChunksAfter, Accepts;
  }

  /** A generation that is not current stays so: a request on a deleted row moves the generation on. */
  lemma {:induction false} StaysSuperseded(s: State, events: seq<Event>, generation: nat)
    requires FenceInv(s) && Valid(s, events)
    requires generation <= Requested(s) && !Current(s.db.row, generation)
    ensures generation <= Requested(Exec(s, events)) && !Current(Exec(s, events).db.row, generation)
    decreases |events|
  {
    hide FenceInv, Step, Current;
    if events != [] {
      var front := events[..|events| - 1];
      StaysSuperseded(s, front, generation);
      RunKeepsFence(s, front);
      StepKeepsSuperseded(Exec(s, front), events[|events| - 1], generation);
    }
  }

  /**
   Once a newer generation has been requested, or the row deleted, no step of a job of
   the older generation changes the branch-index row, ever again.
   */
  lemma SupersededJobNeverWritesRow(before: seq<Event>, after: seq<Event>, id: nat, input: Input)
    requires Valid(INIT, before + after + [Work(id, input)])
    requires Valid(INIT, before) && Valid(INIT, before + after)
    requires var w := Exec(INIT, before + after).workers[id];
      w.generation <= Requested(Exec(INIT, before)) && !Current(Exec(INIT, before).db.row, w.generation)
    ensures Exec(INIT, before + after + [Work(id, input)]).db.row == Exec(INIT, before + after).db.row
  {
    hide FenceInv, Step, Current;
    var run := before + after + [Work(id, input)];
    assert run[..|run| - 1] == before + after;
    var s := Exec(INIT, before + after);
    InitFence();
    ExecSplits(INIT, before, after);
    RunKeepsFence(INIT, before);
    RunKeepsFence(INIT, before + after);
    StaysSuperseded(Exec(INIT, before), after, s.workers[id].generation);
    SupersededStep(s, id, input);
  }

  lemma InitFence()
    ensures FenceInv(INIT)
  {
  }

  lemma SupersededStep(s: State, id: nat, input: Input)
    requires FenceInv(s) && Enabled(s, Work(id, input)) && !Current(s.db.row, s.workers[id].generation)
    ensures Step(s, Work(id, input)).db.row == s.db.row
  {
    hide WorkersAfter, WorkerAfter, RowAfter, ChunksAfter;
    RowFrame(s.db.row, s.workers[id], input);
  }
}
