/**
 The request body gets through: from every run of `RequestFlow` whose filter has
 its queue, the worker, the reader and the reactor move, by themselves, all that
 the client has sent, and its end if it has ended, into the reader's hands.
 */
module RequestProgress {
  import opened Basics
  import opened Streams
  import opened RequestFlow
  import R = RequestFlow

  /** The reader has all the client has said. */
  predicate CaughtUp(s: State) {
    s.taken == s.sent && (s.clientDone ==> s.queue.ended && s.queue.items == [])
  }

  /** The filter has its queue, so the body is on its way. */
  predicate OnItsWay(s: State) {
    Inv(s) && Conserved(s) && s.Forwards()
  }

  /** What the worker does next, a buffer at a time; at rest it runs the next event. */
  function NextOfWorker(s: State): EnvoyStep {
    match s.worker
    case Idle => EventRuns
    case Sizing => Size
    case FromRetained(room, _) =>
      if room > 0 && s.retained != [] then PushRetained(Min(room, |s.retained|)) else LeaveBuffer
    case FromReceived(room, _) =>
      if room > 0 && s.received != [] then PushReceived(Min(room, |s.received|)) else LeaveBuffer
    case Ending(_) => PushEnd
    case Waking => Owe
    case Dropped => Owe
  }

  /** The reader reads on; parked, the reactor resumes it. */
  function NextOfReader(s: State): ReaderStep {
    match s.reader
    case Away => BeginFill
    case Taking => TakeNext
    case Took(_) => WakeWorker
    case Deciding => Park
    case Parked => Resolve
    case Resumed => Resume
  }

  /** The worker finishes its pass and runs its events first. */
  function Next(s: State): Step {
    if s.worker != Idle || s.events > 0 then Envoy(NextOfWorker(s)) else Reader(NextOfReader(s))
  }

  // ------------------------------------------------------------------ distance

  /** What is still to be pushed and taken. */
  function ToMove(s: State): nat {
    2 * |s.Held()| + (if s.endPending then 2 else 0) + |s.queue.items|
  }

  function Stage(w: WorkerPc): nat {
    match w
    case Idle => 0
    case Dropped => 1
    case Waking => 2
    case Ending(_) => 3
    case FromReceived(_, _) => 4
    case FromRetained(_, _) => 5
    case Sizing => 6
  }

  /** Passes still to run, the one running included. */
  function Passes(s: State): nat {
    7 * s.events + Stage(s.worker) + if s.reader.Took? then 8 else 0
  }

  function Reach(r: ReaderPc): nat {
    match r
    case Taking => 0
    case Took(_) => 0
    case Away => 1
    case Deciding => 1
    case Resumed => 1
    case Parked => 2
  }

  predicate Closer(s: State, t: State) {
    || ToMove(t) < ToMove(s)
    || (ToMove(t) == ToMove(s) && Passes(t) < Passes(s))
    || (ToMove(t) == ToMove(s) && Passes(t) == Passes(s) && Reach(t.reader) < Reach(s.reader))
  }

  /** At rest, with something still to be read, something is queued that the reader need not wait for. */
  lemma SomethingQueued(s: State)
    requires OnItsWay(s) && !CaughtUp(s) && s.worker == Idle && s.events == 0 && !s.reader.Took?
    ensures s.queue.items != [] && s.queue.ReadReady()
  {
    if s.Held() == [] {
      assert s.pushed + [] == s.pushed;
      assert s.queue.items == [] ==> s.taken + ChunkBytes(s.queue.items) == s.taken;
    }
  }

  /** Nearer to the reader, with nothing more said by the client and the filter still holding its queue. */
  predicate Advances(s: State, t: State) {
    Closer(s, t) && t.sent == s.sent && t.clientDone == s.clientDone && t.Forwards() == s.Forwards()
  }

  lemma RetainedAdvances(s: State, k: nat)
    requires s.worker.FromRetained? && 0 < k <= Min(s.worker.room, |s.retained|)
    ensures Advances(s, CopyRetained(s, k))
  {
  }

  lemma ReceivedAdvances(s: State, k: nat)
    requires s.worker.FromReceived? && 0 < k <= Min(s.worker.room, |s.received|)
    ensures Advances(s, CopyReceived(s, k))
  {
  }

  /** The worker alone moves on. */
  lemma MovesOn(s: State, w: WorkerPc)
    requires Stage(w) < Stage(s.worker)
    ensures Advances(s, s.(worker := w))
  {
  }

  lemma Returns(s: State)
    requires Stage(s.worker) > 0
    ensures Advances(s, Return(s)) && Advances(s, Return(s.(owed := true)))
  {
    ReturnKeepsHeld(s);
    ReturnKeepsHeld(s.(owed := true));
  }

  lemma EndGoesIn(s: State)
    requires s.worker.Ending? && s.endPending && s.Held() == []
    ensures Advances(s, s.(queue := s.queue.Push(End).0, endPending := false, worker := Waking))
  {
  }

  lemma StopAdvances(s: State)
    requires match s.worker
             case FromRetained(room, _) => room == 0 || s.retained == []
             case FromReceived(room, _) => room == 0 || s.received == []
             case _ => false
    ensures Advances(s, StopCopying(s))
  {
    MovesOn(s, StopCopying(s).worker);
  }

  lemma FinishAdvances(s: State)
    requires s.worker.Ending?
    ensures Advances(s, FinishCopy(s))
  {
    if s.endPending && s.Held() == [] {
      EndGoesIn(s);
    } else if s.worker.copied {
      MovesOn(s, Waking);
    } else {
      Returns(s);
    }
  }

  lemma OweAdvances(s: State)
    requires s.worker in {Waking, Dropped}
    ensures Advances(s, Owes(s))
  {
    Returns(s);
  }

  lemma StartAdvances(s: State)
    requires s.worker == Sizing || (s.worker == Idle && s.events > 0 && s.Forwards())
    ensures Advances(s, EnvoyMoves(s, NextOfWorker(s)))
  {
  }

  lemma WorkerAdvances(s: State)
    requires s.Forwards() && (s.worker != Idle || s.events > 0)
    ensures Advances(s, EnvoyMoves(s, NextOfWorker(s)))
  {
    match s.worker
    case Idle => StartAdvances(s);
    case Sizing => StartAdvances(s);
    case FromRetained(room, _) =>
      if room > 0 && s.retained != [] {
        RetainedAdvances(s, Min(room, |s.retained|));
      } else {
        StopAdvances(s);
      }
    case FromReceived(room, _) =>
      if room > 0 && s.received != [] {
        ReceivedAdvances(s, Min(room, |s.received|));
      } else {
        StopAdvances(s);
      }
    case Ending(_) => FinishAdvances(s);
    case Waking => OweAdvances(s);
    case Dropped => OweAdvances(s);
  }

  lemma ReaderAdvances(s: State)
    requires OnItsWay(s) && !CaughtUp(s) && s.worker == Idle && s.events == 0
    ensures Advances(s, ReaderMoves(s, NextOfReader(s)))
  {
    if !s.reader.Took? {
      SomethingQueued(s);
    }
  }

  lemma StaysOnItsWay(s: State)
    requires Inv(s) && Conserved(s)
    ensures Inv(R.Apply(s, Next(s))) && Conserved(R.Apply(s, Next(s)))
  {
    if s.worker != Idle || s.events > 0 {
      EnvoyKeeps(s, NextOfWorker(s));
      EnvoyConserves(s, NextOfWorker(s));
    } else {
      ReaderKeeps(s, NextOfReader(s));
      ReaderConserves(s, NextOfReader(s));
    }
  }

  lemma NextAdvances(s: State)
    requires OnItsWay(s) && !CaughtUp(s)
    ensures OnItsWay(R.Apply(s, Next(s))) && Advances(s, R.Apply(s, Next(s)))
  {
    StaysOnItsWay(s);
    if s.worker != Idle || s.events > 0 {
      WorkerAdvances(s);
    } else {
      ReaderAdvances(s);
    }
  }

  /** Nothing that the client or the application does: no frame, no reply, no drop, no reader stopped. */
  predicate ByThemselves(steps: seq<Step>) {
    forall i :: 0 <= i < |steps| ==>
      !(steps[i].Envoy? && (steps[i].e.Deliver? || steps[i].e in {ReplyLocally, DropFilter})) && steps[i] != Reader(Stop)
  }

  lemma {:induction false} GetsThrough(s: State) returns (more: seq<Step>)
    requires OnItsWay(s)
    ensures CaughtUp(RunFrom(s, more)) && RunFrom(s, more).sent == s.sent && ByThemselves(more)
    decreases ToMove(s), Passes(s), Reach(s.reader)
  {
    if CaughtUp(s) {
      more := [];
    } else {
      NextAdvances(s);
      var rest := GetsThrough(R.Apply(s, Next(s)));
      more := [Next(s)] + rest;
      R.OneMore(s, Next(s), rest);
    }
  }

  /**
   Progress: after every run, unless the filter was dropped or has let go, the
   body gets through: all the client has sent reaches the reader, and the end of
   a body that is finished, without a further word from client or application.
   */
  lemma WholeBodyGetsThrough(budget: nat, steps: seq<Step>) returns (more: seq<Step>)
    requires R.Run(budget, steps).Forwards()
    ensures var t := RunFrom(R.Run(budget, steps), more);
            CaughtUp(t) && t.sent == R.Run(budget, steps).sent && ByThemselves(more)
  {
    Invariant(budget, steps);
    more := GetsThrough(R.Run(budget, steps));
  }
}
