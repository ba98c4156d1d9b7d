/**
 A fiber waiting for what an upstream answers: the head, which `park` does not
 count as something to read, and then the body (ruby/upstream.rb).

 The worker's callbacks push items and then put the queue on `Wakeups`; another
 fiber of the request may close the exchange meanwhile, which the reader hears
 of once Envoy has reported the reset. Fibers and the reactor share one thread:
 the reactor resolves wakeups only while the reader has yielded. `oneThread` is
 false in runs without that rule, which lose wakeups.
 */
module ReaderPark {
  import opened Basics
  import opened Streams

  datatype ReaderPc =
    | Away
    /** About to call `take_next`. */
    | Taking
    /** Found nothing: about to see whether the stream is over. */
    | Asking
    /** It is not: about to park. */
    | AboutToPark
    | Parked
    | Resumed

  datatype Closing = Open | Cancelled | Flagged

  datatype Exchange =
    /** Queued for the worker. */
    | Unsent
    /** In the worker's table, its end not yet reported. */
    | InTable(resetSent: bool)
    /** Refused, completed, reset or abandoned. */
    | Over
    /** Closed before it started, and dropped without a word. */
    | Skipped

  datatype State = State(
    oneThread: bool,
    queue: Queue,
    reader: ReaderPc,
    /** A callback has run and is about to wake the reader. */
    owing: bool,
    owed: bool,
    closing: Closing,
    resetWanted: bool,
    /** Scheduled `UPSTREAM` events that have not run. */
    events: nat,
    exchange: Exchange)

  datatype Step =
    // The reading fiber.
    | BeginTaking
    | Take
    | GiveUp
    | KeepWaiting
    | Park
    | Resume
    | Stop
    // Another fiber.
    | CloseQueue
    | CloseFlag
    | CloseWake
    // The worker.
    | EventRuns(refused: bool)
    | Callback(item: Item)
    | Finish(item: Item)
    | Owe
    // The reactor.
    | Resolve

  // ---------------------------------------------------------------- invariant

  predicate Yielded(r: ReaderPc) {
    r in {Away, Parked, Resumed}
  }

  predicate WellFormed(s: State) {
    && !s.queue.paused
    && (s.reader == Parked <==> s.queue.waiter.Some?)
    && (s.closing != Open ==> s.queue.cancelled)
    && (s.closing == Flagged || s.resetWanted ==> s.queue.cancelled)
    && (s.closing == Flagged ==> s.resetWanted)
    && (s.exchange == Over ==> s.queue.ended || s.queue.cancelled)
    && (s.queue.cancelled ==> s.queue.items == [])
    && (s.exchange == Skipped ==> s.queue.cancelled)
    && (s.exchange == Unsent ==> s.events > 0)
  }

  /** On one thread, items that arrive after the fiber looked keep their wakeup until it has parked. */
  predicate ItemsAnnounced(s: State) {
    s.oneThread && s.reader in {Asking, AboutToPark, Parked} && s.queue.items != [] ==> s.owed || s.owing
  }

  /** A close that the worker has still to see, or whose reset Envoy has still to report. */
  predicate CloseDue(s: State) {
    && s.exchange in {Unsent, InTable(false), InTable(true)}
    && (s.closing != Open || (s.events > 0 && s.resetWanted) || s.exchange == InTable(true))
  }

  predicate EndsHeard(s: State) {
    && (s.reader == Parked && (s.queue.buffered > 0 || s.queue.ended || s.exchange == Over) ==> s.owed || s.owing)
    && (s.queue.cancelled && s.exchange in {Unsent, InTable(false), InTable(true)} ==> CloseDue(s))
  }

  predicate Inv(s: State) {
    WellFormed(s) && ItemsAnnounced(s) && EndsHeard(s)
  }

  // --------------------------------------------------------------------- steps

  function ReaderMoves(s: State, step: Step): State {
    match step
    case BeginTaking => if s.reader != Away then s else s.(reader := Taking)
    case Take =>
      if s.reader != Taking then s
      else
        var (q, item) := s.queue.TakeNext();
        s.(queue := q, reader := if item.None? then Asking else Away)
    case GiveUp => if s.reader != Asking || !s.queue.Finished() then s else s.(reader := Away)
    case KeepWaiting =>
      if s.reader != Asking || s.queue.Finished() then s else s.(reader := AboutToPark)
    case Park =>
      if s.reader != AboutToPark then s
      else
        var (q, parked) := s.queue.Park(0);
        s.(queue := q, reader := if parked then Parked else Taking)
    case Resume =>
      if s.reader != Resumed then s else s.(queue := s.queue.Unpark().0, reader := Taking)
    case Stop =>
      if s.reader !in {Parked, Resumed} then s else s.(queue := s.queue.Unpark().0, reader := Away)
    case _ => s
  }

  function CloserMoves(s: State, step: Step): State {
    match step
    case CloseQueue =>
      if s.closing != Open then s else s.(queue := s.queue.Cancel(), closing := Cancelled)
    case CloseFlag =>
      if s.closing != Cancelled then s else s.(resetWanted := true, closing := Flagged)
    case CloseWake =>
      if s.closing != Flagged then s else s.(events := s.events + 1, closing := Open)
    case _ => s
  }

  function WorkerMoves(s: State, step: Step): State {
    match step
    case EventRuns(refused) =>
      if s.events == 0 || s.owing then s
      else
        var t := s.(events := s.events - 1);
        if s.exchange == Unsent then
          if s.resetWanted then t.(exchange := Skipped)
          else if refused then t.(queue := s.queue.Push(Failed(Upstream)).0, exchange := Over, owing := true)
          else t.(exchange := InTable(false))
        else if s.exchange.InTable? && s.resetWanted then t.(exchange := InTable(true))
        else t
    case Callback(item) =>
      if !s.exchange.InTable? then s else s.(queue := s.queue.Push(item).0, owing := true)
    case Finish(item) =>
      if s.exchange !in {Unsent, InTable(false), InTable(true)} || !item.Terminal() then s
      else s.(queue := s.queue.Push(item).0, exchange := Over, owing := true)
    case Owe => if !s.owing then s else s.(owed := true, owing := false)
    case _ => s
  }

  function Apply(s: State, step: Step): State {
    match step
    case EventRuns(_) => WorkerMoves(s, step)
    case Callback(_) => WorkerMoves(s, step)
    case Finish(_) => WorkerMoves(s, step)
    case Owe => WorkerMoves(s, step)
    case CloseQueue => CloserMoves(s, step)
    case CloseFlag => CloserMoves(s, step)
    case CloseWake => CloserMoves(s, step)
    case Resolve =>
      if !s.owed || (s.oneThread && !Yielded(s.reader)) then s
      else
        var (q, waiter) := s.queue.Unpark();
        s.(queue := q, owed := false, reader := if waiter.Some? then Resumed else s.reader)
    case _ => ReaderMoves(s, step)
  }

  /** The exchange was queued, which scheduled an event for it. */
  function Init(oneThread: bool, budget: nat): State {
    State(oneThread, NewQueue(budget), Away, false, false, Open, false, 1, Unsent)
  }

  function Run(oneThread: bool, budget: nat, steps: seq<Step>): State {
    if steps == [] then Init(oneThread, budget) else Apply(Run(oneThread, budget, Front(steps)), Last(steps))
  }

  lemma ReaderKeeps(s: State, step: Step)
    requires Inv(s)
    ensures Inv(ReaderMoves(s, step))
  {
  }

  lemma CloserKeeps(s: State, step: Step)
    requires Inv(s)
    ensures Inv(CloserMoves(s, step))
  {
  }

  lemma WorkerKeeps(s: State, step: Step)
    requires Inv(s)
    ensures Inv(WorkerMoves(s, step))
  {
  }

  lemma ResolveKeeps(s: State)
    requires Inv(s)
    ensures Inv(Apply(s, Resolve))
  {
  }

  lemma StepKeeps(s: State, step: Step)
    requires Inv(s)
    ensures Inv(Apply(s, step))
  {
    ReaderKeeps(s, step);
    CloserKeeps(s, step);
    WorkerKeeps(s, step);
    ResolveKeeps(s);
  }

  lemma {:induction false} Invariant(oneThread: bool, budget: nat, steps: seq<Step>)
    ensures Inv(Run(oneThread, budget, steps))
  {
    if steps != [] {
      Invariant(oneThread, budget, Front(steps));
      StepKeeps(Run(oneThread, budget, Front(steps)), Last(steps));
    }
  }

  lemma KeepsThreads(s: State, step: Step)
    ensures Apply(s, step).oneThread ==> s.oneThread
    ensures s.oneThread ==> Apply(s, step).oneThread
  {
  }

  lemma {:induction false} SameThreads(oneThread: bool, budget: nat, steps: seq<Step>)
    ensures Run(oneThread, budget, steps).oneThread <==> oneThread
  {
    if steps != [] {
      SameThreads(oneThread, budget, Front(steps));
      KeepsThreads(Run(oneThread, budget, Front(steps)), Last(steps));
    }
  }

  // ----------------------------------------------------------------- theorems

  /**
   Waiting for a head loses no wakeup, although `park` lets a fiber park on a
   queue that holds nothing but a head: a fiber parked with anything queued is on
   `Wakeups`, or the callback that queued it is still to put it there.
   */
  lemma HeadWaitLosesNothing(budget: nat, steps: seq<Step>)
    ensures var s := Run(true, budget, steps);
            s.reader == Parked && s.queue.items != [] ==> s.owed || s.owing
  {
    Invariant(true, budget, steps);
    SameThreads(true, budget, steps);
  }

  /** A fiber has looked, found nothing, and is about to park. */
  lemma AboutToParkOnNothing(budget: nat) returns (steps: seq<Step>)
    ensures Run(false, budget, steps)
         == Init(false, budget).(reader := AboutToPark, exchange := InTable(false), events := 0)
  {
    var s: State;
    steps, s := Extend(false, budget, [], EventRuns(false));
    assert s == Init(false, budget).(exchange := InTable(false), events := 0);
    steps, s := Extend(false, budget, steps, BeginTaking);
    steps, s := Extend(false, budget, steps, Take);
    assert s == Init(false, budget).(reader := Asking, exchange := InTable(false), events := 0);
    steps, s := Extend(false, budget, steps, KeepWaiting);
  }

  /** The shared thread is what it takes: resolving between the look and the park strands the fiber. */
  lemma OtherThreadLosesHead(budget: nat, head: ResponseHead) returns (steps: seq<Step>)
    ensures var s := Run(false, budget, steps);
            && s.reader == Parked && s.queue.items == [Head(head)]
            && !s.owed && !s.owing && s.closing == Open && s.events == 0
  {
    var s: State;
    steps := AboutToParkOnNothing(budget);
    var before := Run(false, budget, steps);
    steps, s := Extend(false, budget, steps, Callback(Head(head)));
    assert s.queue == before.queue.Append(Head(head)) && s.owing;
    steps, s := Extend(false, budget, steps, Owe);
    steps, s := Extend(false, budget, steps, Resolve);
    assert s.queue == before.queue.Append(Head(head)) && s.reader == AboutToPark && !s.owed;
    steps, s := Extend(false, budget, steps, Park);
  }

  lemma Extend(oneThread: bool, budget: nat, steps: seq<Step>, step: Step) returns (longer: seq<Step>, t: State)
    ensures longer == steps + [step]
    ensures t == Run(oneThread, budget, longer) == Apply(Run(oneThread, budget, steps), step)
  {
    longer := steps + [step];
    assert Front(longer) == steps;
    t := Run(oneThread, budget, longer);
  }

  /**
   A reader parked on a stream that has delivered, ended or been closed hears of
   it: its wakeup is owed or about to be, or the close is on its way through the
   worker and Envoy. The exception is a stream closed before it started.
   */
  lemma WaiterHears(budget: nat, steps: seq<Step>)
    ensures var s := Run(true, budget, steps);
            s.reader == Parked && s.exchange != Skipped
            && (s.queue.items != [] || s.queue.ended || s.queue.cancelled) ==>
              s.owed || s.owing || CloseDue(s)
  {
    Invariant(true, budget, steps);
    SameThreads(true, budget, steps);
  }

  /** At rest, a reader of a stream that started waits only for what has not happened yet. */
  lemma AtRestNothingToHear(budget: nat, steps: seq<Step>)
    ensures var s := Run(true, budget, steps);
            s.reader == Parked && s.exchange in {InTable(false), Over}
            && !s.owed && !s.owing && s.closing == Open && s.events == 0 ==>
              s.queue.items == [] && !s.queue.ended && !s.queue.cancelled && s.exchange == InTable(false)
  {
    Invariant(true, budget, steps);
    SameThreads(true, budget, steps);
  }

  /**
   A reader that asks about a cancelled queue, or one that has ended with nothing
   left in it, gives up and does not wait; about any other it waits.
   */
  lemma AskingReaderIsAnswered(oneThread: bool, budget: nat, steps: seq<Step>)
    ensures var s := Run(oneThread, budget, steps);
            var given, kept := Run(oneThread, budget, steps + [GiveUp]), Run(oneThread, budget, steps + [KeepWaiting]);
            s.reader == Asking ==>
              if s.queue.cancelled || (s.queue.ended && s.queue.buffered == 0)
              then given == s.(reader := Away) && kept == s
              else given == s && kept == s.(reader := AboutToPark)
  {
    var longer, t := Extend(oneThread, budget, steps, GiveUp);
    longer, t := Extend(oneThread, budget, steps, KeepWaiting);
  }

  /** What is queued is taken, in order; what Envoy brings is queued and told, unless the queue is over. */
  lemma ItemsGoThrough(oneThread: bool, budget: nat, steps: seq<Step>, item: Item)
    ensures var s := Run(oneThread, budget, steps);
            var taken, brought := Run(oneThread, budget, steps + [Take]), Run(oneThread, budget, steps + [Callback(item)]);
            && (s.reader == Taking && s.queue.items != [] ==> taken.reader == Away && taken.queue.items == s.queue.items[1..])
            && (s.reader == Taking && s.queue.items == [] ==> taken == s.(reader := Asking))
            && (s.exchange.InTable? ==> brought.owing)
            && (s.exchange.InTable? && !s.queue.cancelled && !s.queue.ended ==>
                  brought.queue.items == s.queue.items + [item])
  {
    Invariant(oneThread, budget, steps);
    var longer, t := Extend(oneThread, budget, steps, Take);
    longer, t := Extend(oneThread, budget, steps, Callback(item));
  }

  /** A reader that is stopped leaves nobody's variable behind. */
  lemma StoppedReaderLeaves(oneThread: bool, budget: nat, steps: seq<Step>)
    ensures var s := Run(oneThread, budget, steps);
            s.reader in {Parked, Resumed} ==>
              Run(oneThread, budget, steps + [Stop]) == s.(queue := s.queue.(waiter := None), reader := Away)
  {
    var longer, t := Extend(oneThread, budget, steps, Stop);
  }

  /** A close cancels the queue, wants the reset, and schedules the event that says so, in this order. */
  lemma CloseGoesThrough(oneThread: bool, budget: nat, steps: seq<Step>)
    ensures var s := Run(oneThread, budget, steps);
            var t := Run(oneThread, budget, steps + [CloseQueue] + [CloseFlag] + [CloseWake]);
            s.closing == Open ==>
              t == s.(queue := s.queue.Cancel(), resetWanted := true, events := s.events + 1)
  {
    var longer, t := Extend(oneThread, budget, steps, CloseQueue);
    longer, t := Extend(oneThread, budget, longer, CloseFlag);
    longer, t := Extend(oneThread, budget, longer, CloseWake);
  }

  /** Once resumed, the reader of a cancelled exchange finds nothing and leaves. */
  lemma CancelledReaderLeaves(budget: nat, steps: seq<Step>)
    ensures var s := Run(true, budget, steps);
            s.reader == Resumed && s.queue.cancelled ==>
              Run(true, budget, steps + [Resume] + [Take] + [GiveUp]).reader == Away
  {
    Invariant(true, budget, steps);
    var longer, t := Extend(true, budget, steps, Resume);
    longer, t := Extend(true, budget, longer, Take);
    longer, t := Extend(true, budget, longer, GiveUp);
  }

  /** Something was said to the reader: an item, an end, or that the exchange is closed. */
  predicate HasBeenTold(q: Queue) {
    q.items != [] || q.ended || q.cancelled
  }

  /** Nothing is scheduled, running or owed, and Envoy owes the worker no report of a reset. */
  predicate AtRest(s: State) {
    !s.owed && !s.owing && s.closing == Open && s.events == 0 && s.exchange != InTable(true)
  }

  /** The exception is exact: at rest, a parked reader has been told something if and only if its stream was skipped. */
  lemma LeftWaitingExactlyWhenSkipped(budget: nat, steps: seq<Step>)
    ensures var s := Run(true, budget, steps);
            AtRest(s) && s.reader == Parked ==> (HasBeenTold(s.queue) <==> s.exchange == Skipped)
  {
    Invariant(true, budget, steps);
    SameThreads(true, budget, steps);
  }

  /** A fiber waits for the head of an exchange the worker has not started. */
  lemma WaitsUnstarted(budget: nat) returns (steps: seq<Step>)
    ensures Run(true, budget, steps) == Init(true, budget).(reader := Parked, queue := NewQueue(budget).(waiter := Some(0)))
  {
    var s: State;
    steps, s := Extend(true, budget, [], BeginTaking);
    steps, s := Extend(true, budget, steps, Take);
    assert s == Init(true, budget).(reader := Asking);
    steps, s := Extend(true, budget, steps, KeepWaiting);
    steps, s := Extend(true, budget, steps, Park);
  }

  /** Another fiber of the request, whose upload failed, closes it first. */
  lemma ClosedUnstarted(budget: nat) returns (steps: seq<Step>)
    ensures var q := NewQueue(budget).(waiter := Some(0), cancelled := true);
            Run(true, budget, steps) == Init(true, budget).(reader := Parked, queue := q, resetWanted := true, events := 2)
  {
    var s: State;
    steps := WaitsUnstarted(budget);
    steps, s := Extend(true, budget, steps, CloseQueue);
    steps, s := Extend(true, budget, steps, CloseFlag);
    steps, s := Extend(true, budget, steps, CloseWake);
  }

  /** Such a run exists: the worker skips the stream, and nobody ever wakes the reader of its head. */
  lemma SkippedStreamStrandsItsReader(budget: nat) returns (steps: seq<Step>)
    ensures var s := Run(true, budget, steps);
            AtRest(s) && s.reader == Parked && s.queue.cancelled && s.exchange == Skipped
  {
    var s: State;
    steps := ClosedUnstarted(budget);
    steps, s := Extend(true, budget, steps, EventRuns(false));
    assert s.exchange == Skipped && s.events == 1 && s.reader == Parked;
    steps, s := Extend(true, budget, steps, EventRuns(false));
  }

  // ----------------------------------------------------------------- progress

  function RunFrom(s: State, steps: seq<Step>): State
    decreases |steps|
  {
    if steps == [] then s else RunFrom(Apply(s, steps[0]), steps[1..])
  }

  /** How far a parked reader that has been told something is from being resumed. */
  function Distance(s: State): nat {
    if s.owed then 0
    else if s.owing then 1
    else if s.exchange == InTable(true) then 2
    else
      (if s.exchange == Unsent then 4 else 0)
      + if s.closing == Cancelled then 5 else if s.closing == Flagged then 4 else 3
  }

  /** The step that brings it closer: of the worker, of Envoy, of the fiber that closes, or of the reactor. */
  function NextResume(s: State): Step {
    if s.owed then Resolve
    else if s.owing then Owe
    else if s.exchange == InTable(true) then Finish(Failed(Upstream))
    else if s.exchange == Unsent then EventRuns(false)
    else if s.closing == Cancelled then CloseFlag
    else if s.closing == Flagged then CloseWake
    else EventRuns(false)
  }

  /** A parked reader that has been told something, of a stream that is not skipped and will not be. */
  predicate Resumable(s: State) {
    && Inv(s) && s.oneThread && s.reader == Parked && HasBeenTold(s.queue)
    && s.exchange != Skipped && !(s.exchange == Unsent && s.resetWanted)
  }

  predicate OfTheReader(step: Step) {
    step in {BeginTaking, Take, GiveUp, KeepWaiting, Park, Resume, Stop}
  }

  lemma ResumeStep(s: State)
    requires Resumable(s)
    ensures var t := Apply(s, NextResume(s));
            if s.owed then t.reader == Resumed else Resumable(t) && Distance(t) < Distance(s)
  {
    if s.owed {
    } else if s.owing {
    } else if s.exchange == InTable(true) {
    } else if s.exchange == Unsent {
    } else {
      assert CloseDue(s);
    }
  }

  lemma {:induction false} ResumedFrom(s: State) returns (steps: seq<Step>)
    requires Resumable(s)
    ensures RunFrom(s, steps).reader == Resumed
    ensures forall i :: 0 <= i < |steps| ==> !OfTheReader(steps[i])
    decreases Distance(s)
  {
    ResumeStep(s);
    var t := Apply(s, NextResume(s));
    if s.owed {
      steps := [NextResume(s)];
      assert RunFrom(t, []) == t;
    } else {
      var rest := ResumedFrom(t);
      steps := [NextResume(s)] + rest;
      assert steps[1..] == rest;
    }
  }

  /**
   Progress: from every run with a parked reader that has been told something, the
   worker, Envoy, the closing fiber and the reactor resume it by themselves,
   unless its stream was skipped, or is closed and flagged before it started.
   */
  lemma ParkedReaderIsResumed(budget: nat, steps: seq<Step>) returns (more: seq<Step>)
    requires var s := Run(true, budget, steps);
             s.reader == Parked && HasBeenTold(s.queue) && s.exchange != Skipped && !(s.exchange == Unsent && s.resetWanted)
    ensures RunFrom(Run(true, budget, steps), more).reader == Resumed
    ensures forall i :: 0 <= i < |more| ==> !OfTheReader(more[i])
  {
    Invariant(true, budget, steps);
    SameThreads(true, budget, steps);
    more := ResumedFrom(Run(true, budget, steps));
  }
}
