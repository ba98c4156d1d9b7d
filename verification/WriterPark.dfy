/**
 The park and wake protocol of a writing fiber.

 A fiber writes into a bounded queue through `Stream.write` (ruby/stream.rb) and
 parks while it is full; the worker drains the queue when an event Envoy
 scheduled for it runs, and owes the parked fiber a wakeup. Each lock
 acquisition, each scheduled event and each callback is one step, and a run is
 any sequence of steps: a step that cannot be taken in a state leaves it as it
 is, so every interleaving is a run.

 The same machine serves the response queue (`upstream == false`), drained by
 `drain_stream`, and the request queue of an upstream exchange
 (`upstream == true`), drained by `pump_streams`.
 */
module WriterPark {
  import opened Basics
  import opened Streams

  datatype WriterPc =
    /** Between two calls of `Stream.write`, or before the next slice. */
    | Ready
    /** `writable?` said no: about to call `park_writer`. */
    | Asking
    /** Waiting on the variable. */
    | Parked
    /** The variable was resolved: about to `unpark` and write. */
    | Resumed
    /** About to call `push_chunk_within_budget`. */
    | Writing
    /** Pushed: about to wake the worker. `last` once nothing more is written. */
    | Signalling(last: bool)
    | Stopped

  datatype WorkerPc =
    | Idle
    /** In the loop, about to call `take_next`. */
    | Draining
    /** The loop is over, about to ask `writer_owed_wakeup`. */
    | Checking
    /** The answer was yes: about to call `wake_body`. */
    | Owing

  /** How far another fiber has come in closing the exchange. */
  datatype Closing = Open | Cancelled | Flagged

  datatype State = State(
    upstream: bool,
    queue: Queue,
    writer: WriterPc,
    worker: WorkerPc,
    /** Scheduled events that have not run. */
    events: nat,
    /** Between `set_paused(false)` and the event the callback schedules. */
    resuming: bool,
    closing: Closing,
    resetWanted: bool,
    /** The worker has a stream for the queue: it always has for a response. */
    started: bool,
    /** The worker dropped the stream before starting it. */
    skipped: bool,
    /** The worker took the end of the response and let go of the queue. */
    detached: bool,
    /** The filter, or the upstream stream, is gone. */
    gone: bool,
    /** The queue is on `Wakeups`. */
    owed: bool)
  {
    /** Events scheduled for this queue still reach it. */
    predicate Live() {
      !gone && !detached && !skipped
    }
  }

  datatype WriterStep =
    | AskWritable
    | ParkWriter
    | Resume
    | Write(bytes: Bytes)
    | Publish(item: Item)
    | Signal
    | StopWriter

  /** Another fiber of the request, closing the exchange. */
  datatype CloserStep =
    | CloseQueue
    | CloseFlag
    | CloseWake

  datatype WorkerStep =
    | EventRuns
    | Take
    | Check
    | Owe
    | HighWatermark
    | LowWatermark
    | LowSchedules
    /** The filter is dropped; or Envoy ends the stream, be it from inside the pump's own calls, or refuses it. */
    | StreamGone

  datatype Step =
    | Writer(w: WriterStep)
    | Closer(c: CloserStep)
    | Worker(k: WorkerStep)
    /** The reactor takes the queue off `Wakeups` and resolves its waiter. */
    | Resolve

  // ---------------------------------------------------------------- invariant

  /** The slot holds the writer exactly while it waits, and no item follows an end. */
  predicate Consistent(s: State) {
    && (s.writer == Parked <==> s.queue.waiter.Some?)
    && (s.queue.ended ==> s.writer in {Signalling(true), Stopped})
    && (s.gone ==> s.queue.cancelled)
    && (s.detached ==> s.queue.ended)
    && (s.resuming ==> !s.gone)
    && (s.closing != Open || s.resetWanted ==> s.queue.cancelled)
    && (s.skipped ==> s.queue.cancelled)
    && (s.upstream ==> !s.queue.paused)
    && (!s.started && s.Live() ==> s.events > 0)
  }

  /** Something is still to look at the queue. */
  predicate DrainDue(s: State) {
    s.events > 0 || s.worker == Draining || s.resuming
  }

  /** Items the worker may take are never forgotten. */
  predicate DrainScheduled(s: State) {
    s.Live() && s.queue.items != [] && !s.queue.paused ==> DrainDue(s) || s.writer.Signalling?
  }

  /** The worker, or an event that reaches it, is still to ask whether the writer is owed a wakeup. */
  predicate CheckDue(s: State) {
    || s.worker in {Checking, Owing}
    || (s.Live() && (DrainDue(s) || s.closing != Open))
  }

  predicate WakeupDue(s: State) {
    s.writer == Parked && (s.queue.cancelled || !s.queue.Full()) ==> s.owed || CheckDue(s) || s.skipped
  }

  predicate Inv(s: State) {
    Consistent(s) && DrainScheduled(s) && WakeupDue(s)
  }

  // --------------------------------------------------------------------- steps

  function Init(upstream: bool, budget: nat): State {
    State(upstream, NewQueue(budget), Ready, Idle, if upstream then 1 else 0, false, Open, false, !upstream,
          false, false, false, false)
  }

  function WriterMoves(s: State, step: WriterStep): State {
    match step
    case AskWritable =>
      if s.writer != Ready then s
      else s.(writer := if s.queue.Full() then Asking else Writing)
    case ParkWriter =>
      if s.writer != Asking then s
      else
        var (q, parked) := s.queue.ParkWriter(0);
        s.(queue := q, writer := if parked then Parked else Writing)
    case Resume =>
      if s.writer != Resumed then s
      else
        s.(queue := s.queue.Unpark().0, writer := Writing)
    case Write(bytes) =>
      if s.writer != Writing then s
      else
        var (q, taken) := s.queue.PushWithinBudget(bytes);
        s.(queue := q,
           writer := if taken.None? then Stopped else if taken.value > 0 then Signalling(false) else Ready)
    case Publish(item) =>
      if s.writer != Ready || item.Chunk? then s
      else
        var (q, accepted) := s.queue.Push(item);
        s.(queue := q, writer := if accepted then Signalling(item.Terminal()) else Stopped)
    case Signal =>
      if !s.writer.Signalling? then s
      else s.(events := s.events + 1, writer := if s.writer.last then Stopped else Ready)
    case StopWriter =>
      if s.writer !in {Parked, Resumed, Ready} then s
      else
        s.(queue := s.queue.Unpark().0, writer := Stopped)
  }

  function CloserMoves(s: State, step: CloserStep): State {
    match step
    case CloseQueue =>
      if !s.upstream || s.closing != Open then s
      else
        s.(queue := s.queue.Cancel(), closing := Cancelled)
    case CloseFlag =>
      if s.closing != Cancelled then s else s.(resetWanted := true, closing := Flagged)
    case CloseWake =>
      if s.closing != Flagged then s else s.(events := s.events + 1, closing := Open)
  }

  /** The drain and the pump take one item; the drain ends with the item that ends the response. */
  function WorkerTakes(s: State): State {
    if s.worker != Draining then s
    else
      var (q, item) := s.queue.TakeNext();
      AfterTake(s.(queue := q), item)
  }

  /** The loop ends with nothing handed out, and for a response with the end of it. */
  function AfterTake(s: State, item: Option<Item>): State {
    if item.None? then s.(worker := Checking)
    else if item.value.Terminal() && !s.upstream then s.(worker := Idle, detached := true)
    else s
  }

  /** The drop of the filter, or the end of the stream, also from inside the pump. */
  function WorkerLeaves(s: State): State {
    if !(s.worker == Idle || (s.upstream && s.worker == Draining)) || s.resuming || !s.Live() then s
    else
      s.(queue := s.queue.Cancel(), worker := Checking, gone := true)
  }

  function WorkerMoves(s: State, step: WorkerStep): State {
    match step
    case EventRuns =>
      if s.events == 0 || s.worker != Idle || !s.Live() then s
      else if !s.started && s.resetWanted then s.(events := s.events - 1, skipped := true)
      else s.(events := s.events - 1, worker := Draining, started := true)
    case Take => WorkerTakes(s)
    case Check =>
      if s.worker != Checking then s
      else s.(worker := if s.queue.WriterOwed() then Owing else Idle)
    case Owe =>
      if s.worker != Owing then s else s.(worker := Idle, owed := true)
    case HighWatermark =>
      if s.upstream || s.gone || s.detached then s else
        s.(queue := s.queue.SetPaused(true))
    case LowWatermark =>
      if s.upstream || s.gone || s.detached then s
      else
        s.(queue := s.queue.SetPaused(false), resuming := true)
    case LowSchedules =>
      if !s.resuming then s else s.(events := s.events + 1, resuming := false)
    case StreamGone => WorkerLeaves(s)
  }

  function Apply(s: State, step: Step): State {
    match step
    case Writer(w) => WriterMoves(s, w)
    case Closer(c) => CloserMoves(s, c)
    case Worker(k) => WorkerMoves(s, k)
    case Resolve =>
      if !s.owed then s
      else
        var (q, waiter) := s.queue.Unpark();
        s.(queue := q, owed := false, writer := if waiter.Some? then Resumed else s.writer)
  }

  function Run(upstream: bool, budget: nat, steps: seq<Step>): State {
    if steps == [] then Init(upstream, budget) else Apply(Run(upstream, budget, Front(steps)), Last(steps))
  }

  // ------------------------------------------------------- every step keeps it

  lemma WriterKeeps(s: State, step: WriterStep)
    requires Inv(s)
    ensures Inv(WriterMoves(s, step))
  {
  }

  lemma CloserKeeps(s: State, step: CloserStep)
    requires Inv(s)
    ensures Inv(CloserMoves(s, step))
  {
    match step
    case CloseQueue => CancelKeeps(s);
    case CloseFlag =>
    case CloseWake =>
  }

  lemma CancelKeeps(s: State)
    requires Inv(s)
    ensures Inv(CloserMoves(s, CloseQueue))
  {
  }

  lemma TakesKeep(s: State)
    requires Inv(s) && Accounted(s.queue)
    ensures Inv(WorkerTakes(s))
  {
    if s.worker == Draining {
      var (q, item) := s.queue.TakeNext();
      TakeLeaves(s.queue);
      if item != None && item.value.Terminal() {
        EndIsTaken(s);
      }
      AfterTakeKeeps(s, q, item);
    }
  }

  /** A take changes the items and their bytes alone; nothing handed out means nothing to hand out. */
  lemma TakeLeaves(q: Queue)
    ensures var (r, item) := q.TakeNext();
            && r == q.(items := r.items, buffered := r.buffered)
            && (item == None ==> r == q && (q.paused || q.items == []))
  {
  }

  lemma AfterTakeKeeps(s: State, q: Queue, item: Option<Item>)
    requires Inv(s) && s.worker == Draining && q == s.queue.(items := q.items, buffered := q.buffered)
    requires item == None ==> q == s.queue && (q.paused || q.items == [])
    requires item != None && item.value.Terminal() ==> q.ended
    ensures Inv(AfterTake(s.(queue := q), item))
  {
    if item == None {
      NothingTaken(s);
    } else if item.value.Terminal() && !s.upstream {
      EndTaken(s, q);
    } else {
      OneTaken(s, q);
    }
  }

  lemma NothingTaken(s: State)
    requires Inv(s) && s.worker == Draining && (s.queue.paused || s.queue.items == [])
    ensures Inv(s.(worker := Checking))
  {
  }

  lemma OneTaken(s: State, q: Queue)
    requires Inv(s) && s.worker == Draining && q == s.queue.(items := q.items, buffered := q.buffered)
    ensures Inv(s.(queue := q))
  {
  }

  /** The writer has stopped, so nobody waits for the worker any more. */
  lemma EndTaken(s: State, q: Queue)
    requires Inv(s) && q == s.queue.(items := q.items, buffered := q.buffered) && q.ended
    ensures Inv(s.(queue := q, worker := Idle, detached := true))
  {
  }

  lemma EndIsTaken(s: State)
    requires Accounted(s.queue) && s.queue.items != [] && s.queue.items[0].Terminal()
    ensures s.queue.ended && s.queue.items == [s.queue.items[0]]
  {
  }

  lemma LeavesKeep(s: State)
    requires Inv(s)
    ensures Inv(WorkerLeaves(s))
  {
  }

  lemma WorkerKeeps(s: State, step: WorkerStep)
    requires Inv(s) && Accounted(s.queue)
    ensures Inv(WorkerMoves(s, step))
  {
    match step
    case Take => TakesKeep(s);
    case StreamGone => LeavesKeep(s);
    case HighWatermark => PausesKeep(s);
    case LowWatermark => PausesKeep(s);
    case _ => EventsKeep(s, step);
  }

  lemma PausesKeep(s: State)
    requires Inv(s)
    ensures Inv(WorkerMoves(s, HighWatermark)) && Inv(WorkerMoves(s, LowWatermark))
  {
  }

  lemma EventsKeep(s: State, step: WorkerStep)
    requires Inv(s) && step in {EventRuns, Check, Owe, LowSchedules}
    ensures Inv(WorkerMoves(s, step))
  {
  }

  /** What a step of the writer makes of the queue. */
  lemma WriterLocks(s: State, w: WriterStep)
    ensures var q, r := s.queue, WriterMoves(s, w).queue;
            || r == q || r == q.ParkWriter(0).0 || r == q.Unpark().0
            || (w.Write? && r == q.PushWithinBudget(w.bytes).0)
            || (w.Publish? && r == q.Push(w.item).0)
  {
    match w
    case AskWritable =>
    case ParkWriter =>
    case Resume =>
    case Write(_) =>
    case Publish(_) =>
    case Signal =>
    case StopWriter =>
  }

  lemma WriterKeepsAccounts(s: State, w: WriterStep)
    requires Accounted(s.queue)
    ensures Accounted(WriterMoves(s, w).queue)
  {
    WriterLocks(s, w);
    FlagsKeepAccounts(s.queue, 0, false);
    PushKeepsAccounts(s.queue, if w.Publish? then w.item else End, if w.Write? then w.bytes else []);
  }

  /** What a step of the worker makes of it. */
  lemma WorkerLocks(s: State, k: WorkerStep)
    requires !k.Take? && !k.StreamGone?
    ensures var q, r := s.queue, WorkerMoves(s, k).queue;
            r == q || r == q.SetPaused(k.HighWatermark?)
  {
    match k
    case EventRuns =>
    case Check =>
    case Owe =>
    case HighWatermark =>
    case LowWatermark =>
    case LowSchedules =>
  }

  lemma TakesKeepAccounts(s: State)
    requires Accounted(s.queue)
    ensures Accounted(WorkerTakes(s).queue)
  {
    var (q, item) := s.queue.TakeNext();
    TakeKeepsAccounts(s.queue);
    assert AfterTake(s.(queue := q), item).queue == q;
  }

  lemma WorkerCancels(s: State)
    ensures WorkerLeaves(s).queue == s.queue || WorkerLeaves(s).queue == s.queue.Cancel()
  {
  }

  lemma WorkerKeepsAccounts(s: State, k: WorkerStep)
    requires Accounted(s.queue)
    ensures Accounted(WorkerMoves(s, k).queue)
  {
    if k.Take? {
      TakesKeepAccounts(s);
    } else if k.StreamGone? {
      WorkerCancels(s);
      FlagsKeepAccounts(s.queue, 0, false);
    } else {
      WorkerLocks(s, k);
      FlagsKeepAccounts(s.queue, 0, k.HighWatermark?);
    }
  }

  lemma CloserKeepsAccounts(s: State, c: CloserStep)
    requires Accounted(s.queue)
    ensures Accounted(CloserMoves(s, c).queue)
  {
    FlagsKeepAccounts(s.queue, 0, false);
  }

  lemma StepKeepsAccounts(s: State, step: Step)
    requires Accounted(s.queue)
    ensures Accounted(Apply(s, step).queue)
  {
    match step
    case Writer(w) => WriterKeepsAccounts(s, w);
    case Closer(c) => CloserKeepsAccounts(s, c);
    case Worker(k) => WorkerKeepsAccounts(s, k);
    case Resolve => FlagsKeepAccounts(s.queue, 0, false);
  }

  lemma ResolveKeeps(s: State)
    requires Inv(s)
    ensures Inv(Apply(s, Resolve))
  {
  }

  lemma StepKeepsInv(s: State, step: Step)
    requires Inv(s) && Accounted(s.queue)
    ensures Inv(Apply(s, step))
  {
    match step
    case Writer(w) => WriterKeeps(s, w);
    case Closer(c) => CloserKeeps(s, c);
    case Worker(k) => WorkerKeeps(s, k);
    case Resolve => ResolveKeeps(s);
  }

  lemma {:induction false} Invariant(upstream: bool, budget: nat, steps: seq<Step>)
    ensures Inv(Run(upstream, budget, steps)) && Accounted(Run(upstream, budget, steps).queue)
  {
    if steps != [] {
      Invariant(upstream, budget, Front(steps));
      StepKeepsInv(Run(upstream, budget, Front(steps)), Last(steps));
      StepKeepsAccounts(Run(upstream, budget, Front(steps)), Last(steps));
    }
  }

  // ----------------------------------------------------------------- theorems

  /** A parked writer has cause to go on, or the queue has items the worker should take. */
  predicate ShouldMove(q: Queue) {
    q.cancelled || !q.Full() || (q.items != [] && !q.paused)
  }

  /**
   No stranded writer: in every interleaving, a parked writer that should move
   has its queue on `Wakeups`, or an event scheduled, or a worker still before
   its owed-wakeup check. The one exception is an upstream stream closed before
   the worker ever started it.
   */
  lemma NoStrandedWriter(upstream: bool, budget: nat, steps: seq<Step>)
    ensures var s := Run(upstream, budget, steps);
            s.writer == Parked && ShouldMove(s.queue) && !s.skipped ==> s.owed || CheckDue(s)
  {
    Invariant(upstream, budget, steps);
  }

  /** Nothing is scheduled, running or owed. */
  predicate AtRest(s: State) {
    s.worker == Idle && (s.events == 0 || !s.Live()) && !s.resuming && s.closing == Open && !s.owed
  }

  /** Once everything has come to rest, only a paused downstream keeps a writer waiting. */
  lemma AtRestOnlyPausedWaits(upstream: bool, budget: nat, steps: seq<Step>)
    ensures var s := Run(upstream, budget, steps);
            AtRest(s) && s.writer == Parked && !s.skipped ==>
              s.queue.paused && !s.queue.cancelled && !s.upstream
  {
    Invariant(upstream, budget, steps);
  }

  /** The exception is exact: at rest, a parked writer should move if and only if its stream was skipped. */
  lemma StrandedExactlyWhenSkipped(upstream: bool, budget: nat, steps: seq<Step>)
    ensures var s := Run(upstream, budget, steps);
            AtRest(s) && s.writer == Parked ==> (ShouldMove(s.queue) <==> s.skipped)
  {
    Invariant(upstream, budget, steps);
  }

  lemma Extend(upstream: bool, budget: nat, steps: seq<Step>, step: Step) returns (longer: seq<Step>, t: State)
    ensures longer == steps + [step] && t == Run(upstream, budget, longer) == Apply(Run(upstream, budget, steps), step)
  {
    longer := steps + [step];
    assert Front(longer) == steps;
    t := Run(upstream, budget, longer);
  }

  /** A writer that is free to write, and has not ended, gets on: all that there is room for is queued, and the worker told. */
  lemma WriterGetsOn(upstream: bool, budget: nat, steps: seq<Step>, bytes: Bytes)
    requires bytes != []
    ensures var s := Run(upstream, budget, steps);
            var wrote := Run(upstream, budget, steps + [Writer(Write(bytes))]);
            var told := Run(upstream, budget, steps + [Writer(Write(bytes))] + [Writer(Signal)]);
            s.writer == Writing ==>
              if s.queue.cancelled then wrote == s.(writer := Stopped)
              else if s.queue.Spare() == 0 then wrote == s.(writer := Ready)
              else
                && wrote.queue.items == s.queue.items + [Chunk(bytes[..Min(|bytes|, s.queue.Spare())])]
                && told == wrote.(events := s.events + 1, writer := Ready)
  {
    Invariant(upstream, budget, steps);
    var longer, t := Extend(upstream, budget, steps, Writer(Write(bytes)));
    longer, t := Extend(upstream, budget, longer, Writer(Signal));
  }

  /** A writer asks before it writes, and parks exactly when it must wait; resumed, it lets go of its variable and writes. */
  lemma WriterAsks(upstream: bool, budget: nat, steps: seq<Step>)
    ensures var s := Run(upstream, budget, steps);
            var asked := Run(upstream, budget, steps + [Writer(AskWritable)]);
            var parked := Run(upstream, budget, steps + [Writer(ParkWriter)]);
            var resumed := Run(upstream, budget, steps + [Writer(Resume)]);
            && (s.writer == Ready ==> asked == s.(writer := if s.queue.Full() then Asking else Writing))
            && (s.writer == Asking ==>
                  if s.queue.Full() && !s.queue.cancelled then parked.writer == Parked && parked.queue.waiter != None
                  else parked == s.(writer := Writing))
            && (s.writer == Resumed ==> resumed.writer == Writing && resumed.queue.waiter == None)
  {
    Invariant(upstream, budget, steps);
    var longer, t := Extend(upstream, budget, steps, Writer(AskWritable));
    longer, t := Extend(upstream, budget, steps, Writer(ParkWriter));
    longer, t := Extend(upstream, budget, steps, Writer(Resume));
  }

  /** The loop takes what is queued, in order, until nothing is handed out; the end of a response is the last it takes. */
  lemma LoopTakesInOrder(upstream: bool, budget: nat, steps: seq<Step>)
    ensures var s, t := Run(upstream, budget, steps), Run(upstream, budget, steps + [Worker(Take)]);
            s.worker == Draining ==>
              if s.queue.paused || s.queue.items == [] then t == s.(worker := Checking)
              else
                && t.queue.items == s.queue.items[1..]
                && (t.detached <==> s.detached || (!s.upstream && s.queue.items[0].Terminal()))
                && t.worker == (if !s.upstream && s.queue.items[0].Terminal() then Idle else Draining)
  {
    var longer, t := Extend(upstream, budget, steps, Worker(Take));
  }

  /** A writer that is stopped leaves nobody's variable behind. */
  lemma StoppedWriterLeaves(upstream: bool, budget: nat, steps: seq<Step>)
    ensures var s := Run(upstream, budget, steps);
            s.writer in {Parked, Resumed, Ready} ==>
              Run(upstream, budget, steps + [Writer(StopWriter)])
              == s.(queue := s.queue.(waiter := None), writer := Stopped)
  {
    var longer, t := Extend(upstream, budget, steps, Writer(StopWriter));
  }

  /** The filter still has the response queue. */
  predicate HasResponse(s: State) {
    !s.upstream && !s.gone && !s.detached
  }

  /** A client that reads too slowly pauses its response: nothing is handed out. */
  lemma PauseHolds(budget: nat, steps: seq<Step>)
    ensures var s := Run(false, budget, steps);
            var paused := Run(false, budget, steps + [Worker(HighWatermark)]);
            var held := Run(false, budget, steps + [Worker(HighWatermark)] + [Worker(Take)]);
            HasResponse(s) ==>
              paused == s.(queue := s.queue.SetPaused(true)) && paused.queue.paused && held.queue == paused.queue
  {
    var longer, t := Extend(false, budget, steps, Worker(HighWatermark));
    var more, u := Extend(false, budget, longer, Worker(Take));
  }

  /** Once it reads on, the queue is as it was but for the pause. */
  lemma PauseEnds(budget: nat, steps: seq<Step>)
    ensures var s := Run(false, budget, steps);
            HasResponse(s) ==>
              Run(false, budget, steps + [Worker(LowWatermark)])
              == s.(queue := s.queue.SetPaused(false), resuming := true)
  {
    var longer, t := Extend(false, budget, steps, Worker(LowWatermark));
  }

  /** And an event is scheduled, so that the drain goes on. */
  lemma PauseEndsWithAnEvent(budget: nat, steps: seq<Step>)
    ensures var s := Run(false, budget, steps);
            s.resuming ==>
              Run(false, budget, steps + [Worker(LowSchedules)]) == s.(resuming := false, events := s.events + 1)
  {
    var longer, t := Extend(false, budget, steps, Worker(LowSchedules));
  }

  /** A body of one byte fills a queue of one byte. */
  lemma WriterFillsTheQueue() returns (steps: seq<Step>)
    ensures var s := Run(true, 1, steps);
            && s == Init(true, 1).(queue := s.queue, writer := Signalling(false))
            && s.queue.Full() && !s.queue.cancelled && s.queue.waiter == None
  {
    var s: State;
    steps, s := Extend(true, 1, [], Writer(AskWritable));
    steps, s := Extend(true, 1, steps, Writer(Write([7])));
  }

  /** Its writer parks before the stream is started. */
  lemma WriterParksUnstarted() returns (steps: seq<Step>)
    ensures var s := Run(true, 1, steps);
            && s.writer == Parked && s.queue.waiter.Some? && s.events == 2 && s.closing == Open
            && !s.started && s.worker == Idle && !s.resuming && !s.owed && s.Live() && s.upstream
  {
    var s: State;
    steps := WriterFillsTheQueue();
    steps, s := Extend(true, 1, steps, Writer(Signal));
    steps, s := Extend(true, 1, steps, Writer(AskWritable));
    steps, s := Extend(true, 1, steps, Writer(ParkWriter));
  }

  /** Such a run exists: the exchange is closed while its body waits and before the worker starts it. */
  lemma SkippedStreamStrandsItsWriter() returns (steps: seq<Step>)
    ensures var s := Run(true, 1, steps);
            AtRest(s) && s.writer == Parked && ShouldMove(s.queue)
  {
    steps := WriterParksUnstarted();
    var s: State;
    steps, s := Extend(true, 1, steps, Closer(CloseQueue));
    steps, s := Extend(true, 1, steps, Closer(CloseFlag));
    assert s.resetWanted && s.closing == Flagged;
    steps, s := Extend(true, 1, steps, Closer(CloseWake));
    steps, s := Extend(true, 1, steps, Worker(EventRuns));
  }

  // ----------------------------------------------------------------- progress

  function RunFrom(s: State, steps: seq<Step>): State
    decreases |steps|
  {
    if steps == [] then s else RunFrom(Apply(s, steps[0]), steps[1..])
  }

  /** How far the worker and the reactor are from resuming the parked writer. */
  function Distance(s: State): nat {
    if s.owed then 0
    else match s.worker
    case Owing => 1
    case Checking => if s.queue.WriterOwed() then 2 else 8 + |s.queue.items|
    case Draining => 3 + |s.queue.items|
    case Idle =>
      |s.queue.items| + if s.events > 0 then 4 else if s.resuming then 5 else if s.closing == Flagged then 6 else 7
  }

  /** The step that brings it closer. */
  function NextRescue(s: State): Step {
    if s.owed then Resolve
    else match s.worker
    case Owing => Worker(Owe)
    case Checking => Worker(Check)
    case Draining => Worker(Take)
    case Idle =>
      if s.events > 0 then Worker(EventRuns)
      else if s.resuming then Worker(LowSchedules)
      else if s.closing == Flagged then Closer(CloseWake)
      else Closer(CloseFlag)
  }

  predicate Rescuable(s: State) {
    Inv(s) && Accounted(s.queue) && s.writer == Parked && ShouldMove(s.queue) && !s.skipped
    && (s.started || !s.resetWanted)
  }

  predicate CloserBy(s: State, t: State) {
    (s.owed ==> t.writer == Resumed) && (!s.owed ==> Rescuable(t) && Distance(t) < Distance(s))
  }

  lemma RescueTake(s: State)
    requires Rescuable(s) && !s.owed && s.worker == Draining
    ensures CloserBy(s, Apply(s, Worker(Take)))
  {
    TakeKeepsAccounts(s.queue);
  }

  lemma RescueCheck(s: State)
    requires Rescuable(s) && !s.owed && s.worker in {Checking, Owing}
    ensures CloserBy(s, Apply(s, NextRescue(s)))
  {
  }

  lemma RescueIdle(s: State)
    requires Rescuable(s) && (s.owed || s.worker == Idle)
    ensures CloserBy(s, Apply(s, NextRescue(s)))
  {
    if s.owed {
    } else if s.events > 0 {
    } else if s.resuming {
    } else {
    }
  }

  lemma RescueStep(s: State)
    requires Rescuable(s)
    ensures CloserBy(s, Apply(s, NextRescue(s)))
  {
    if s.owed || s.worker == Idle {
      RescueIdle(s);
    } else if s.worker == Draining {
      RescueTake(s);
    } else {
      RescueCheck(s);
    }
  }

  /**
   Progress: from every reachable state in which a parked writer should move,
   the worker, the closing fiber and the reactor resume it by themselves,
   whatever the writer left queued.
   */
  lemma {:induction false} Rescued(s: State) returns (steps: seq<Step>)
    requires Rescuable(s)
    ensures RunFrom(s, steps).writer == Resumed
    ensures forall i :: 0 <= i < |steps| ==> !steps[i].Writer?
    decreases Distance(s)
  {
    RescueStep(s);
    var t := Apply(s, NextRescue(s));
    if s.owed {
      steps := [NextRescue(s)];
      assert RunFrom(t, []) == t;
    } else {
      var rest := Rescued(t);
      steps := [NextRescue(s)] + rest;
      assert steps[1..] == rest;
    }
  }

  /** The same of every run: no writer that should move waits for ever, but one whose stream will be skipped. */
  lemma ParkedWriterIsRescued(upstream: bool, budget: nat, steps: seq<Step>) returns (more: seq<Step>)
    requires var s := Run(upstream, budget, steps);
             s.writer == Parked && ShouldMove(s.queue) && !s.skipped && (s.started || !s.resetWanted)
    ensures RunFrom(Run(upstream, budget, steps), more).writer == Resumed
    ensures forall i :: 0 <= i < |more| ==> !more[i].Writer?
  {
    Invariant(upstream, budget, steps);
    more := Rescued(Run(upstream, budget, steps));
  }
}
