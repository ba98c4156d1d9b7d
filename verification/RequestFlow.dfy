/**
 A request body on its way from Envoy to the fiber reading `rack.input`.

 Envoy keeps what the filter has not forwarded in two buffers: the frame of the
 running callback and what earlier callbacks left behind. `forward_request_body`
 (crates/ruvoy-envoy-fiber/src/worker.rs) moves what the queue has room for, one
 slice per lock acquisition, while the reader (`fill` in ruby/request_body.rb)
 takes chunks and parks in between. A filter that replies locally lets go of the
 queue and leaves it as it is; one that is dropped cancels it if it still has it.
 A run is any sequence of steps. Each slice
 leaves Envoy's buffer as it is pushed; `copy_body` drains the buffer once all
 are pushed, which only the worker could tell apart (`Forwarding.CopyBody`).
 */
module RequestFlow {
  import opened Basics
  import opened Streams

  datatype WorkerPc =
    | Idle
    /** `forward_request_body` was called: about to ask the queue for its room. */
    | Sizing
    /** Copying at most `room` more bytes of the retained buffer; `copied` once any was pushed. */
    | FromRetained(room: nat, copied: bool)
    /** The same of the frame in hand. */
    | FromReceived(room: nat, copied: bool)
    /** Buffers drained: about to see whether the end may follow. */
    | Ending(copied: bool)
    /** About to put the queue on `Wakeups`. */
    | Waking
    /** The filter was dropped and the queue cancelled: about to put it on `Wakeups`. */
    | Dropped

  datatype ReaderPc =
    | Away
    | Taking
    /** Took an item: about to wake the worker. */
    | Took(last: bool)
    /** Nothing was there: about to give up or to park. */
    | Deciding
    | Parked
    | Resumed

  datatype State = State(
    /** What the client has sent so far, and whether that was all. */
    sent: Bytes,
    clientDone: bool,
    retained: Bytes,
    received: Bytes,
    /** Both accessors name the retained bytes. */
    aliased: bool,
    endPending: bool,
    queue: Queue,
    /** What the queue accepted, and what the reader was handed. */
    pushed: Bytes,
    taken: Bytes,
    worker: WorkerPc,
    reader: ReaderPc,
    /** Scheduled `REQUEST` events that have not run. */
    events: nat,
    gone: bool,
    /** The filter replied locally, which lets go of the queue without a cancel or a wake. */
    letGo: bool,
    owed: bool)
  {
    /** The filter still has the queue to forward into. */
    predicate Forwards() {
      !gone && !letGo
    }

    /** What Envoy still holds of the body, oldest first. */
    function Held(): Bytes {
      retained + received
    }
  }

  datatype EnvoyStep =
    /** A body frame, or trailers, or headers that end the stream; `aliased` when the frame is the buffer itself. */
    | Deliver(frame: Bytes, aliased: bool, end: bool)
    | EventRuns
    | Size
    /** Pushes the next `k` bytes, as much of one slice as the limit allows. */
    | PushRetained(k: nat)
    | LeaveBuffer
    | PushReceived(k: nat)
    | PushEnd
    | Owe
    /** `send_bridge_error`: the application failed before the head of its response. */
    | ReplyLocally
    | DropFilter

  datatype ReaderStep =
    | BeginFill
    | TakeNext
    | WakeWorker
    | Enough
    | Park
    | Resume
    | Stop
    | Resolve

  datatype Step = Envoy(e: EnvoyStep) | Reader(r: ReaderStep)

  // ---------------------------------------------------------------- invariant

  /** Bytes are forwarded in order and without loss, and the end only behind the last of them. */
  predicate Exact(s: State) {
    && (!s.gone ==> s.pushed + s.Held() == s.sent)
    && s.pushed <= s.sent
    && (s.queue.ended ==> s.clientDone && s.pushed == s.sent && (s.gone || s.Held() == []))
    && (s.endPending ==> s.clientDone && !s.queue.ended)
    && (s.clientDone && s.Forwards() ==> s.endPending || s.queue.ended)
    && (s.queue.cancelled <==> s.gone && !s.letGo)
  }

  predicate WellFormed(s: State) {
    && (s.aliased ==> s.received == [] && !s.worker.FromReceived?)
    && (s.worker in {Idle, Dropped} ==> s.received == [] && !s.aliased)
    && (s.worker.FromReceived? ==> s.retained == [])
    && (s.gone ==> s.worker in {Idle, Dropped})
    && (s.letGo ==> s.worker == Idle)
    && (s.worker == Dropped ==> s.gone)
    && (s.reader == Parked <==> s.queue.waiter.Some?)
  }

  /** What the running copy may still push. */
  function RoomLeft(w: WorkerPc): nat {
    if w.FromRetained? || w.FromReceived? then w.room else 0
  }

  predicate WithinBudget(s: State) {
    && s.queue.capacity > 0
    && s.queue.buffered + RoomLeft(s.worker) <= s.queue.capacity
    && !s.queue.paused
  }

  /** Another pass of forwarding is certain to follow. */
  predicate ForwardDue(s: State) {
    s.events > 0 || s.reader.Took?
  }

  /** A pass leaves bytes behind only if it filled the queue, unless another pass will follow. */
  predicate NothingForgotten(s: State) {
    && (s.Forwards() && s.worker != Sizing && RoomLeft(s.worker) < |s.Held()| ==>
          s.queue.buffered + RoomLeft(s.worker) >= s.queue.capacity || ForwardDue(s))
    && (s.Forwards() && s.worker in {Idle, Waking} && s.endPending ==> s.Held() != [])
  }

  predicate AboutToOwe(w: WorkerPc) {
    ((w.FromRetained? || w.FromReceived? || w.Ending?) && w.copied) || w in {Waking, Dropped}
  }

  predicate ReaderHears(s: State) {
    s.reader == Parked && s.queue.ReadReady() ==> s.owed || AboutToOwe(s.worker)
  }

  predicate Inv(s: State) {
    Exact(s) && WellFormed(s) && WithinBudget(s) && NothingForgotten(s) && ReaderHears(s)
  }

  /** A step that neither pushes nor takes leaves the body alone, or cancels the queue. */
  predicate Rests(s: State, t: State) {
    && t.pushed == s.pushed && t.taken == s.taken
    && (t.queue == s.queue || t.queue == s.queue.(waiter := t.queue.waiter) || t.queue == s.queue.Cancel())
  }

  /** The worker, and what the filter has let go of, are left alone. */
  predicate ReaderOnly(s: State, t: State) {
    t.worker == s.worker && t.letGo == s.letGo
  }

  /** The fiber waits on a queue the filter has let go of. */
  predicate Asleep(s: State) {
    s.letGo && s.worker == Idle && s.reader == Parked && !s.owed
  }

  /** Once the queue has ended, or the filter has let go of it, nothing is pushed any more. */
  predicate PushesOnlyOpen(s: State, t: State) {
    && (s.queue.ended ==> t.queue.ended && t.pushed == s.pushed)
    && (s.letGo && s.worker == Idle ==> t.letGo && t.worker == Idle && t.pushed == s.pushed)
  }

  // --------------------------------------------------------------------- steps

  /** The callback returns; Envoy keeps what is left of its frame with the retained bytes. */
  function Return(s: State): State {
    s.(worker := Idle, retained := s.retained + s.received, received := [], aliased := false)
  }

  /** Pushes the next slice of the retained bytes. */
  function CopyRetained(s: State, k: nat): State {
    if !s.worker.FromRetained? || k == 0 || k > Min(s.worker.room, |s.retained|) then s
    else
      var (chunk, rest) := (s.retained[..k], s.retained[k..]);
      var (q, accepted) := s.queue.Push(Chunk(chunk));
      s.(queue := q, pushed := if accepted then s.pushed + chunk else s.pushed,
         retained := rest, worker := FromRetained(s.worker.room - k, true))
  }

  /** Pushes the next slice of the frame in hand. */
  function CopyReceived(s: State, k: nat): State {
    if !s.worker.FromReceived? || k == 0 || k > Min(s.worker.room, |s.received|) then s
    else
      var (chunk, rest) := (s.received[..k], s.received[k..]);
      var (q, accepted) := s.queue.Push(Chunk(chunk));
      s.(queue := q, pushed := if accepted then s.pushed + chunk else s.pushed,
         received := rest, worker := FromReceived(s.worker.room - k, true))
  }

  /** A copy ends at its limit or with its buffer; only an emptied retained buffer lets the frame go next. */
  function StopCopying(s: State): (t: State)
    ensures Rests(s, t)
  {
    match s.worker
    case FromRetained(room, copied) =>
      if room > 0 && s.retained != [] then s
      else if room > 0 && !s.aliased then s.(worker := FromReceived(room, copied))
      else s.(worker := Ending(copied))
    case FromReceived(room, copied) =>
      if room > 0 && s.received != [] then s else s.(worker := Ending(copied))
    case _ => s
  }

  /** A callback of Envoy's, which forwards at once, unless the filter has let go: then Envoy keeps the frame. */
  function Receive(s: State, frame: Bytes, aliased: bool, end: bool): (t: State)
    ensures Rests(s, t)
  {
    if s.worker != Idle || s.clientDone || s.gone then s
    else
      var t := s.(sent := s.sent + frame, clientDone := end, endPending := end);
      if s.letGo then t.(retained := s.retained + frame)
      else if aliased then t.(retained := s.retained + frame, aliased := true, worker := Sizing)
      else t.(received := frame, worker := Sizing)
  }

  /** Queues the end of a body of which Envoy holds nothing any more, and sees whether the reader is to be woken. */
  function FinishCopy(s: State): State {
    if !s.worker.Ending? then s
    else if s.endPending && s.Held() == [] then
      s.(queue := s.queue.Push(End).0, endPending := false, worker := Waking)
    else if s.worker.copied then s.(worker := Waking)
    else Return(s)
  }

  /** What the copy may push: what Envoy holds, or the room there is. */
  function SizeUp(s: State): (t: State)
    ensures Rests(s, t)
  {
    if s.worker != Sizing then s
    else
      var received := if s.aliased then 0 else |s.received|;
      s.(worker := FromRetained(Min(|s.retained| + received, s.queue.Spare()), false))
  }

  function Owes(s: State): (t: State)
    ensures Rests(s, t)
  {
    if s.worker == Waking then Return(s.(owed := true))
    else if s.worker == Dropped then s.(owed := true, worker := Idle)
    else s
  }

  /** The reply releases the queue and forgets that its end was pending. */
  function LetGo(s: State): (t: State)
    ensures Rests(s, t)
  {
    if s.worker != Idle || s.gone then s else s.(letGo := true, endPending := false)
  }

  /** The drop cancels the queue if the filter still has it. */
  function Drop(s: State): (t: State)
    ensures Rests(s, t)
  {
    if s.worker != Idle || s.gone then s
    else if s.letGo then s.(gone := true)
    else s.(queue := s.queue.Cancel(), gone := true, worker := Dropped)
  }

  function EnvoyMoves(s: State, step: EnvoyStep): State {
    match step
    case Deliver(frame, aliased, end) => Receive(s, frame, aliased, end)
    case EventRuns =>
      if s.worker != Idle || s.events == 0 || s.gone then s
      else s.(events := s.events - 1, worker := if s.letGo then Idle else Sizing)
    case Size => SizeUp(s)
    case PushRetained(k) => CopyRetained(s, k)
    case PushReceived(k) => CopyReceived(s, k)
    case LeaveBuffer => StopCopying(s)
    case PushEnd => FinishCopy(s)
    case Owe => Owes(s)
    case ReplyLocally => LetGo(s)
    case DropFilter => Drop(s)
  }

  /** `next_chunk`: an item, whose taking makes room, or nothing. */
  function TakeItem(s: State): (t: State)
    ensures ReaderOnly(s, t) && t.pushed == s.pushed && t.queue.ended == s.queue.ended
  {
    if s.reader != Taking then s
    else
      var (q, item) := s.queue.TakeNext();
      if item.None? then s.(queue := q, reader := Deciding)
      else s.(queue := q, taken := s.taken + BytesOf(item.value), reader := Took(!item.value.Chunk?))
  }

  /** `Park.on`: waits, or goes on when the queue says there is no reason to. */
  function ParkReader(s: State): (t: State)
    ensures Rests(s, t) && ReaderOnly(s, t)
  {
    if s.reader != Deciding then s
    else
      var (q, parked) := s.queue.Park(0);
      s.(queue := q, reader := if parked then Parked else Taking)
  }

  /** The reader lets go of its variable, on its own or because the reactor resolved it. */
  function Unparked(s: State, next: ReaderPc): (t: State)
    ensures Rests(s, t) && ReaderOnly(s, t)
  {
    s.(queue := s.queue.Unpark().0, reader := next)
  }

  function ReaderMoves(s: State, step: ReaderStep): (t: State)
    ensures ReaderOnly(s, t) && (step != TakeNext ==> Rests(s, t))
    ensures t.pushed == s.pushed && (s.queue.ended ==> t.queue.ended)
  {
    match step
    case BeginFill => if s.reader != Away then s else s.(reader := Taking)
    case TakeNext => TakeItem(s)
    case WakeWorker =>
      if !s.reader.Took? then s
      else s.(events := s.events + 1, reader := if s.reader.last then Deciding else Taking)
    case Enough => if s.reader != Deciding then s else s.(reader := Away)
    case Park => ParkReader(s)
    case Resume => if s.reader != Resumed then s else Unparked(s, Taking)
    case Stop => if s.reader !in {Parked, Resumed} then s else Unparked(s, Away)
    case Resolve =>
      if !s.owed then s
      else if s.queue.waiter.Some? then Unparked(s, Resumed).(owed := false)
      else s.(owed := false)
  }

  function Apply(s: State, step: Step): State {
    match step
    case Envoy(e) => EnvoyMoves(s, e)
    case Reader(r) => ReaderMoves(s, r)
  }

  function Init(budget: nat): State {
    State([], false, [], [], false, false, NewQueue(budget), [], [], Idle, Away, 0, false, false, false)
  }

  function Run(budget: nat, steps: seq<Step>): State {
    if steps == [] then Init(budget) else Apply(Run(budget, Front(steps)), Last(steps))
  }

  // ------------------------------------------ what a step may do to the queue

  lemma RestingPushesNothing(s: State, t: State)
    requires Rests(s, t) && (s.letGo && s.worker == Idle ==> t.letGo && t.worker == Idle)
    ensures PushesOnlyOpen(s, t)
  {
  }

  lemma CopyPushesOnlyOpen(s: State, k: nat)
    ensures PushesOnlyOpen(s, CopyRetained(s, k)) && PushesOnlyOpen(s, CopyReceived(s, k))
  {
  }

  lemma FinishPushesOnlyOpen(s: State)
    ensures PushesOnlyOpen(s, FinishCopy(s))
  {
  }

  lemma EnvoyPushesOnlyOpen(s: State, step: EnvoyStep)
    ensures PushesOnlyOpen(s, EnvoyMoves(s, step))
  {
    match step
    case PushRetained(k) => CopyPushesOnlyOpen(s, k);
    case PushReceived(k) => CopyPushesOnlyOpen(s, k);
    case PushEnd => FinishPushesOnlyOpen(s);
    case Deliver(frame, aliased, end) => RestingPushesNothing(s, Receive(s, frame, aliased, end));
    case EventRuns =>
    case Size => RestingPushesNothing(s, SizeUp(s));
    case LeaveBuffer => RestingPushesNothing(s, StopCopying(s));
    case Owe => RestingPushesNothing(s, Owes(s));
    case ReplyLocally => RestingPushesNothing(s, LetGo(s));
    case DropFilter => RestingPushesNothing(s, Drop(s));
  }

  lemma ReaderPushesOnlyOpen(s: State, step: ReaderStep)
    ensures PushesOnlyOpen(s, ReaderMoves(s, step))
  {
    if step != TakeNext {
      RestingPushesNothing(s, ReaderMoves(s, step));
    }
  }

  /** No step pushes behind the end, or once the filter has let go. */
  lemma StepPushesOnlyOpen(s: State, step: Step)
    ensures PushesOnlyOpen(s, Apply(s, step))
  {
    match step
    case Envoy(e) => EnvoyPushesOnlyOpen(s, e);
    case Reader(r) => ReaderPushesOnlyOpen(s, r);
  }

  lemma EnvoyWakesNobody(s: State, step: EnvoyStep)
    requires Asleep(s)
    ensures Asleep(EnvoyMoves(s, step))
  {
    match step
    case Deliver(_, _, _) =>
    case EventRuns =>
    case Size =>
    case PushRetained(_) =>
    case LeaveBuffer =>
    case PushReceived(_) =>
    case PushEnd =>
    case Owe =>
    case ReplyLocally =>
    case DropFilter =>
  }

  /** No step wakes a reader of a queue that the filter has let go of, but the one that stops it. */
  lemma StepWakesNobody(s: State, step: Step)
    requires Asleep(s) && step != Reader(Stop)
    ensures Asleep(Apply(s, step))
  {
    match step
    case Envoy(e) => EnvoyWakesNobody(s, e);
    case Reader(_) =>
  }

  // ------------------------------------------------------- every step keeps it

  /** Moving the first `k` bytes held into the queue leaves all in order. */
  lemma SliceMoves(pushed: Bytes, held: Bytes, k: nat, sent: Bytes)
    requires k <= |held| && pushed + held == sent
    ensures pushed + held[..k] + held[k..] == sent && pushed + held[..k] <= sent
  {
    assert held == held[..k] + held[k..];
    ConcatIsAssociative(pushed, held[..k], held[k..]);
  }

  lemma CopyRetainedKeeps(s: State, k: nat)
    requires Inv(s)
    ensures Inv(CopyRetained(s, k))
  {
    if s.worker.FromRetained? && 0 < k <= Min(s.worker.room, |s.retained|) {
      SliceMoves(s.pushed, s.Held(), k, s.sent);
      assert s.Held()[..k] == s.retained[..k];
      assert s.Held()[k..] == s.retained[k..] + s.received;
    }
  }

  lemma CopyReceivedKeeps(s: State, k: nat)
    requires Inv(s)
    ensures Inv(CopyReceived(s, k))
  {
    if s.worker.FromReceived? && 0 < k <= Min(s.worker.room, |s.received|) {
      assert s.Held() == s.received;
      SliceMoves(s.pushed, s.received, k, s.sent);
      assert CopyReceived(s, k).Held() == s.received[k..];
    }
  }

  lemma StopKeeps(s: State)
    requires Inv(s)
    ensures Inv(StopCopying(s))
  {
  }

  lemma SizeKeeps(s: State)
    requires Inv(s)
    ensures Inv(SizeUp(s))
  {
  }

  lemma ReceiveKeeps(s: State, frame: Bytes, aliased: bool, end: bool)
    requires Inv(s)
    ensures Inv(Receive(s, frame, aliased, end))
  {
    if s.worker == Idle && !s.clientDone && !s.gone {
      assert s.Held() == s.retained;
      ConcatIsAssociative(s.pushed, s.retained, frame);
    }
  }

  lemma ReturnKeepsHeld(s: State)
    ensures Return(s).Held() == s.Held()
  {
  }

  lemma FinishKeeps(s: State)
    requires Inv(s)
    ensures Inv(FinishCopy(s))
  {
    ReturnKeepsHeld(s);
  }

  lemma OweKeeps(s: State)
    requires Inv(s)
    ensures Inv(Owes(s))
  {
    ReturnKeepsHeld(s.(owed := true));
  }

  lemma LeaveKeeps(s: State)
    requires Inv(s)
    ensures Inv(LetGo(s)) && Inv(Drop(s))
  {
  }

  lemma EnvoyKeeps(s: State, step: EnvoyStep)
    requires Inv(s)
    ensures Inv(EnvoyMoves(s, step))
  {
    match step
    case Deliver(frame, aliased, end) => ReceiveKeeps(s, frame, aliased, end);
    case EventRuns =>
    case Size => SizeKeeps(s);
    case PushRetained(k) => CopyRetainedKeeps(s, k);
    case PushReceived(k) => CopyReceivedKeeps(s, k);
    case LeaveBuffer => StopKeeps(s);
    case PushEnd => FinishKeeps(s);
    case Owe => OweKeeps(s);
    case ReplyLocally => LeaveKeeps(s);
    case DropFilter => LeaveKeeps(s);
  }

  /** Taking only makes room, and keeps the end. */
  lemma TakenQueue(q: Queue)
    ensures var r := q.TakeNext().0;
            && r.buffered <= q.buffered && r.capacity == q.capacity && r.ended == q.ended && r.paused == q.paused
            && r.cancelled == q.cancelled && r.waiter == q.waiter
  {
  }

  lemma TakeKeeps(s: State)
    requires Inv(s)
    ensures Inv(TakeItem(s))
  {
    TakenQueue(s.queue);
    var (q, item) := s.queue.TakeNext();
    if s.reader == Taking {
      TakenKeeps(s, q, TakeItem(s));
    }
  }

  lemma TakenKeeps(s: State, q: Queue, t: State)
    requires Inv(s) && s.reader == Taking
    requires q.buffered <= s.queue.buffered && q.capacity == s.queue.capacity && q.ended == s.queue.ended
    requires q.paused == s.queue.paused && q.cancelled == s.queue.cancelled && q.waiter == s.queue.waiter
    requires t == s.(queue := q, taken := t.taken, reader := t.reader)
    requires t.reader.Took? || (t.reader == Deciding && q.buffered == s.queue.buffered)
    ensures Inv(t)
  {
  }

  lemma UnparkedKeeps(s: State, next: ReaderPc)
    requires Inv(s) && next != Parked && !s.reader.Took? && !next.Took?
    ensures Inv(Unparked(s, next))
  {
  }

  lemma ParkKeeps(s: State)
    requires Inv(s)
    ensures Inv(ParkReader(s))
  {
  }

  lemma ResolveKeeps(s: State)
    requires Inv(s)
    ensures Inv(ReaderMoves(s, Resolve))
  {
    if s.owed && s.queue.waiter.Some? {
      UnparkedKeeps(s, Resumed);
    }
  }

  lemma ReaderKeeps(s: State, step: ReaderStep)
    requires Inv(s)
    ensures Inv(ReaderMoves(s, step))
  {
    match step
    case TakeNext => TakeKeeps(s);
    case Park => ParkKeeps(s);
    case Resume =>
      if s.reader == Resumed {
        UnparkedKeeps(s, Taking);
      }
    case Stop =>
      if s.reader in {Parked, Resumed} {
        UnparkedKeeps(s, Away);
      }
    case Resolve => ResolveKeeps(s);
    case _ =>
  }

  // -------------------------------------------------------------- conservation

  /** Until a cancel, what the reader took followed by what is queued is what was pushed. */
  predicate Conserved(s: State) {
    && Accounted(s.queue)
    && s.taken <= s.pushed
    && (!s.queue.cancelled ==> s.taken + ChunkBytes(s.queue.items) == s.pushed)
  }

  /** A queue that gained an item, and the bytes pushed with it. */
  lemma PushConserves(q: Queue, taken: Bytes, pushed: Bytes, item: Item)
    requires Accounted(q) && !q.cancelled && !q.ended && taken + ChunkBytes(q.items) == pushed
    ensures var r := q.Append(item);
            Accounted(r) && taken + ChunkBytes(r.items) == pushed + BytesOf(item) && taken <= pushed + BytesOf(item)
  {
    AppendKeepsAccounts(q, item);
    ChunkBytesSnoc(q.items, item);
    ConcatIsAssociative(taken, ChunkBytes(q.items), BytesOf(item));
  }

  lemma TakeConserves(q: Queue, taken: Bytes, pushed: Bytes)
    requires Accounted(q) && q.items != [] && !q.paused && taken + ChunkBytes(q.items) == pushed
    ensures var r := q.TakeNext().0;
            && Accounted(r) && taken + BytesOf(q.items[0]) + ChunkBytes(r.items) == pushed
            && taken + BytesOf(q.items[0]) <= pushed
  {
    TakeKeepsAccounts(q);
    assert q.items == [q.items[0]] + q.items[1..];
    ChunkBytesCons(q.items[0], q.items[1..]);
    ConcatIsAssociative(taken, BytesOf(q.items[0]), ChunkBytes(q.items[1..]));
  }

  lemma CopyConserves(s: State, chunk: Bytes, t: State)
    requires Conserved(s)
    requires t.queue == s.queue.Push(Chunk(chunk)).0 && t.taken == s.taken
    requires t.pushed == if s.queue.Push(Chunk(chunk)).1 then s.pushed + chunk else s.pushed
    ensures Conserved(t)
  {
    if !s.queue.cancelled && !s.queue.ended {
      PushConserves(s.queue, s.taken, s.pushed, Chunk(chunk));
    }
  }

  lemma RestConserves(s: State, t: State)
    requires Conserved(s) && Rests(s, t)
    ensures Conserved(t)
  {
  }

  lemma EndConserves(s: State, t: State)
    requires Conserved(s) && t == s.(queue := s.queue.Push(End).0, endPending := t.endPending, worker := t.worker)
    ensures Conserved(t)
  {
    if !s.queue.cancelled && !s.queue.ended {
      PushConserves(s.queue, s.taken, s.pushed, End);
      assert s.pushed + [] == s.pushed;
    }
  }

  lemma FinishConserves(s: State)
    requires Conserved(s)
    ensures Conserved(FinishCopy(s))
  {
    if s.worker.Ending? && s.endPending && s.Held() == [] {
      EndConserves(s, FinishCopy(s));
    } else {
      RestConserves(s, FinishCopy(s));
    }
  }

  lemma EnvoyConserves(s: State, step: EnvoyStep)
    requires Conserved(s)
    ensures Conserved(EnvoyMoves(s, step))
  {
    match step
    case Deliver(frame, aliased, end) =>
      RestConserves(s, Receive(s, frame, aliased, end));
    case EventRuns => RestConserves(s, EnvoyMoves(s, EventRuns));
    case Size => RestConserves(s, SizeUp(s));
    case PushRetained(k) =>
      if CopyRetained(s, k) != s {
        CopyConserves(s, s.retained[..k], CopyRetained(s, k));
      }
    case PushReceived(k) =>
      if CopyReceived(s, k) != s {
        CopyConserves(s, s.received[..k], CopyReceived(s, k));
      }
    case LeaveBuffer => RestConserves(s, StopCopying(s));
    case PushEnd => FinishConserves(s);
    case Owe => RestConserves(s, Owes(s));
    case ReplyLocally =>
      RestConserves(s, LetGo(s));
    case DropFilter =>
      RestConserves(s, Drop(s));
  }

  lemma TakeItemConserves(s: State)
    requires Conserved(s)
    ensures Conserved(TakeItem(s))
  {
    if s.queue.items != [] && !s.queue.paused {
      TakeConserves(s.queue, s.taken, s.pushed);
    }
  }

  lemma ReaderConserves(s: State, step: ReaderStep)
    requires Conserved(s)
    ensures Conserved(ReaderMoves(s, step))
  {
    if step == TakeNext {
      TakeItemConserves(s);
    } else {
      RestConserves(s, ReaderMoves(s, step));
    }
  }

  lemma {:induction false} Invariant(budget: nat, steps: seq<Step>)
    ensures var s := Run(budget, steps); Inv(s) && Accounted(s.queue) && Conserved(s)
  {
    if steps != [] {
      Invariant(budget, Front(steps));
      var s, step := Run(budget, Front(steps)), Last(steps);
      if step.Envoy? {
        EnvoyKeeps(s, step.e);
        EnvoyConserves(s, step.e);
      } else {
        ReaderKeeps(s, step.r);
        ReaderConserves(s, step.r);
      }
    }
  }

  // ----------------------------------------------------------------- theorems

  /**
   Request bodies are forwarded exactly: for any split between the retained
   bytes and the frame in hand, any slicing and any reader pace, what the reader
   took, what is queued and what Envoy still holds are, in this order, what the
   client sent. A cancel only cuts the tail. The queue never exceeds its budget.
   */
  lemma BodyForwardedExactly(budget: nat, steps: seq<Step>)
    ensures var s := Run(budget, steps);
            && s.taken <= s.pushed <= s.sent
            && (!s.gone ==> s.taken + ChunkBytes(s.queue.items) + s.Held() == s.sent)
            && s.queue.buffered <= s.queue.capacity
  {
    Invariant(budget, steps);
  }

  /** The end is queued behind the last byte of a body the client has finished, and nothing follows it. */
  lemma EndFollowsLastByte(budget: nat, steps: seq<Step>)
    ensures var s := Run(budget, steps);
            s.queue.ended ==> s.clientDone && s.pushed == s.sent && OneTerminal(s.queue.items)
  {
    Invariant(budget, steps);
  }

  /** Once the queue has ended, no run goes on to push a byte. */
  lemma {:induction false} NothingPushedAfterEnd(budget: nat, steps: seq<Step>, more: seq<Step>)
    ensures var s, t := Run(budget, steps), Run(budget, steps + more);
            s.queue.ended ==> t.queue.ended && t.pushed == s.pushed
  {
    if more == [] {
      assert steps + more == steps;
    } else {
      NothingPushedAfterEnd(budget, steps, Front(more));
      FrontOfConcat(steps, more);
      StepPushesOnlyOpen(Run(budget, steps + Front(more)), Last(more));
    }
  }

  /**
   No request-body deadlock: whenever Envoy holds bytes or an end it has not
   forwarded and the queue has room, forwarding is running, or an event for it
   is scheduled, or the reader is between its take and its wake; unless the
   filter has replied locally.
   */
  lemma NoRequestDeadlock(budget: nat, steps: seq<Step>)
    ensures var s := Run(budget, steps);
            s.Forwards() && (s.Held() != [] || s.endPending) && !s.queue.Full() ==>
              s.worker != Idle || ForwardDue(s)
  {
    Invariant(budget, steps);
  }

  /** A reader parked on a queue that has data, an end or a cancel for it is on `Wakeups` or about to be. */
  lemma ParkedReaderHears(budget: nat, steps: seq<Step>)
    ensures var s := Run(budget, steps);
            s.reader == Parked && s.queue.ReadReady() ==> s.owed || AboutToOwe(s.worker)
  {
    Invariant(budget, steps);
  }

  /** Nothing is running, scheduled or owed, and the reader waits. */
  predicate RestsParked(s: State) {
    s.worker == Idle && s.events == 0 && !s.owed && s.reader == Parked
  }

  /** The client has said something the reader has not heard, or will say no more. */
  predicate LeftUnheard(s: State) {
    s.taken != s.sent || s.clientDone || s.gone
  }

  /**
   Once everything has come to rest, a parked reader has read all the client
   sent, and the client has more to say; unless the filter has replied locally.
   */
  lemma AtRestReaderIsCaughtUp(budget: nat, steps: seq<Step>)
    ensures var s := Run(budget, steps);
            RestsParked(s) && LeftUnheard(s) ==> s.letGo
  {
    Invariant(budget, steps);
    var s := Run(budget, steps);
    if RestsParked(s) && !s.letGo {
      assert ChunkBytes(s.queue.items) == [];
      assert s.Held() == [];
    }
  }

  // --------------------------------------------------- once the filter lets go

  lemma Extend(budget: nat, steps: seq<Step>, step: Step) returns (longer: seq<Step>, t: State)
    ensures longer == steps + [step] && t == Run(budget, longer) == Apply(Run(budget, steps), step)
  {
    longer := steps + [step];
    assert Front(longer) == steps;
    t := Run(budget, longer);
  }

  /** A reader that has enough leaves, and one that is stopped leaves nobody's variable behind. */
  lemma ReaderLeaves(budget: nat, steps: seq<Step>)
    ensures var s := Run(budget, steps);
            && (s.reader == Deciding ==> Run(budget, steps + [Reader(Enough)]) == s.(reader := Away))
            && (s.reader in {Parked, Resumed} ==>
                  Run(budget, steps + [Reader(Stop)]) == s.(queue := s.queue.(waiter := None), reader := Away))
  {
    var longer, t := Extend(budget, steps, Reader(Enough));
    longer, t := Extend(budget, steps, Reader(Stop));
  }

  /** A frame, or the end, is received: behind all that Envoy holds, and forwarded at once unless the filter has let go. */
  lemma FrameIsReceived(budget: nat, steps: seq<Step>, frame: Bytes, aliased: bool, end: bool)
    ensures var s := Run(budget, steps);
            var t := Run(budget, steps + [Envoy(Deliver(frame, aliased, end))]);
            s.worker == Idle && !s.clientDone && !s.gone ==>
              && t.sent == s.sent + frame && t.clientDone == end && t.Held() == s.Held() + frame && t.queue == s.queue
              && t.worker == (if s.letGo then Idle else Sizing) && (s.Forwards() ==> t.endPending == end)
  {
    var s := Run(budget, steps);
    Invariant(budget, steps);
    var longer, t := Extend(budget, steps, Envoy(Deliver(frame, aliased, end)));
    assert s.retained + [] == s.retained && s.retained + frame + [] == s.retained + frame;
  }

  /** A fiber has looked for a chunk, found none and parked. */
  lemma ReaderParks(budget: nat) returns (steps: seq<Step>)
    ensures Run(budget, steps) == Init(budget).(queue := NewQueue(budget).(waiter := Some(0)), reader := Parked)
  {
    var s: State;
    steps, s := Extend(budget, [], Reader(BeginFill));
    steps, s := Extend(budget, steps, Reader(TakeNext));
    assert s == Init(budget).(reader := Deciding);
    steps, s := Extend(budget, steps, Reader(Park));
  }

  /** The application fails, and the filter replies for it. */
  lemma FilterReplies(budget: nat) returns (steps: seq<Step>)
    ensures Run(budget, steps)
         == Init(budget).(queue := NewQueue(budget).(waiter := Some(0)), reader := Parked, letGo := true)
  {
    var s: State;
    steps := ReaderParks(budget);
    steps, s := Extend(budget, steps, Envoy(ReplyLocally));
  }

  lemma WithheldThenDropped(s: State)
    requires RestsParked(s) && s.letGo && !s.gone && !s.clientDone && s.Held() == []
    ensures var t := EnvoyMoves(s, Deliver([7], false, false));
            var u := EnvoyMoves(t, DropFilter);
            && t.Held() == [7] && t == s.(sent := t.sent, retained := t.retained, endPending := false)
            && u == t.(gone := true)
  {
  }

  /**
   Such a run exists: the application fails while another of its fibers waits
   for the body, and what the client sends next stays with Envoy for good, even
   when the filter is dropped.
   */
  lemma LocalReplyStrandsReader(budget: nat) returns (steps: seq<Step>)
    ensures var s := Run(budget, steps);
            RestsParked(s) && !s.gone && s.Held() == [7] && !s.queue.Full() && !ForwardDue(s)
    ensures var t := Run(budget, steps + [Envoy(DropFilter)]);
            RestsParked(t) && t.gone && !t.queue.cancelled
  {
    var s: State;
    steps := FilterReplies(budget);
    WithheldThenDropped(Run(budget, steps));
    steps, s := Extend(budget, steps, Envoy(Deliver([7], false, false)));
    var longer, t := Extend(budget, steps, Envoy(DropFilter));
  }

  function RunFrom(s: State, more: seq<Step>): State
    decreases |more|
  {
    if more == [] then s else RunFrom(Apply(s, more[0]), more[1..])
  }

  lemma OneMore(s: State, step: Step, rest: seq<Step>)
    ensures RunFrom(s, [step] + rest) == RunFrom(Apply(s, step), rest)
  {
    assert ([step] + rest)[1..] == rest;
  }

  /** Nobody stops the waiting fiber. */
  predicate Undisturbed(more: seq<Step>) {
    forall i :: 0 <= i < |more| ==> more[i] != Reader(Stop)
  }

  lemma {:induction false} SleepsOn(s: State, more: seq<Step>)
    requires Asleep(s) && Undisturbed(more)
    ensures Asleep(RunFrom(s, more))
    decreases |more|
  {
    if more != [] {
      assert more[0] != Reader(Stop);
      StepWakesNobody(s, more[0]);
      SleepsOn(Apply(s, more[0]), more[1..]);
    }
  }

  /** No continuation resumes the waiting fiber. */
  ghost predicate NeverWoken(s: State) {
    forall more :: Undisturbed(more) ==> RunFrom(s, more).reader == Parked
  }

  lemma DroppedAndOwed(s: State)
    requires s.worker == Idle && s.Forwards() && s.queue.waiter.Some?
    ensures Owes(Drop(s)).owed && Owes(Drop(s)).queue.waiter.Some?
  {
  }

  lemma ResolveResumes(s: State)
    requires s.owed && s.queue.waiter.Some?
    ensures ReaderMoves(s, Resolve).reader == Resumed
  {
  }

  lemma ThreeMore(s: State, a: Step, b: Step, c: Step)
    ensures RunFrom(s, [a, b, c]) == Apply(Apply(Apply(s, a), b), c)
  {
    OneMore(s, a, [b, c]);
    OneMore(Apply(s, a), b, [c]);
    OneMore(Apply(Apply(s, a), b), c, []);
    assert [a, b, c] == [a] + [b, c] && [b, c] == [b] + [c] && [c] == [c] + [];
  }

  /** A drop that still has the queue wakes its reader. */
  lemma DropWakes(s: State) returns (more: seq<Step>)
    requires s.worker == Idle && s.Forwards() && s.queue.waiter.Some?
    ensures Undisturbed(more) && RunFrom(s, more).reader == Resumed
  {
    DroppedAndOwed(s);
    ResolveResumes(Owes(Drop(s)));
    ThreeMore(s, Envoy(DropFilter), Envoy(Owe), Reader(Resolve));
    more := [Envoy(DropFilter), Envoy(Owe), Reader(Resolve)];
  }

  /**
   Exactly when a reader at rest is lost: no worker, client, drop or reactor will
   ever resume it if and only if the filter has let go of the queue.
   */
  lemma LostExactlyWhenLetGo(budget: nat, steps: seq<Step>)
    ensures var s := Run(budget, steps);
            RestsParked(s) ==> (NeverWoken(s) <==> s.letGo)
  {
    Invariant(budget, steps);
    AtRestReaderIsCaughtUp(budget, steps);
    LostIfLetGo(Run(budget, steps));
  }

  lemma LostIfLetGo(s: State)
    requires s.reader == Parked <==> s.queue.waiter.Some?
    requires RestsParked(s) && s.gone ==> s.letGo
    ensures RestsParked(s) ==> (NeverWoken(s) <==> s.letGo)
  {
    if RestsParked(s) && s.letGo {
      forall more | Undisturbed(more) ensures RunFrom(s, more).reader == Parked {
        SleepsOn(s, more);
      }
    } else if RestsParked(s) {
      var more := DropWakes(s);
    }
  }

  /** No continuation moves another byte into the queue. */
  ghost predicate NeverForwarded(s: State) {
    forall more :: RunFrom(s, more).pushed == s.pushed
  }

  lemma {:induction false} LetGoForwardsNothing(s: State, more: seq<Step>)
    requires s.letGo && s.worker == Idle
    ensures RunFrom(s, more).pushed == s.pushed
    decreases |more|
  {
    if more != [] {
      StepPushesOnlyOpen(s, more[0]);
      LetGoForwardsNothing(Apply(s, more[0]), more[1..]);
    }
  }

  /** Bytes with room before them, that a filter which still has the queue is to forward. */
  predicate Forwardable(s: State) {
    s.worker == Idle && !s.gone && s.Held() != [] && !s.queue.Full()
  }

  /** From an event on, a pass of forwarding moves a byte. */
  lemma PassMoves(s: State) returns (more: seq<Step>)
    requires Inv(s) && Forwardable(s) && !s.letGo && s.events > 0
    ensures RunFrom(s, more).pushed != s.pushed
  {
    assert s.Held() == s.retained && !s.queue.ended && !s.queue.cancelled;
    var t := s.(events := s.events - 1, worker := Sizing);
    var u := SizeUp(t);
    assert u.worker.FromRetained? && u.worker.room > 0 && u.retained == s.retained && u.queue == s.queue;
    assert CopyRetained(u, 1).pushed == s.pushed + s.retained[..1];
    more := [Envoy(EventRuns)] + ([Envoy(Size)] + ([Envoy(PushRetained(1))] + []));
    OneMore(s, Envoy(EventRuns), [Envoy(Size)] + ([Envoy(PushRetained(1))] + []));
    OneMore(t, Envoy(Size), [Envoy(PushRetained(1))] + []);
    OneMore(u, Envoy(PushRetained(1)), []);
  }

  lemma WakeSchedules(s: State)
    requires Forwardable(s) && s.reader.Took?
    ensures var t := ReaderMoves(s, WakeWorker);
            Forwardable(t) && t.events > 0 && t.pushed == s.pushed && t.letGo == s.letGo
  {
  }

  /** The same when the reader is still to schedule the event. */
  lemma ForwardsOn(s: State) returns (more: seq<Step>)
    requires Inv(s) && Accounted(s.queue) && Forwardable(s) && !s.letGo && ForwardDue(s)
    ensures RunFrom(s, more).pushed != s.pushed
  {
    if s.events > 0 {
      more := PassMoves(s);
    } else {
      WakeSchedules(s);
      var t := ReaderMoves(s, WakeWorker);
      var rest := PassMoves(t);
      more := [Reader(WakeWorker)] + rest;
      OneMore(s, Reader(WakeWorker), rest);
    }
  }

  /**
   Exactly when the body is stuck: bytes Envoy holds before a queue with room
   can go on if and only if the filter has not let go of the queue.
   */
  lemma StuckExactlyWhenLetGo(budget: nat, steps: seq<Step>)
    ensures var s := Run(budget, steps);
            Forwardable(s) ==> (NeverForwarded(s) <==> s.letGo)
  {
    Invariant(budget, steps);
    NoRequestDeadlock(budget, steps);
    StuckIfLetGo(Run(budget, steps));
  }

  lemma StuckIfLetGo(s: State)
    requires Inv(s) && Accounted(s.queue) && (Forwardable(s) && !s.letGo ==> ForwardDue(s))
    ensures Forwardable(s) ==> (NeverForwarded(s) <==> s.letGo)
  {
    if Forwardable(s) && s.letGo {
      forall more ensures RunFrom(s, more).pushed == s.pushed {
        LetGoForwardsNothing(s, more);
      }
    } else if Forwardable(s) {
      var more := ForwardsOn(s);
    }
  }
}
