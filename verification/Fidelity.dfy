/**
 Response fidelity, from the chunks a Rack body yields to the bytes Envoy is
 given.

 The fiber runs `respond` (src/rack.rs): the head first, then the body, written
 slice by slice through `Stream.write` (ruby/stream.rb), then the end; or a
 failure at any point. The stream of a streaming body may be closed before that,
 by the body or by its reader once it has returned: that ends the queue, and the
 body, or its `close`, may still raise. The worker takes and delivers items, the
 client pauses and resumes it, and the filter may be dropped. A run is any
 sequence of steps.
 */
module Fidelity {
  import opened Basics
  import opened Streams
  import opened Downstream

  datatype ProducerPc =
    | BeforeHead
    /** Between the chunks of the body. */
    | Between
    /** In `Stream.write`, with this much of the chunk not yet queued; refused, the body hears of it and may go on. */
    | Writing(rest: Bytes)
    | Done

  datatype State = State(
    queue: Queue,
    filter: Filter,
    producer: ProducerPc,
    /** Every byte of every chunk the body has written, and those given to `send_response_data`. */
    yielded: Bytes,
    sent: Bytes,
    /** The body's stream was closed; the body came to its end; it, or its `close`, raised. */
    closed: bool,
    complete: bool,
    raised: bool)

  datatype Step =
    | PublishHead(head: ResponseHead)
    | Yield(chunk: Bytes)
    | WriteSlice
    /** `close_write`, by the body or its reader: what is written from then on is refused. */
    | CloseWrite
    | Finish
    | Raise(error: BridgeError)
    | Deliver
    | Pause(paused: bool)
    | DropFilter
    | ClientGone

  function Rest(pc: ProducerPc): Bytes {
    if pc.Writing? then pc.rest else []
  }

  // ---------------------------------------------------------------- invariant

  /** A failure that reached the queue. */
  predicate Failing(s: State) {
    s.raised && !s.closed
  }

  /** The body has come to its end, raised, or had its stream closed. */
  predicate Concluding(s: State) {
    s.complete || s.raised || s.closed
  }

  /** Sent, queued and about to be queued are together what was written; a failure or a cancel only cuts the tail. */
  predicate InOrder(s: State) {
    && s.sent <= s.yielded
    && (!s.queue.cancelled ==> s.sent + ChunkBytes(s.queue.items) + Rest(s.producer) <= s.yielded)
    && (!s.queue.cancelled && !Failing(s) ==> s.sent + ChunkBytes(s.queue.items) + Rest(s.producer) == s.yielded)
  }

  /** No chunk reaches a filter that has not sent the head. */
  predicate HeadFirst(s: State) {
    && (s.filter.state in {Waiting, Streaming} <==> s.filter.attached)
    && s.filter.state != Collecting
    && (s.queue.cancelled ==> s.queue.items == [])
    && (s.filter.state == Waiting && s.queue.items != [] ==> s.queue.items[0].Head? || s.queue.items[0].Failed?)
    && (s.filter.state == Waiting && s.queue.items == [] && !s.queue.cancelled ==> s.producer == BeforeHead)
    && (s.producer == BeforeHead ==> s.filter.state == Waiting && s.queue.items == [] && s.yielded == [] && !s.closed)
  }

  /** How the body ended is how the response ends, and a body that closed its stream has ended it. */
  predicate EndsAsTheBody(s: State) {
    && (s.complete || s.raised ==> s.producer == Done)
    && (s.closed ==> s.producer in {Between, Done})
    && !(s.complete && s.raised)
    && (s.queue.ended ==> s.complete || s.raised || s.closed)
    && (Concluding(s) && !s.queue.cancelled ==> s.queue.ended)
    && (s.queue.ended && !s.queue.cancelled && s.filter.state != Responded ==>
          s.queue.items != [] && Last(s.queue.items).Terminal())
    && (forall i :: 0 <= i < |s.queue.items| ==>
          && (s.queue.items[i].End? ==> s.complete || s.closed)
          && (s.queue.items[i].Failed? ==> Failing(s)))
    && (forall i :: 0 <= i < |s.queue.items| - 1 ==> !s.queue.items[i].Terminal())
    && (s.filter.state == Responded ==>
          s.queue.items == [] && !s.queue.cancelled && (s.closed || s.producer == Done))
  }

  predicate Inv(s: State) {
    InOrder(s) && HeadFirst(s) && EndsAsTheBody(s)
  }

  // --------------------------------------------------------------------- steps

  function PushHead(s: State, head: ResponseHead): State {
    if s.producer != BeforeHead then s
    else
      var (q, accepted) := s.queue.Push(Head(head));
      s.(queue := q, producer := if accepted then Between else Done)
  }

  function PushSlice(s: State): State {
    if !s.producer.Writing? then s
    else if s.producer.rest == [] then s.(producer := Between)
    else
      var (q, taken) := s.queue.PushWithinBudget(s.producer.rest);
      if taken == None || taken.value > |s.producer.rest| then s.(queue := q, producer := Between)
      else s.(queue := q, producer := Writing(s.producer.rest[taken.value..]))
  }

  function PushOwnEnd(s: State): State {
    if s.producer != Between then s else s.(queue := s.queue.Push(End).0, closed := true)
  }

  function PushEnd(s: State): State {
    if s.producer != Between then s
    else s.(queue := s.queue.Push(End).0, producer := Done, complete := true)
  }

  function PushFailure(s: State, error: BridgeError): State {
    if s.producer == Done then s
    else s.(queue := s.queue.Push(Failed(error)).0, producer := Done, raised := true)
  }

  /** The worker takes one item, unless paused or gone, and delivers it. */
  function TakeAndDeliver(s: State): State {
    if s.filter.state !in {Waiting, Streaming} then s
    else
      var (q, item) := s.queue.TakeNext();
      if item == None then s
      else
        s.(queue := q, filter := DeliverItem(s.filter, item.value),
           sent := if s.filter.state == Streaming then s.sent + BytesOf(item.value) else s.sent)
  }

  function Apply(s: State, step: Step): State {
    match step
    case PublishHead(head) => PushHead(s, head)
    case Yield(chunk) =>
      if s.producer != Between || s.closed then s
      else s.(producer := Writing(chunk), yielded := s.yielded + chunk)
    case WriteSlice => PushSlice(s)
    case CloseWrite => PushOwnEnd(s)
    case Finish => PushEnd(s)
    case Raise(error) => PushFailure(s, error)
    case Deliver => TakeAndDeliver(s)
    case Pause(paused) => s.(queue := s.queue.SetPaused(paused))
    case DropFilter => if !s.filter.attached then s else s.(queue := s.queue.Cancel())
    case ClientGone => s.(filter := StreamComplete(s.filter))
  }

  /** The request has been admitted and its queue made. */
  function Init(metered: bool, budget: nat): State {
    State(NewQueue(budget), RequestHeaders(NewFilter(metered), true, true, false, false), BeforeHead, [], [],
          false, false, false)
  }

  function Run(metered: bool, budget: nat, steps: seq<Step>): State {
    if steps == [] then Init(metered, budget) else Apply(Run(metered, budget, Front(steps)), Last(steps))
  }

  // ------------------------------------------------------- every step keeps it

  lemma HeadKeeps(s: State, head: ResponseHead)
    requires Inv(s)
    ensures Inv(PushHead(s, head))
  {
    ChunkBytesSnoc(s.queue.items, Head(head));
  }

  lemma SlicedBytes(sent: Bytes, items: seq<Item>, rest: Bytes, n: nat)
    requires n <= |rest|
    ensures sent + ChunkBytes(items + [Chunk(rest[..n])]) + rest[n..] == sent + ChunkBytes(items) + rest
  {
    ChunkBytesSnoc(items, Chunk(rest[..n]));
    assert rest == rest[..n] + rest[n..];
    ConcatIsAssociative(sent, ChunkBytes(items), rest[..n]);
    ConcatIsAssociative(sent + ChunkBytes(items), rest[..n], rest[n..]);
  }

  lemma SliceKeeps(s: State)
    requires Inv(s)
    ensures Inv(PushSlice(s))
  {
    if s.producer.Writing? && s.producer.rest != [] {
      var taken := s.queue.PushWithinBudget(s.producer.rest).1;
      if taken != None && taken.value <= |s.producer.rest| {
        SlicedBytes(s.sent, s.queue.items, s.producer.rest, taken.value);
      }
    }
  }

  lemma YieldKeeps(s: State, chunk: Bytes)
    requires Inv(s)
    ensures Inv(Apply(s, Yield(chunk)))
  {
  }

  lemma OwnEndKeeps(s: State)
    requires Inv(s)
    ensures Inv(PushOwnEnd(s))
  {
    ChunkBytesSnoc(s.queue.items, End);
  }

  lemma EndKeeps(s: State)
    requires Inv(s)
    ensures Inv(PushEnd(s))
  {
    ChunkBytesSnoc(s.queue.items, End);
  }

  lemma FailureKeepsOrder(s: State, error: BridgeError)
    requires Inv(s)
    ensures InOrder(PushFailure(s, error))
  {
    ChunkBytesSnoc(s.queue.items, Failed(error));
  }

  lemma FailureKeeps(s: State, error: BridgeError)
    requires Inv(s)
    ensures HeadFirst(PushFailure(s, error)) && EndsAsTheBody(PushFailure(s, error))
  {
  }

  lemma TakenBytes(sent: Bytes, items: seq<Item>, rest: Bytes)
    requires items != []
    ensures sent + BytesOf(items[0]) + ChunkBytes(items[1..]) + rest == sent + ChunkBytes(items) + rest
  {
    ConcatIsAssociative(sent, BytesOf(items[0]), ChunkBytes(items[1..]));
  }

  lemma TakenInOrder(s: State, t: State)
    requires InOrder(s) && !s.queue.cancelled && s.queue.items != []
    requires t == s.(queue := t.queue, filter := t.filter, sent := s.sent + BytesOf(s.queue.items[0]))
    requires t.queue.items == s.queue.items[1..]
    ensures InOrder(t)
  {
    TakenBytes(s.sent, s.queue.items, Rest(s.producer));
  }

  lemma DeliverKeepsOrder(s: State)
    requires Inv(s)
    ensures InOrder(TakeAndDeliver(s))
  {
    var t := TakeAndDeliver(s);
    if t != s {
      assert s.filter.state != Streaming ==> BytesOf(s.queue.items[0]) == [];
      assert s.sent + [] == s.sent;
      TakenInOrder(s, t);
    }
  }

  lemma DeliverKeepsHeadFirst(s: State)
    requires Inv(s)
    ensures HeadFirst(TakeAndDeliver(s))
  {
  }

  lemma DeliverKeepsEnd(s: State)
    requires Inv(s)
    ensures EndsAsTheBody(TakeAndDeliver(s))
  {
    var t := TakeAndDeliver(s);
    assert t != s ==> t.queue.items == s.queue.items[1..];
  }

  lemma StepKeepsInv(s: State, step: Step)
    requires Inv(s)
    ensures Inv(Apply(s, step))
  {
    match step
    case PublishHead(head) => HeadKeeps(s, head);
    case Yield(chunk) => YieldKeeps(s, chunk);
    case WriteSlice => SliceKeeps(s);
    case CloseWrite => OwnEndKeeps(s);
    case Finish => EndKeeps(s);
    case Raise(error) =>
      FailureKeepsOrder(s, error);
      FailureKeeps(s, error);
    case Deliver =>
      DeliverKeepsOrder(s);
      DeliverKeepsHeadFirst(s);
      DeliverKeepsEnd(s);
    case Pause(_) =>
    case DropFilter =>
    case ClientGone =>
  }

  // -------------------------------------------------------- what the client sees

  function DataBytes(emitted: seq<Emission>): Bytes {
    if emitted == [] then []
    else DataBytes(Front(emitted)) + if Last(emitted).Data? then Last(emitted).bytes else []
  }

  lemma DataSnoc(emitted: seq<Emission>, e: Emission)
    ensures DataBytes(emitted + [e]) == DataBytes(emitted) + if e.Data? then e.bytes else []
  {
    assert Front(emitted + [e]) == emitted;
  }

  /** What was emitted last says how the response ended. */
  predicate Concluded(s: State) {
    && (EndOfStream in s.filter.emitted ==> (s.complete || s.closed) && s.sent == s.yielded)
    && (Reset in s.filter.emitted || RepliedLocally(s.filter.emitted) ==> Failing(s))
    && (s.filter.state == Responded ==>
          EndOfStream in s.filter.emitted || Reset in s.filter.emitted || RepliedLocally(s.filter.emitted))
    && (s.filter.state == Responded && s.closed ==> EndOfStream in s.filter.emitted)
    && (s.filter.state in {Waiting, Streaming} ==> EndOfStream !in s.filter.emitted && Reset !in s.filter.emitted)
    && (s.filter.state in {Waiting, Streaming} ==> !RepliedLocally(s.filter.emitted))
    && (s.filter.state == Waiting ==> s.filter.emitted == [])
  }

  /** The log of sent bytes is what was emitted. */
  predicate Logged(s: State) {
    s.sent == DataBytes(s.filter.emitted) && Concluded(s) && Downstream.Inv(s.filter)
  }

  lemma SaidBytes(emitted: seq<Emission>, state: FilterState, item: Item)
    ensures DataBytes(emitted + Said(state, item)) == DataBytes(emitted) + if state == Streaming then BytesOf(item) else []
  {
    var said := Said(state, item);
    if said == [] {
      assert emitted + said == emitted;
    } else {
      DataSnoc(emitted, said[0]);
      assert said == [said[0]];
    }
  }

  lemma DeliverKeepsSent(s: State)
    requires s.sent == DataBytes(s.filter.emitted)
    ensures TakeAndDeliver(s).sent == DataBytes(TakeAndDeliver(s).filter.emitted)
  {
    if s.queue.items != [] {
      SaidBytes(s.filter.emitted, s.filter.state, s.queue.items[0]);
    }
  }

  /** The end is the last item of a body all of which has been sent. */
  lemma EndComesLast(s: State)
    requires Inv(s) && s.queue.items != [] && s.queue.items[0] == End
    ensures (s.complete || s.closed) && s.sent == s.yielded && s.filter.state != Waiting
  {
    assert |s.queue.items| == 1;
    assert ChunkBytes(s.queue.items) == BytesOf(End) + ChunkBytes([]);
  }

  lemma SaysInOrder(emitted: seq<Emission>, state: FilterState, item: Item, e: Emission)
    requires e in {EndOfStream, Reset}
    ensures e in emitted + Said(state, item) <==> e in emitted || e in Said(state, item)
  {
  }

  lemma EndConcludes(s: State, t: State)
    requires Inv(s) && Concluded(s) && s.queue.items != [] && s.queue.items[0] == End && s.filter.state == Streaming
    requires t == s.(queue := t.queue, filter := t.filter)
    requires t.filter.state == Responded && t.filter.emitted == s.filter.emitted + [EndOfStream]
    ensures Concluded(t)
  {
    EndComesLast(s);
  }

  lemma FailureConcludes(s: State, t: State, error: BridgeError)
    requires Inv(s) && Concluded(s) && s.queue.items != [] && s.queue.items[0] == Failed(error)
    requires s.filter.state in {Waiting, Streaming} && t == s.(queue := t.queue, filter := t.filter)
    requires t.filter.state == Responded && t.filter.emitted == s.filter.emitted + Said(s.filter.state, Failed(error))
    ensures Concluded(t)
  {
    SaysInOrder(s.filter.emitted, s.filter.state, Failed(error), EndOfStream);
    SaysInOrder(s.filter.emitted, s.filter.state, Failed(error), Reset);
  }

  lemma DataConcludes(s: State, t: State, item: Item)
    requires Concluded(s) && !item.Terminal() && s.filter.state in {Waiting, Streaming}
    requires t == s.(queue := t.queue, filter := t.filter, sent := t.sent)
    requires t.filter.state == if item.Head? && s.filter.state == Waiting then Streaming else s.filter.state
    requires t.filter.emitted == s.filter.emitted + Said(s.filter.state, item)
    ensures Concluded(t)
  {
    SaysInOrder(s.filter.emitted, s.filter.state, item, EndOfStream);
    SaysInOrder(s.filter.emitted, s.filter.state, item, Reset);
  }

  lemma DeliverConcludes(s: State)
    requires Inv(s) && Concluded(s)
    ensures Concluded(TakeAndDeliver(s))
  {
    var t := TakeAndDeliver(s);
    if t != s {
      match s.queue.items[0]
      case Head(head) => DataConcludes(s, t, Head(head));
      case Chunk(bytes) => DataConcludes(s, t, Chunk(bytes));
      case End =>
        EndComesLast(s);
        EndConcludes(s, t);
      case Failed(error) => FailureConcludes(s, t, error);
    }
  }

  lemma DeliverKeepsLogged(s: State)
    requires Inv(s) && Logged(s)
    ensures Logged(TakeAndDeliver(s))
  {
    DeliverKeepsSent(s);
    DeliverConcludes(s);
    if TakeAndDeliver(s) != s {
      ItemKeeps(s.filter, s.queue.items[0]);
    }
  }

  /** A step of the body or the client says nothing; the flags it sets agree with what was said. */
  lemma SilentKeepsLogged(s: State, t: State)
    requires Logged(s) && t.filter == s.filter && t.sent == s.sent
    requires (s.complete || s.closed ==> t.yielded == s.yielded) && (s.complete ==> t.complete)
    requires s.closed ==> t.closed
    requires Failing(s) ==> Failing(t)
    requires s.filter.state == Responded && t.closed ==> s.closed
    ensures Logged(t)
  {
  }

  lemma GoneKeepsLogged(s: State)
    requires Logged(s)
    ensures Logged(Apply(s, ClientGone))
  {
    CallbackKeeps(s.filter, OnStreamComplete);
  }

  lemma StepKeepsLogged(s: State, step: Step)
    requires Inv(s) && Logged(s)
    ensures Logged(Apply(s, step))
  {
    match step
    case PublishHead(_) => SilentKeepsLogged(s, Apply(s, step));
    case Yield(_) => SilentKeepsLogged(s, Apply(s, step));
    case WriteSlice => SilentKeepsLogged(s, Apply(s, step));
    case CloseWrite => SilentKeepsLogged(s, Apply(s, step));
    case Finish => SilentKeepsLogged(s, Apply(s, step));
    case Raise(_) => SilentKeepsLogged(s, Apply(s, step));
    case Deliver => DeliverKeepsLogged(s);
    case Pause(_) => SilentKeepsLogged(s, Apply(s, step));
    case DropFilter => SilentKeepsLogged(s, Apply(s, step));
    case ClientGone => GoneKeepsLogged(s);
  }

  lemma {:induction false} Invariant(metered: bool, budget: nat, steps: seq<Step>)
    ensures var s := Run(metered, budget, steps); Inv(s) && Logged(s)
  {
    if steps != [] {
      Invariant(metered, budget, Front(steps));
      StepKeepsInv(Run(metered, budget, Front(steps)), Last(steps));
      StepKeepsLogged(Run(metered, budget, Front(steps)), Last(steps));
    }
  }

  // ----------------------------------------------------------------- theorems

  /** Whatever the body was left to do has been said to the client, in full. */
  predicate Answered(s: State) {
    && s.filter.state == Responded && s.queue.items == []
    && (Failing(s) ==> Reset in s.filter.emitted || RepliedLocally(s.filter.emitted))
    && (!Failing(s) ==> EndOfStream in s.filter.emitted && DataBytes(s.filter.emitted) == s.yielded)
  }

  /**
   A body that has come to its end, raised, or had its stream closed, ends its
   response: once its uncancelled queue is empty the client has been told, by an
   end behind every byte, or by a reset or a local reply if it failed.
   */
  lemma ConcludedBodyEndsItsResponse(metered: bool, budget: nat, steps: seq<Step>)
    ensures var s := Run(metered, budget, steps);
            Concluding(s) && !s.queue.cancelled && s.queue.items == [] ==> Answered(s)
  {
    Invariant(metered, budget, steps);
  }

  /** `n` deliveries. */
  function Deliveries(n: nat): seq<Step> {
    if n == 0 then [] else Deliveries(n - 1) + [Deliver]
  }

  /** Between `s` and `t` nothing was done but deliveries, `n` of them, to a client that does not pause. */
  predicate Delivered(s: State, t: State, n: nat) {
    && t == s.(queue := t.queue, filter := t.filter, sent := t.sent)
    && !t.queue.cancelled && !t.queue.paused && n <= |s.queue.items| && t.queue.items == s.queue.items[n..]
  }

  lemma DeliversOne(s: State)
    requires Inv(s) && !s.queue.cancelled && !s.queue.paused && s.queue.items != []
    ensures Delivered(s, TakeAndDeliver(s), 1)
  {
  }

  lemma DeliversNext(s: State, t: State, n: nat)
    requires Inv(t) && Delivered(s, t, n) && n < |s.queue.items|
    ensures Delivered(s, TakeAndDeliver(t), n + 1)
  {
    DeliversOne(t);
  }

  function DeliverTimes(s: State, n: nat): State {
    if n == 0 then s else TakeAndDeliver(DeliverTimes(s, n - 1))
  }

  lemma {:induction false} RunDelivers(metered: bool, budget: nat, steps: seq<Step>, n: nat)
    ensures Run(metered, budget, steps + Deliveries(n)) == DeliverTimes(Run(metered, budget, steps), n)
  {
    if n == 0 {
      assert steps + [] == steps;
    } else {
      RunDelivers(metered, budget, steps, n - 1);
      FrontOfConcat(steps, Deliveries(n));
      assert Front(Deliveries(n)) == Deliveries(n - 1);
    }
  }

  lemma {:induction false} DeliversAll(s: State, n: nat)
    requires Inv(s) && !s.queue.cancelled && !s.queue.paused && n <= |s.queue.items|
    ensures Delivered(s, DeliverTimes(s, n), n) && Inv(DeliverTimes(s, n))
  {
    if n > 0 {
      DeliversAll(s, n - 1);
      var t := DeliverTimes(s, n - 1);
      DeliversNext(s, t, n - 1);
      StepKeepsInv(t, Deliver);
    }
  }

  /**
   Progress: from every run whose body has concluded and whose queue nobody has
   cancelled, the worker finishes the response, once the client lets it: by as
   many deliveries as there are items.
   */
  lemma ConcludedBodyIsAnswered(metered: bool, budget: nat, steps: seq<Step>)
    requires var s := Run(metered, budget, steps); Concluding(s) && !s.queue.cancelled
    ensures var s := Run(metered, budget, steps);
            var t := Run(metered, budget, steps + [Pause(false)] + Deliveries(|s.queue.items|));
            Answered(t) && t.yielded == s.yielded && (Failing(t) <==> Failing(s))
  {
    var s := Run(metered, budget, steps);
    var resumed, r := Extend(metered, budget, steps, Pause(false));
    var n := |s.queue.items|;
    assert r.queue.items == s.queue.items && Concluding(r) && !r.queue.cancelled;
    Invariant(metered, budget, resumed);
    DeliversAll(r, n);
    RunDelivers(metered, budget, resumed, n);
    ConcludedBodyEndsItsResponse(metered, budget, resumed + Deliveries(n));
  }

  /**
   Response fidelity: under any slicing, pausing and dropping, the bytes given to
   Envoy are a prefix of what the body wrote, and all of it whenever the response
   ends cleanly, which it does only after the body came to its end or its stream
   was closed; a reset means that it raised, and that its stream was not closed.
   */
  lemma ResponseFidelity(metered: bool, budget: nat, steps: seq<Step>)
    ensures var s := Run(metered, budget, steps);
            && DataBytes(s.filter.emitted) <= s.yielded
            && (EndOfStream in s.filter.emitted ==>
                  (s.complete || s.closed) && DataBytes(s.filter.emitted) == s.yielded)
            && (Reset in s.filter.emitted ==> s.raised && !s.closed)
            && Wire(s.filter.emitted)
  {
    Invariant(metered, budget, steps);
  }

  /**
   What becomes of a body that raised, exactly: its response ends cleanly if and
   only if its stream had been closed before, and is reset, or replaced by a local
   reply, if and only if it had not.
   */
  lemma RaisedEndsCleanlyExactlyWhenClosed(metered: bool, budget: nat, steps: seq<Step>)
    ensures var s := Run(metered, budget, steps);
            s.raised && s.filter.state == Responded ==>
              && (EndOfStream in s.filter.emitted <==> s.closed)
              && (Reset in s.filter.emitted || RepliedLocally(s.filter.emitted) <==> !s.closed)
  {
    Invariant(metered, budget, steps);
  }

  lemma Extend(metered: bool, budget: nat, steps: seq<Step>, step: Step) returns (longer: seq<Step>, t: State)
    ensures longer == steps + [step]
    ensures t == Run(metered, budget, longer) == Apply(Run(metered, budget, steps), step)
  {
    longer := steps + [step];
    assert Front(longer) == steps;
    t := Run(metered, budget, longer);
  }

  /** A body may raise at any point before it is done, and its queue has then ended, unless it was cancelled. */
  lemma RaiseIsHeard(metered: bool, budget: nat, steps: seq<Step>, error: BridgeError)
    ensures var s, t := Run(metered, budget, steps), Run(metered, budget, steps + [Raise(error)]);
            s.producer != Done ==>
              && t.raised && t.producer == Done && t.yielded == s.yielded
              && t.queue.items == (if s.queue.cancelled || s.queue.ended then s.queue.items else s.queue.items + [Failed(error)])
  {
    var longer, t := Extend(metered, budget, steps, Raise(error));
  }

  /** A head and one chunk that fits are queued. */
  lemma OneChunkQueued(metered: bool, budget: nat, head: ResponseHead, chunk: Bytes) returns (steps: seq<Step>)
    requires 0 < |chunk| <= budget
    ensures var s, init := Run(metered, budget, steps), Init(metered, budget);
            && s == init.(queue := s.queue, producer := Between, yielded := chunk)
            && s.queue.items == [Head(head), Chunk(chunk)] && !s.queue.paused && !s.queue.ended && !s.queue.cancelled
  {
    var s: State;
    steps, s := Extend(metered, budget, [], PublishHead(head));
    assert s.producer == Between && s.queue.items == [Head(head)] && s.queue.Spare() == budget;
    steps, s := Extend(metered, budget, steps, Yield(chunk));
    assert s.producer == Writing(chunk) && s.yielded == chunk && s.queue.Spare() == budget;
    steps, s := Extend(metered, budget, steps, WriteSlice);
    assert chunk[..|chunk|] == chunk && s.producer == Writing([]);
    steps, s := Extend(metered, budget, steps, WriteSlice);
  }

  /** A whole response: such a body, once it has come to its end, reaches the client, and so does its end. */
  lemma WholeResponse(metered: bool, budget: nat, head: ResponseHead, chunk: Bytes) returns (steps: seq<Step>)
    requires 0 < |chunk| <= budget
    ensures var s := Run(metered, budget, steps);
            DataBytes(s.filter.emitted) == chunk && EndOfStream in s.filter.emitted && Wire(s.filter.emitted)
  {
    var s: State;
    steps := OneChunkQueued(metered, budget, head, chunk);
    steps, s := Extend(metered, budget, steps, Finish);
    assert s.complete && !s.raised && s.yielded == chunk;
    ConcludedBodyIsAnswered(metered, budget, steps);
    steps := steps + [Pause(false)] + Deliveries(|s.queue.items|);
    ResponseFidelity(metered, budget, steps);
  }

  /** A body closes its stream and then raises: both items it left are the head and the end. */
  lemma ClosesThenRaises(metered: bool, budget: nat, head: ResponseHead, error: BridgeError) returns (steps: seq<Step>)
    ensures var s, init := Run(metered, budget, steps), Init(metered, budget);
            && s == init.(queue := s.queue, producer := Done, closed := true, raised := true)
            && s.queue.items == [Head(head), End] && !s.queue.paused
  {
    var s: State;
    steps, s := Extend(metered, budget, [], PublishHead(head));
    assert s.producer == Between && s.queue.items == [Head(head)];
    steps, s := Extend(metered, budget, steps, CloseWrite);
    assert s.queue.ended && s.queue.items == [Head(head), End];
    steps, s := Extend(metered, budget, steps, Raise(error));
  }

  /** Such a run exists: what the client gets of it looks complete. */
  lemma RaisedBodyEndsCleanly(metered: bool, budget: nat, head: ResponseHead, error: BridgeError) returns (steps: seq<Step>)
    ensures var s := Run(metered, budget, steps);
            s.raised && s.filter.state == Responded && s.filter.emitted == [Headers(head), EndOfStream]
  {
    var s: State;
    steps := ClosesThenRaises(metered, budget, head, error);
    steps, s := Extend(metered, budget, steps, Deliver);
    assert s.filter.emitted == [Headers(head)] && s.filter.state == Streaming && s.queue.items == [End];
    steps, s := Extend(metered, budget, steps, Deliver);
  }

  /** Nothing is held back: once an uncancelled queue is empty and the body done, the client has it all. */
  lemma NothingHeldBack(metered: bool, budget: nat, steps: seq<Step>)
    ensures var s := Run(metered, budget, steps);
            (s.complete || s.closed) && s.queue.items == [] && !s.queue.cancelled ==>
              DataBytes(s.filter.emitted) == s.yielded
  {
    Invariant(metered, budget, steps);
  }
}
