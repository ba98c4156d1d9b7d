/**
 What a streamed upstream exchange tells its fiber, and why
 (crates/ruvoy-envoy-fiber/src/upstream.rs): which callbacks of Envoy end a
 response well, which fail it, what is counted of it, and what of the bytes that
 arrive is read. The runs are those of `Exchange`.
 */
module Responses {
  import opened Basics
  import opened Streams
  import E = Exchange

  // -------------------------------------------------------------------- causes

  /** Envoy says that the response is complete. */
  predicate EndsWell(step: E.Step) {
    match step
    case Worker(HeadersArrived(head, end)) => head != None && end
    case Worker(DataArrived(_, end)) => end
    case Worker(TrailersArrived(_)) => true
    case Worker(StreamCompleted) => true
    case _ => false
  }

  predicate IsReset(step: E.Step) {
    step.Worker? && step.w.StreamReset?
  }

  /** Envoy or the end of the request breaks the stream off, Envoy refuses it, or its head cannot be read. */
  predicate BreaksOff(step: E.Step) {
    match step
    case Worker(StreamReset(_)) => true
    case Worker(Abandon) => true
    case Worker(HeadersArrived(head, _)) => head == None
    case Worker(Start(refused)) => refused
    case _ => false
  }

  predicate BringsBytes(step: E.Step) {
    step.Worker? && step.w.DataArrived? && step.w.bytes != []
  }

  // ------------------------------------------------------------- what is told

  /** How the response ended for the fiber, or will once the callback at work has pushed it. */
  predicate Told(s: E.State, item: Item) {
    s.terminal == Some(item) || s.todo.terminal == Some(item)
  }

  predicate ToldBefore(s: E.State, t: E.State, item: Item) {
    Told(t, item) ==> Told(s, item)
  }

  /** A reset of an upgraded session that nobody asked for is how it ends. */
  predicate EndsSession(s: E.State, step: E.Step) {
    IsReset(step) && s.open.upgraded && !s.open.resetSent
  }

  /** The step may tell an end only for an end, a failure only for a break, and an overflow only for bytes. */
  predicate TellsWhy(s: E.State, t: E.State, step: E.Step) {
    && (Told(t, End) ==> Told(s, End) || EndsWell(step) || EndsSession(s, step))
    && (Told(t, Failed(Upstream)) ==> Told(s, Failed(Upstream)) || (BreaksOff(step) && !EndsSession(s, step)))
    && (Told(t, Failed(UpstreamOverflow)) ==> Told(s, Failed(UpstreamOverflow)) || BringsBytes(step))
  }

  lemma CallbackTellsWhy(s: E.State, w: E.WorkerStep)
    requires w.HeadersArrived? || w.DataArrived? || w.TrailersArrived? || w.StreamCompleted? || w.StreamReset? || w.Abandon?
    ensures TellsWhy(s, E.WorkerMoves(s, w), E.Worker(w))
  {
    match w
    case HeadersArrived(_, _) =>
    case DataArrived(_, _) =>
    case TrailersArrived(_) =>
    case StreamCompleted =>
    case StreamReset(_) =>
    case Abandon =>
  }

  /** Neither what is told nor what is counted changes. */
  predicate SaysTheSame(s: E.State, t: E.State) {
    && t.terminal == s.terminal && t.todo == s.todo && t.open.outcome == s.open.outcome && t.open.upgraded == s.open.upgraded
    && (s.channel.response.cancelled ==> t.channel.response.cancelled)
  }

  lemma SendingSaysTheSame(s: E.State, w: E.WorkerStep)
    requires w in {E.BeginStart, E.Start(false), E.NextAction, E.TakePiece}
    ensures SaysTheSame(s, E.WorkerMoves(s, w))
  {
  }

  lemma FiberSaysTheSame(s: E.State, f: E.FiberStep)
    ensures SaysTheSame(s, E.FiberMoves(s, f))
  {
  }

  lemma CarryOnTellsWhy(s: E.State)
    ensures TellsWhy(s, E.Proceed(s), E.Worker(E.CarryOn))
  {
  }

  lemma RefusalTellsWhy(s: E.State)
    ensures TellsWhy(s, E.OnStart(s, true), E.Worker(E.Start(true)))
  {
  }

  lemma StepTellsWhy(s: E.State, step: E.Step)
    ensures TellsWhy(s, E.Apply(s, step), step)
  {
    if step.Fiber? {
      FiberSaysTheSame(s, step.f);
    } else if step.w in {E.BeginStart, E.Start(false), E.NextAction, E.TakePiece} {
      SendingSaysTheSame(s, step.w);
    } else if step.w == E.CarryOn {
      CarryOnTellsWhy(s);
    } else if step.w == E.Start(true) {
      RefusalTellsWhy(s);
    } else {
      CallbackTellsWhy(s, step.w);
    }
  }

  /** Once its response has ended, an exchange stays what it was, upgraded or not. */
  lemma UpgradeIsFinal(s: E.State, step: E.Step)
    requires E.Inv(s) && (s.terminal != None || s.todo.terminal != None)
    ensures E.Apply(s, step).open.upgraded == s.open.upgraded
  {
  }

  ghost predicate Any(steps: seq<E.Step>, p: E.Step -> bool) {
    exists i :: 0 <= i < |steps| && p(steps[i])
  }

  lemma AnyOfMore(steps: seq<E.Step>, p: E.Step -> bool)
    requires steps != []
    ensures Any(Front(steps), p) || p(Last(steps)) ==> Any(steps, p)
  {
    if Any(Front(steps), p) {
      var i :| 0 <= i < |Front(steps)| && p(Front(steps)[i]);
      assert p(steps[i]);
    } else if p(Last(steps)) {
      assert p(steps[|steps| - 1]);
    }
  }

  /**
   In every run an end is told only if Envoy said that the response was complete,
   or reset a session it had upgraded; a failure only if the stream was broken
   off, refused or unreadable; an overflow only if bytes arrived.
   */
  lemma {:induction false} ToldForAReason(budget: nat, steps: seq<E.Step>)
    ensures var s := E.Run(budget, steps);
            && (Told(s, End) ==> Any(steps, EndsWell) || (s.open.upgraded && Any(steps, IsReset)))
            && (Told(s, Failed(Upstream)) ==> Any(steps, BreaksOff))
            && (Told(s, Failed(UpstreamOverflow)) ==> Any(steps, BringsBytes))
  {
    if steps != [] {
      ToldForAReason(budget, Front(steps));
      var s := E.Run(budget, Front(steps));
      E.Invariant(budget, Front(steps));
      StepTellsWhy(s, Last(steps));
      AnyOfMore(steps, EndsWell);
      AnyOfMore(steps, IsReset);
      AnyOfMore(steps, BreaksOff);
      AnyOfMore(steps, BringsBytes);
      if s.terminal != None || s.todo.terminal != None {
        UpgradeIsFinal(s, Last(steps));
      }
    }
  }

  // ------------------------------------------------------------- what is counted

  /** The outcome agrees with what the fiber is told, unless it closed the exchange itself. */
  predicate CountedAsTold(s: E.State) {
    && (Told(s, End) ==> s.open.outcome == Some(E.Completed))
    && (Told(s, Failed(UpstreamOverflow)) ==> s.open.outcome == Some(E.Overflow))
    && (Told(s, Failed(Upstream)) && s.open.outcome == Some(E.Completed) ==> s.open.upgraded)
    && (s.open.outcome in {Some(E.Refused), Some(E.WasReset), Some(E.Abandoned)} ==>
          Told(s, Failed(Upstream)) || s.channel.response.cancelled)
    && s.open.outcome != Some(E.TooLarge)
  }

  lemma HeadersCount(s: E.State, head: Option<ResponseHead>, end: bool)
    requires E.Inv(s) && CountedAsTold(s)
    ensures CountedAsTold(E.OnHeaders(s, head, end))
  {
  }

  /** The end of an open response, and its failure, are counted as they are told. */
  lemma EndingCounts(s: E.State)
    requires s.terminal == None && s.todo.terminal == None && s.open.outcome == None
    ensures CountedAsTold(E.EndResponse(s)) && CountedAsTold(E.FailResponse(s, UpstreamOverflow))
  {
  }

  lemma DataCounts(s: E.State, bytes: Bytes, end: bool)
    requires E.Inv(s) && CountedAsTold(s)
    ensures CountedAsTold(E.OnData(s, bytes, end))
  {
    if E.MayCallBack(s) && !s.open.responseEnded {
      var t := s.(channel := s.channel.(response := s.channel.response.PushIfRoom(bytes).0));
      EndingCounts(s);
      EndingCounts(t);
    }
  }

  lemma TrailersCount(s: E.State, trailers: E.Fields)
    requires E.Inv(s) && CountedAsTold(s)
    ensures CountedAsTold(E.OnTrailers(s, trailers))
  {
  }

  lemma CompletedCounts(s: E.State)
    requires E.Inv(s) && CountedAsTold(s)
    ensures CountedAsTold(E.OnCompleted(s))
  {
  }

  lemma ResetCounts(s: E.State, overflow: bool)
    requires E.Inv(s) && CountedAsTold(s)
    ensures CountedAsTold(E.OnReset(s, overflow))
  {
    CompletedCounts(s);
  }

  lemma AbandonCounts(s: E.State)
    requires E.Inv(s) && CountedAsTold(s)
    ensures CountedAsTold(E.OnAbandon(s))
  {
  }

  lemma CarryOnCounts(s: E.State)
    requires E.Inv(s) && CountedAsTold(s)
    ensures CountedAsTold(E.Proceed(s))
  {
  }

  lemma RefusedCounts(s: E.State)
    requires E.Inv(s) && CountedAsTold(s)
    ensures CountedAsTold(E.OnStart(s, true))
  {
  }

  lemma SameCounts(s: E.State, t: E.State)
    requires CountedAsTold(s) && SaysTheSame(s, t)
    ensures CountedAsTold(t)
  {
  }

  lemma StepCounts(s: E.State, step: E.Step)
    requires E.Inv(s) && CountedAsTold(s)
    ensures CountedAsTold(E.Apply(s, step))
  {
    if step.Fiber? {
      FiberSaysTheSame(s, step.f);
      SameCounts(s, E.FiberMoves(s, step.f));
    } else if step.w in {E.BeginStart, E.Start(false), E.NextAction, E.TakePiece} {
      SendingSaysTheSame(s, step.w);
      SameCounts(s, E.WorkerMoves(s, step.w));
    } else {
      WorkerCounts(s, step.w);
    }
  }

  lemma WorkerCounts(s: E.State, w: E.WorkerStep)
    requires E.Inv(s) && CountedAsTold(s) && w !in {E.BeginStart, E.Start(false), E.NextAction, E.TakePiece}
    ensures CountedAsTold(E.WorkerMoves(s, w))
  {
    match w
    case Start(_) => RefusedCounts(s);
    case HeadersArrived(head, end) => HeadersCount(s, head, end);
    case DataArrived(bytes, end) => DataCounts(s, bytes, end);
    case TrailersArrived(trailers) => TrailersCount(s, trailers);
    case StreamCompleted => CompletedCounts(s);
    case StreamReset(overflow) => ResetCounts(s, overflow);
    case Abandon => AbandonCounts(s);
    case CarryOn => CarryOnCounts(s);
  }

  /** In every run the outcome that is counted is what the fiber was told. */
  lemma {:induction false} CountedIsTold(budget: nat, steps: seq<E.Step>)
    ensures CountedAsTold(E.Run(budget, steps))
  {
    if steps != [] {
      CountedIsTold(budget, Front(steps));
      E.Invariant(budget, Front(steps));
      StepCounts(E.Run(budget, Front(steps)), Last(steps));
    }
  }

  // -------------------------------------------------------- what a callback does

  /** A piece is within what the response queue may still hold. */
  predicate Fits(q: Queue, bytes: Bytes) {
    ChunkBytes(q.items) == [] || |ChunkBytes(q.items)| + |bytes| <= q.capacity
  }

  /** What the callback makes of a response that has not ended. */
  predicate Answers(s: E.State, t: E.State, w: E.WorkerStep) {
    match w
    case HeadersArrived(None, _) => Told(t, Failed(Upstream)) && t.open.outcome == Some(E.WasReset) && t.place == E.InTable
    case HeadersArrived(Some(head), end) =>
      && t.todo.head == Some(head) && (t.open.upgraded <==> head.status == 101) && t.place == E.InTable
      && t.todo.terminal == (if end then Some(End) else None)
    case DataArrived(bytes, end) =>
      && t.place == E.InTable
      && if bytes != [] && s.channel.response.cancelled then
           t.todo.recordStop && t.channel == s.channel
         else if bytes != [] && !Fits(s.channel.response, bytes) then
           Told(t, Failed(UpstreamOverflow)) && t.todo.wantReset && t.channel == s.channel
         else
           && t.channel.response.items == s.channel.response.items + (if bytes == [] then [] else [Chunk(bytes)])
           && t.todo.terminal == (if end then Some(End) else None)
    case TrailersArrived(trailers) => Told(t, End) && t.todo.trailers == Some(trailers) && t.place == E.InTable
    case StreamCompleted => Told(t, End) && t.open.outcome == Some(E.Completed) && t.place == E.Gone
    case StreamReset(overflow) =>
      && t.place == E.Gone && t.todo.cancelRequest
      && if s.open.upgraded && !s.open.resetSent then
           Told(t, End) && t.open.outcome == Some(E.Completed)
         else
           && Told(t, Failed(Upstream))
           && t.open.outcome == Some(if s.open.resetSent then s.open.Stopped(s.channel.timedOut)
                                     else if overflow then E.Refused else E.WasReset)
    case Abandon =>
      && Told(t, Failed(Upstream)) && t.place == E.Gone && t.todo.cancelRequest
      && t.open.outcome == Some(if s.open.upgraded then E.Completed else E.Abandoned)
    case _ => true
  }

  /** In every run, a callback that finds the response still open answers it so, with whatever it has to say. */
  lemma OpenResponseIsAnswered(budget: nat, steps: seq<E.Step>, w: E.WorkerStep)
    ensures var s, t := E.Run(budget, steps), E.Run(budget, steps + [E.Worker(w)]);
            E.MayCallBack(s) && !s.open.responseEnded ==> Answers(s, t, w)
  {
    var s := E.Run(budget, steps);
    assert Front(steps + [E.Worker(w)]) == steps;
    E.Invariant(budget, steps);
    ReadInFull(budget, steps);
    if E.MayCallBack(s) && !s.open.responseEnded {
      AnswersOpen(s, w);
    }
  }

  /** A stream that was never sent fails too, when the request is over: nothing is asked of Envoy, and its fiber hears. */
  lemma UnsentIsAbandoned(budget: nat, steps: seq<E.Step>)
    ensures var s, t := E.Run(budget, steps), E.Run(budget, steps + [E.Worker(E.Abandon)]);
            s.place == E.Unsent && s.worker == E.Idle ==>
              && Told(t, Failed(Upstream)) && t.place == E.Gone && t.asks == s.asks == []
              && t.todo.cancelRequest && t.todo.wantReset
  {
    assert Front(steps + [E.Worker(E.Abandon)]) == steps;
    E.SendInvariant(budget, steps);
  }

  lemma AnswersData(s: E.State, bytes: Bytes, end: bool)
    requires E.Inv(s) && Accounted(s.channel.response) && E.MayCallBack(s) && !s.open.responseEnded
    ensures Answers(s, E.OnData(s, bytes, end), E.DataArrived(bytes, end))
  {
    assert s.channel.response.buffered == |ChunkBytes(s.channel.response.items)|;
    assert s.channel.response.items + [] == s.channel.response.items;
  }

  lemma AnswersOpen(s: E.State, w: E.WorkerStep)
    requires E.Inv(s) && Accounted(s.channel.response) && E.MayCallBack(s) && !s.open.responseEnded
    ensures Answers(s, E.WorkerMoves(s, w), w)
  {
    match w
    case HeadersArrived(_, _) =>
    case DataArrived(bytes, end) => AnswersData(s, bytes, end);
    case TrailersArrived(_) =>
    case StreamCompleted =>
    case StreamReset(_) =>
    case Abandon =>
    case _ =>
  }

  // ------------------------------------------------------------- what is read

  /** The bytes that reached the stream while its response was open, and those the fiber has taken. */
  function Arriving(s: E.State, step: E.Step): Bytes {
    if E.MayCallBack(s) && !s.open.responseEnded && BringsBytes(step) then step.w.bytes else []
  }

  function Taking(s: E.State, step: E.Step): Bytes {
    if step == E.Fiber(E.TakeResponse) && s.channel.response.TakeNext().1 != None
    then BytesOf(s.channel.response.TakeNext().1.value)
    else []
  }

  function Arrived(budget: nat, steps: seq<E.Step>): Bytes {
    if steps == [] then []
    else Arrived(budget, Front(steps)) + Arriving(E.Run(budget, Front(steps)), Last(steps))
  }

  function Taken(budget: nat, steps: seq<E.Step>): Bytes {
    if steps == [] then []
    else Taken(budget, Front(steps)) + Taking(E.Run(budget, Front(steps)), Last(steps))
  }

  /** Taken and queued are what arrived, but for the piece that did not fit. */
  predicate Reads(s: E.State, taken: Bytes, arrived: Bytes) {
    && Accounted(s.channel.response)
    && taken <= arrived
    && (!s.channel.response.cancelled ==> taken + ChunkBytes(s.channel.response.items) <= arrived)
    && (!s.channel.response.cancelled && !Told(s, Failed(UpstreamOverflow)) ==>
          taken + ChunkBytes(s.channel.response.items) == arrived)
  }

  /** A step that neither takes nor brings bytes leaves the bytes queued, or cancels, and unsays no overflow. */
  predicate LeavesBytes(s: E.State, t: E.State) {
    var q, r := s.channel.response, t.channel.response;
    && Accounted(r) && (q.cancelled ==> r.cancelled)
    && (!r.cancelled ==> ChunkBytes(r.items) == ChunkBytes(q.items))
    && (!r.cancelled && Told(s, Failed(UpstreamOverflow)) ==> Told(t, Failed(UpstreamOverflow)))
  }

  lemma PushLeavesBytes(q: Queue, item: Item)
    requires Accounted(q) && BytesOf(item) == []
    ensures var r := q.Push(item).0;
            Accounted(r) && r.cancelled == q.cancelled && ChunkBytes(r.items) == ChunkBytes(q.items)
  {
    ApplyKeepsAccounts(q, OpPush(item));
    ChunkBytesSnoc(q.items, item);
    assert ChunkBytes(q.items) + [] == ChunkBytes(q.items);
  }

  lemma ProceedLeavesBytes(s: E.State)
    requires E.Inv(s) && Accounted(s.channel.response)
    ensures LeavesBytes(s, E.Proceed(s))
  {
    var q := s.channel.response;
    if s.todo.head != None {
      PushLeavesBytes(q, Head(s.todo.head.value));
    } else if !s.todo.recordStop && s.todo.trailers == None && s.todo.terminal != None {
      TerminalLeavesBytes(s);
    }
  }

  lemma TerminalLeavesBytes(s: E.State)
    requires E.Inv(s) && Accounted(s.channel.response) && !s.todo.recordStop && s.todo.terminal != None
    ensures LeavesBytes(s, E.PushTerminal(s))
  {
    PushLeavesBytes(s.channel.response, s.todo.terminal.value);
  }

  /** But for a take, the fiber leaves the response alone or cancels it. */
  lemma FiberLeavesResponse(s: E.State, f: E.FiberStep)
    requires f != E.TakeResponse
    ensures var r := E.FiberMoves(s, f).channel.response;
            r == s.channel.response || r == s.channel.response.Cancel()
  {
  }

  lemma FiberLeavesBytes(s: E.State, f: E.FiberStep)
    requires Accounted(s.channel.response) && f != E.TakeResponse
    ensures LeavesBytes(s, E.FiberMoves(s, f))
  {
    FiberLeavesResponse(s, f);
    FiberSaysTheSame(s, f);
    ApplyKeepsAccounts(s.channel.response, OpCancel);
  }

  lemma WorkerLeavesBytes(s: E.State, w: E.WorkerStep)
    requires E.Inv(s) && Accounted(s.channel.response) && !w.DataArrived?
    ensures LeavesBytes(s, E.WorkerMoves(s, w))
  {
    match w
    case CarryOn => ProceedLeavesBytes(s);
    case HeadersArrived(_, _) =>
    case TrailersArrived(_) =>
    case StreamCompleted =>
    case StreamReset(_) =>
    case Abandon =>
    case _ =>
  }

  lemma ReadsOn(s: E.State, t: E.State, taken: Bytes, arrived: Bytes)
    requires Reads(s, taken, arrived) && LeavesBytes(s, t)
    ensures Reads(t, taken + [], arrived + [])
  {
    assert taken + [] == taken && arrived + [] == arrived;
  }

  lemma TakeReads(s: E.State, taken: Bytes, arrived: Bytes)
    requires Reads(s, taken, arrived)
    ensures Reads(E.FiberMoves(s, E.TakeResponse), taken + Taking(s, E.Fiber(E.TakeResponse)), arrived + [])
  {
    var q := s.channel.response;
    TakeKeepsAccounts(q);
    assert taken + [] == taken && arrived + [] == arrived;
    if q.TakeNext().1 != None {
      assert ChunkBytes(q.items) == BytesOf(q.items[0]) + ChunkBytes(q.items[1..]);
      ConcatIsAssociative(taken, BytesOf(q.items[0]), ChunkBytes(q.items[1..]));
    }
  }

  /** A piece that is queued joins the balance; one that is not is missing from it. */
  lemma PieceBalances(q: Queue, taken: Bytes, arrived: Bytes, bytes: Bytes)
    requires Accounted(q) && taken <= arrived && (!q.cancelled ==> taken + ChunkBytes(q.items) == arrived)
    ensures var (r, fits) := q.PushIfRoom(bytes);
            && Accounted(r) && r.cancelled == q.cancelled && taken <= arrived + bytes
            && (fits == Some(true) ==> taken + ChunkBytes(r.items) == arrived + bytes)
            && (!q.cancelled ==> taken + ChunkBytes(r.items) <= arrived + bytes)
  {
    ApplyKeepsAccounts(q, OpPushIfRoom(bytes));
    ChunkBytesSnoc(q.items, Chunk(bytes));
    ConcatIsAssociative(taken, ChunkBytes(q.items), bytes);
  }

  lemma DataReads(s: E.State, taken: Bytes, arrived: Bytes, bytes: Bytes, end: bool)
    requires E.Inv(s) && Reads(s, taken, arrived)
    ensures Reads(E.OnData(s, bytes, end), taken + [], arrived + Arriving(s, E.Worker(E.DataArrived(bytes, end))))
  {
    assert taken + [] == taken;
    if E.MayCallBack(s) && !s.open.responseEnded && bytes != [] {
      assert !Told(s, Failed(UpstreamOverflow));
      PieceBalances(s.channel.response, taken, arrived, bytes);
    } else {
      DataLeavesBytes(s, bytes, end);
      assert arrived + [] == arrived;
    }
  }

  lemma DataLeavesBytes(s: E.State, bytes: Bytes, end: bool)
    requires Accounted(s.channel.response) && (!E.MayCallBack(s) || s.open.responseEnded || bytes == [])
    ensures LeavesBytes(s, E.OnData(s, bytes, end))
  {
  }

  lemma StepReads(s: E.State, step: E.Step, taken: Bytes, arrived: Bytes)
    requires E.Inv(s) && Reads(s, taken, arrived)
    ensures Reads(E.Apply(s, step), taken + Taking(s, step), arrived + Arriving(s, step))
  {
    if step == E.Fiber(E.TakeResponse) {
      TakeReads(s, taken, arrived);
    } else if step.Fiber? {
      FiberLeavesBytes(s, step.f);
      ReadsOn(s, E.Apply(s, step), taken, arrived);
    } else if step.w.DataArrived? {
      DataReads(s, taken, arrived, step.w.bytes, step.w.end);
    } else {
      WorkerLeavesBytes(s, step.w);
      ReadsOn(s, E.Apply(s, step), taken, arrived);
    }
  }

  /**
   Response fidelity: in every run the fiber has taken a prefix of the bytes that
   arrived while the response was open, and what it has taken and what is queued
   are all of them, unless it closed the exchange or a piece did not fit.
   */
  lemma {:induction false} ReadInFull(budget: nat, steps: seq<E.Step>)
    ensures Reads(E.Run(budget, steps), Taken(budget, steps), Arrived(budget, steps))
  {
    if steps != [] {
      ReadInFull(budget, Front(steps));
      E.Invariant(budget, Front(steps));
      StepReads(E.Run(budget, Front(steps)), Last(steps), Taken(budget, Front(steps)), Arrived(budget, Front(steps)));
    }
  }

  /** A fiber that read to the end of a response that ended well has read all that arrived. */
  lemma EndMeansAllRead(budget: nat, steps: seq<E.Step>)
    ensures var s := E.Run(budget, steps);
            s.terminal == Some(End) && s.channel.response.items == [] && !s.channel.response.cancelled ==>
              Taken(budget, steps) == Arrived(budget, steps)
  {
    ReadInFull(budget, steps);
    CountedIsTold(budget, steps);
    assert Taken(budget, steps) + [] == Taken(budget, steps);
  }

  // ------------------------------------------------------- the end comes last

  /** A head or trailers still to be told go before the end. */
  predicate EndStillToCome(s: E.State) {
    && (s.todo.head != None ==> !s.channel.response.ended)
    && (s.todo.trailers != None ==> !s.channel.response.ended && s.todo.terminal != None)
  }

  lemma StepKeepsOrder(s: E.State, step: E.Step)
    requires E.Inv(s) && EndStillToCome(s)
    ensures EndStillToCome(E.Apply(s, step))
  {
    match step
    case Fiber(f) => FiberKeepsOrder(s, f);
    case Worker(CarryOn) => CarryOnKeepsOrder(s);
    case Worker(w) => WorkerKeepsOrder(s, w);
  }

  lemma FiberKeepsOrder(s: E.State, f: E.FiberStep)
    requires EndStillToCome(s)
    ensures EndStillToCome(E.FiberMoves(s, f))
  {
  }

  lemma WorkerKeepsOrder(s: E.State, w: E.WorkerStep)
    requires E.Inv(s) && EndStillToCome(s) && w != E.CarryOn
    ensures EndStillToCome(E.WorkerMoves(s, w))
  {
    match w
    case HeadersArrived(_, _) =>
    case TrailersArrived(_) =>
    case _ =>
  }

  lemma CarryOnKeepsOrder(s: E.State)
    requires E.Inv(s) && EndStillToCome(s)
    ensures EndStillToCome(E.Proceed(s))
  {
  }

  /** In every run the fiber learns of head and trailers before it can see the end: none is behind it. */
  lemma {:induction false} EndIsToldLast(budget: nat, steps: seq<E.Step>)
    ensures EndStillToCome(E.Run(budget, steps))
  {
    if steps != [] {
      EndIsToldLast(budget, Front(steps));
      E.Invariant(budget, Front(steps));
      StepKeepsOrder(E.Run(budget, Front(steps)), Last(steps));
    }
  }
}
