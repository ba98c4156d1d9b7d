/**
 One streamed upstream exchange: the channel a fiber and the worker share
 (`StreamChannel`, src/upstream.rs) and what the worker keeps of it
 (`OpenStream`, crates/ruvoy-envoy-fiber/src/upstream.rs).

 The fiber writes, reads, closes and times out; the worker starts the stream,
 sends the body on, and is called back by Envoy in any order. Each lock
 acquisition and each atomic flag is one step: a callback settles what the worker
 alone keeps and leaves the rest in `todo`, which later steps carry out, in the
 order of the code, with the fiber's steps in between. A run is any sequence.
 */
module Exchange {
  import opened Basics
  import opened Streams

  type Fields = seq<(string, string)>

  datatype Outcome = Completed | Refused | TimedOut | Overflow | TooLarge | WasReset | Abandoned

  datatype Channel = Channel(
    response: Queue,
    request: Queue,
    resetWanted: bool,
    timedOut: bool,
    trailers: Option<Fields>)

  datatype OpenStream = OpenStream(
    outcome: Option<Outcome>,
    requestEnded: bool,
    responseEnded: bool,
    resetSent: bool,
    upgraded: bool)
  {
    /** `get_or_insert`: an outcome, once set, stays. */
    function Settle(o: Outcome): OpenStream {
      if outcome == None then this.(outcome := Some(o)) else this
    }

    function Stopped(timedOut: bool): Outcome {
      if timedOut then TimedOut else if upgraded then Completed else Abandoned
    }
  }

  /** What the worker asks of Envoy for the stream. */
  datatype Ask =
    | Begin(body: Bytes, ended: bool)
    | Piece(bytes: Bytes)
    | Finish
    | ResetStream

  datatype Place =
    | Unsent
    | InTable
    | Gone

  datatype WorkerPc =
    | Idle
    /** `start` saw no reset wanted: about to take the first piece of the body. */
    | Starting
    /** `next_action` saw no reset wanted: about to take the next piece. */
    | Sending

  /** What a callback has still to do on the channel, carried out from left to right. */
  datatype Todo = Todo(
    recordStop: bool,
    head: Option<ResponseHead>,
    trailers: Option<Fields>,
    terminal: Option<Item>,
    cancelRequest: bool,
    wantReset: bool)

  const NOTHING: Todo := Todo(false, None, None, None, false, false)

  /** How far the fiber has come in closing the exchange. */
  datatype FiberPc =
    | Running
    | MarkingTimeOut
    | CancellingResponse
    | CancellingRequest
    | Flagging

  datatype State = State(
    channel: Channel,
    open: OpenStream,
    place: Place,
    worker: WorkerPc,
    todo: Todo,
    fiber: FiberPc,
    /** What the request queue accepted, what went out, and the item that ended the response. */
    written: Bytes,
    asks: seq<Ask>,
    terminal: Option<Item>)

  datatype FiberStep =
    | Write(bytes: Bytes)
    | FinishWriting
    | TakeResponse
    | BeginClose(timeOut: bool)
    | CloseOn

  datatype WorkerStep =
    | BeginStart
    | Start(refused: bool)
    | NextAction
    | TakePiece
    | HeadersArrived(head: Option<ResponseHead>, end: bool)
    | DataArrived(bytes: Bytes, end: bool)
    | TrailersArrived(trailers: Fields)
    | StreamCompleted
    | StreamReset(overflow: bool)
    | Abandon
    | CarryOn

  datatype Step = Fiber(f: FiberStep) | Worker(w: WorkerStep)

  // ---------------------------------------------------------------- invariant

  predicate ResponseOver(c: Channel) {
    c.response.ended || c.response.cancelled
  }

  predicate ClosedInOrder(s: State) {
    && (s.channel.resetWanted ==> s.channel.request.cancelled && ResponseOver(s.channel))
    && (s.fiber in {CancellingRequest, Flagging} ==> s.channel.response.cancelled)
    && (s.fiber == Flagging ==> s.channel.request.cancelled)
    && (s.channel.response.ended <==> s.terminal != None)
    && (s.terminal != None ==> s.terminal.value.Terminal())
  }

  predicate TodoInOrder(s: State) {
    && (s.todo.terminal != None ==> !s.channel.response.ended && s.todo.terminal.value.Terminal())
    && (s.todo.wantReset ==> s.todo.cancelRequest || s.channel.request.cancelled)
    && (s.todo.wantReset ==> s.todo.terminal != None || ResponseOver(s.channel))
    && (s.todo.recordStop ==>
          s.channel.response.cancelled && !s.open.responseEnded && s.place == InTable && s.todo == NOTHING.(recordStop := true))
    && (s.place == Unsent ==> s.todo == NOTHING)
    && (s.worker == Starting ==> s.place == Unsent)
    && (s.worker == Sending ==> s.place == InTable && s.todo == NOTHING)
  }

  predicate Ended(s: State, item: Item) {
    s.terminal == Some(item) || s.todo.terminal == Some(item) || s.channel.response.cancelled
  }

  predicate OutcomeSound(s: State) {
    && (s.place == InTable ==> (s.open.outcome != None <==> s.open.responseEnded))
    && (s.place == Unsent ==> s.open.outcome == None && !s.open.responseEnded)
    && (s.open.responseEnded || s.place == Gone ==> s.todo.terminal != None || ResponseOver(s.channel))
    && (!s.open.responseEnded && s.place != Gone ==> !s.channel.response.ended && s.todo.terminal == None)
    && (s.place == Gone ==> s.todo.cancelRequest || s.channel.request.cancelled)
    && (s.open.outcome == Some(Overflow) ==> Ended(s, Failed(UpstreamOverflow)))
    && (s.open.outcome == Some(Completed) ==> s.open.upgraded || Ended(s, End))
    && (s.open.outcome == Some(TimedOut) ==> s.channel.timedOut)
  }

  predicate Inv(s: State) {
    ClosedInOrder(s) && TodoInOrder(s) && OutcomeSound(s)
  }

  // ---------------------------------------------------------- the fiber's steps

  function FiberMoves(s: State, step: FiberStep): (t: State)
    ensures t.open == s.open && t.asks == s.asks && t.place == s.place && t.worker == s.worker
    ensures s.channel.resetWanted ==> t.channel.resetWanted
  {
    match step
    case Write(bytes) =>
      var (q, taken) := s.channel.request.PushWithinBudget(bytes);
      s.(channel := s.channel.(request := q),
         written := if taken != None && taken.value <= |bytes| then s.written + bytes[..taken.value] else s.written)
    case FinishWriting =>
      s.(channel := s.channel.(request := s.channel.request.Push(End).0))
    case TakeResponse =>
      s.(channel := s.channel.(response := s.channel.response.TakeNext().0))
    case BeginClose(timeOut) =>
      if s.fiber != Running then s
      else s.(fiber := if timeOut then MarkingTimeOut else CancellingResponse)
    case CloseOn =>
      match s.fiber
      case Running => s
      case MarkingTimeOut => s.(channel := s.channel.(timedOut := true), fiber := CancellingResponse)
      case CancellingResponse =>
        s.(channel := s.channel.(response := s.channel.response.Cancel()), fiber := CancellingRequest)
      case CancellingRequest =>
        s.(channel := s.channel.(request := s.channel.request.Cancel()), fiber := Flagging)
      case Flagging => s.(channel := s.channel.(resetWanted := true), fiber := Running)
  }

  // --------------------------------------------------------- the worker's steps

  /** Nothing was asked of Envoy and nothing of the body taken; the stream may have left the table. */
  predicate BodyUntouched(s: State, t: State) {
    && t.asks == s.asks && t.written == s.written && t.channel.request == s.channel.request
    && t.open.requestEnded == s.open.requestEnded && t.open.resetSent == s.open.resetSent
    && (t.place == s.place || t.place == Gone)
    && (t.worker == s.worker || t.worker == Idle)
    && (s.channel.resetWanted ==> t.channel.resetWanted)
  }

  /** `end`: the response has ended well. */
  function EndResponse(s: State): State {
    s.(open := s.open.(responseEnded := true).Settle(Completed), todo := s.todo.(terminal := Some(End)))
  }

  function OutcomeOf(error: BridgeError): Outcome {
    match error
    case UpstreamOverflow => Overflow
    case UpstreamTooLarge => TooLarge
    case _ => WasReset
  }

  /** `fail`: the response has failed, and the stream is to be reset. */
  function FailResponse(s: State, error: BridgeError): State {
    s.(open := s.open.(responseEnded := true).Settle(OutcomeOf(error)),
       todo := s.todo.(terminal := Some(Failed(error)), cancelRequest := true, wantReset := true))
  }

  predicate MayCallBack(s: State) {
    s.place == InTable && s.worker == Idle && s.todo == NOTHING
  }

  function OnHeaders(s: State, head: Option<ResponseHead>, end: bool): (t: State)
    ensures BodyUntouched(s, t)
    ensures s.open.outcome != None ==> t.open.outcome == s.open.outcome
  {
    if !MayCallBack(s) || s.open.responseEnded then s
    else if head == None then FailResponse(s, Upstream)
    else
      var t := s.(open := s.open.(upgraded := head.value.status == 101), todo := s.todo.(head := head));
      if end then EndResponse(t) else t
  }

  function OnData(s: State, bytes: Bytes, end: bool): (t: State)
    ensures BodyUntouched(s, t)
    ensures s.open.outcome != None ==> t.open.outcome == s.open.outcome
  {
    if !MayCallBack(s) || s.open.responseEnded then s
    else if bytes == [] then (if end then EndResponse(s) else s)
    else
      var (q, fits) := s.channel.response.PushIfRoom(bytes);
      var t := s.(channel := s.channel.(response := q));
      if fits == None then t.(todo := t.todo.(recordStop := true))
      else if !fits.value then FailResponse(t, UpstreamOverflow)
      else if end then EndResponse(t)
      else t
  }

  function OnTrailers(s: State, trailers: Fields): (t: State)
    ensures BodyUntouched(s, t)
    ensures s.open.outcome != None ==> t.open.outcome == s.open.outcome
  {
    if !MayCallBack(s) || s.open.responseEnded then s
    else EndResponse(s.(todo := s.todo.(trailers := Some(trailers))))
  }

  /** The stream leaves the table, with the cancel of its request side still to do. */
  function Leave(s: State): State {
    s.(place := Gone, todo := s.todo.(cancelRequest := true))
  }

  function OnCompleted(s: State): (t: State)
    ensures BodyUntouched(s, t)
    ensures s.open.outcome != None ==> t.open.outcome == s.open.outcome
  {
    if !MayCallBack(s) then s
    else Leave(if s.open.responseEnded then s else EndResponse(s))
  }

  function OnReset(s: State, overflow: bool): (t: State)
    ensures BodyUntouched(s, t)
    ensures s.open.outcome != None ==> t.open.outcome == s.open.outcome
  {
    if !MayCallBack(s) then s
    else if s.open.upgraded && !s.open.resetSent then OnCompleted(s)
    else
      var stopped := if s.open.resetSent then s.open.Settle(s.open.Stopped(s.channel.timedOut)) else s.open;
      var t := s.(open := if overflow then stopped.Settle(Refused) else stopped);
      Leave(if s.open.responseEnded then t else FailResponse(t, Upstream))
  }

  /** A stream that never reached Envoy fails on the channel alone. */
  function NeverSent(s: State): State {
    s.(worker := Idle, place := Gone,
       todo := NOTHING.(terminal := Some(Failed(Upstream)), cancelRequest := true, wantReset := true))
  }

  function OnAbandon(s: State): (t: State)
    ensures BodyUntouched(s, t)
    ensures s.open.outcome != None ==> t.open.outcome == s.open.outcome
  {
    if s.place == Unsent && s.worker == Idle then NeverSent(s)
    else if !MayCallBack(s) then s
    else
      var t := s.(open := s.open.Settle(if s.open.upgraded then Completed else Abandoned));
      Leave(if s.open.responseEnded then t else FailResponse(t, Upstream))
  }

  /** A push found the response cancelled: the outcome says why. */
  function RecordStop(s: State): (t: State)
    requires s.todo.recordStop
    ensures BodyUntouched(s, t)
    ensures s.open.outcome != None ==> t.open.outcome == s.open.outcome
  {
    s.(open := s.open.(responseEnded := true).Settle(s.open.Stopped(s.channel.timedOut)), todo := NOTHING)
  }

  /** The item that ends the response goes into its queue. */
  function PushTerminal(s: State): (t: State)
    requires !s.todo.recordStop && s.todo.terminal != None
    ensures BodyUntouched(s, t) && t.open == s.open
  {
    var (q, accepted) := s.channel.response.Push(s.todo.terminal.value);
    s.(channel := s.channel.(response := q), todo := s.todo.(terminal := None),
       terminal := if accepted then s.todo.terminal else s.terminal)
  }

  /** The next thing a callback has to do on the channel. */
  function Proceed(s: State): (t: State)
    ensures BodyUntouched(s, t) || t == s.(channel := s.channel.(request := s.channel.request.Cancel()), todo := t.todo)
    ensures s.open.outcome != None ==> t.open.outcome == s.open.outcome
  {
    if s.todo.recordStop then RecordStop(s)
    else if s.todo.head != None then
      s.(channel := s.channel.(response := s.channel.response.Push(Head(s.todo.head.value)).0),
         todo := s.todo.(head := None))
    else if s.todo.trailers != None then
      s.(channel := s.channel.(trailers := s.todo.trailers), todo := s.todo.(trailers := None))
    else if s.todo.terminal != None then PushTerminal(s)
    else if s.todo.cancelRequest then
      s.(channel := s.channel.(request := s.channel.request.Cancel()), todo := s.todo.(cancelRequest := false))
    else if s.todo.wantReset then
      s.(channel := s.channel.(resetWanted := true), todo := s.todo.(wantReset := false))
    else s
  }

  /** `start`, in two steps, either of which may find the exchange closed. */
  function OnStart(s: State, refused: bool): (t: State)
    ensures s.open.outcome != None ==> t.open.outcome == s.open.outcome
  {
    if s.worker != Starting || s.todo != NOTHING then s
    else
      var (q, first) := s.channel.request.TakeNext();
      var t := s.(channel := s.channel.(request := q), worker := Idle);
      if refused then NeverSent(t)
      else
        var ended := first == Some(End);
        t.(place := InTable, open := t.open.(requestEnded := ended),
           asks := [Begin(if first == None then [] else BytesOf(first.value), ended)])
  }

  /** What an item of the body becomes. */
  function AskedFor(item: Option<Item>): seq<Ask> {
    if item == None then []
    else if item.value.Chunk? then [Piece(item.value.bytes)]
    else if item.value.End? then [Finish]
    else []
  }

  /** `next_action`, second step: the next piece of the body. */
  function OnTakePiece(s: State): (t: State)
    ensures s.open.outcome != None ==> t.open.outcome == s.open.outcome
  {
    if s.worker != Sending then s
    else
      var (q, item) := s.channel.request.TakeNext();
      s.(channel := s.channel.(request := q), worker := Idle, asks := s.asks + AskedFor(item),
         open := if item == Some(End) then s.open.(requestEnded := true) else s.open)
  }

  function WorkerMoves(s: State, step: WorkerStep): (t: State)
    ensures s.open.outcome != None ==> t.open.outcome == s.open.outcome
  {
    match step
    case BeginStart =>
      if s.place != Unsent || s.worker != Idle then s
      else if s.channel.resetWanted then s.(place := Gone)
      else s.(worker := Starting)
    case Start(refused) => OnStart(s, refused)
    case NextAction =>
      if !MayCallBack(s) then s
      else if s.channel.resetWanted then
        if s.open.resetSent then s else s.(open := s.open.(resetSent := true), asks := s.asks + [ResetStream])
      else if s.open.requestEnded then s
      else s.(worker := Sending)
    case TakePiece => OnTakePiece(s)
    case HeadersArrived(head, end) => OnHeaders(s, head, end)
    case DataArrived(bytes, end) => OnData(s, bytes, end)
    case TrailersArrived(trailers) => OnTrailers(s, trailers)
    case StreamCompleted => OnCompleted(s)
    case StreamReset(overflow) => OnReset(s, overflow)
    case Abandon => OnAbandon(s)
    case CarryOn => Proceed(s)
  }

  function Apply(s: State, step: Step): (t: State)
    ensures s.open.outcome != None ==> t.open.outcome == s.open.outcome
  {
    match step
    case Fiber(f) => FiberMoves(s, f)
    case Worker(w) => WorkerMoves(s, w)
  }

  function Init(budget: nat): State {
    State(Channel(NewQueue(budget), NewQueue(budget), false, false, None),
          OpenStream(None, false, false, false, false), Unsent, Idle, NOTHING, Running, [], [], None)
  }

  function Run(budget: nat, steps: seq<Step>): State {
    if steps == [] then Init(budget) else Apply(Run(budget, Front(steps)), Last(steps))
  }

  // ------------------------------------------------------- every step keeps it

  lemma FiberKeeps(s: State, step: FiberStep)
    requires Inv(s)
    ensures Inv(FiberMoves(s, step))
  {
    match step
    case Write(bytes) => BodyKeeps(s, FiberMoves(s, step));
    case FinishWriting => BodyKeeps(s, FiberMoves(s, step));
    case TakeResponse => PieceKeeps(s, s.channel.response.TakeNext().0);
    case BeginClose(_) =>
    case CloseOn => CloseKeeps(s);
  }

  lemma BodyKeeps(s: State, t: State)
    requires Inv(s) && t == s.(channel := s.channel.(request := t.channel.request), written := t.written)
    requires t.channel.request.cancelled == s.channel.request.cancelled
    ensures Inv(t)
  {
  }

  lemma CloseKeeps(s: State)
    requires Inv(s)
    ensures Inv(FiberMoves(s, CloseOn))
  {
  }

  /** A response that is still open may end, well or badly. */
  lemma EndingKeeps(s: State, error: BridgeError)
    requires Inv(s) && s.place == InTable && s.worker == Idle && !s.open.responseEnded && !s.todo.recordStop
    requires error in {Upstream, UpstreamOverflow}
    ensures Inv(EndResponse(s)) && Inv(FailResponse(s, error))
  {
  }

  lemma HeadersKeep(s: State, head: Option<ResponseHead>, end: bool)
    requires Inv(s)
    ensures Inv(OnHeaders(s, head, end))
  {
  }

  lemma DataKeeps(s: State, bytes: Bytes, end: bool)
    requires Inv(s)
    ensures Inv(OnData(s, bytes, end))
  {
    if MayCallBack(s) && !s.open.responseEnded {
      var (q, fits) := s.channel.response.PushIfRoom(bytes);
      EndingKeeps(s, UpstreamOverflow);
      if fits != None {
        PieceKeeps(s, q);
        EndingKeeps(s.(channel := s.channel.(response := q)), UpstreamOverflow);
      }
    }
  }

  lemma PieceKeeps(s: State, q: Queue)
    requires Inv(s) && q.cancelled == s.channel.response.cancelled && q.ended == s.channel.response.ended
    ensures Inv(s.(channel := s.channel.(response := q)))
  {
  }

  lemma TrailersKeep(s: State, trailers: Fields)
    requires Inv(s)
    ensures Inv(OnTrailers(s, trailers))
  {
  }

  lemma CompletedKeeps(s: State)
    requires Inv(s)
    ensures Inv(OnCompleted(s))
  {
  }

  lemma ResetKeeps(s: State, overflow: bool)
    requires Inv(s)
    ensures Inv(OnReset(s, overflow))
  {
    CompletedKeeps(s);
  }

  lemma AbandonKeeps(s: State)
    requires Inv(s)
    ensures Inv(OnAbandon(s))
  {
  }

  lemma RecordStopKeeps(s: State)
    requires Inv(s) && s.todo.recordStop
    ensures Inv(RecordStop(s))
  {
  }

  lemma PushTerminalKeeps(s: State)
    requires Inv(s) && !s.todo.recordStop && s.todo.terminal != None
    ensures Inv(PushTerminal(s))
  {
  }

  lemma ProceedKeeps(s: State)
    requires Inv(s)
    ensures Inv(Proceed(s))
  {
    if s.todo.recordStop {
      RecordStopKeeps(s);
    } else if s.todo.head != None {
      var q := s.channel.response.Push(Head(s.todo.head.value)).0;
      PieceKeeps(s, q);
      HeadDone(s.(channel := s.channel.(response := q)));
    } else if s.todo.trailers != None {
      TrailersDone(s);
    } else if s.todo.terminal != None {
      PushTerminalKeeps(s);
    } else {
      ClosingKeeps(s);
    }
  }

  lemma HeadDone(s: State)
    requires Inv(s) && !s.todo.recordStop
    ensures Inv(s.(todo := s.todo.(head := None)))
  {
  }

  lemma TrailersDone(s: State)
    requires Inv(s) && !s.todo.recordStop
    ensures Inv(s.(channel := s.channel.(trailers := s.todo.trailers), todo := s.todo.(trailers := None)))
  {
  }

  lemma ClosingKeeps(s: State)
    requires Inv(s) && s.todo == NOTHING.(cancelRequest := s.todo.cancelRequest, wantReset := s.todo.wantReset)
    ensures Inv(Proceed(s))
  {
  }

  lemma SendingKeeps(s: State, refused: bool)
    requires Inv(s)
    ensures Inv(OnStart(s, refused)) && Inv(OnTakePiece(s))
  {
  }

  lemma WorkerKeeps(s: State, step: WorkerStep)
    requires Inv(s)
    ensures Inv(WorkerMoves(s, step))
  {
    match step
    case BeginStart =>
    case Start(refused) => SendingKeeps(s, refused);
    case NextAction =>
    case TakePiece => SendingKeeps(s, false);
    case HeadersArrived(head, end) => HeadersKeep(s, head, end);
    case DataArrived(bytes, end) => DataKeeps(s, bytes, end);
    case TrailersArrived(trailers) => TrailersKeep(s, trailers);
    case StreamCompleted => CompletedKeeps(s);
    case StreamReset(overflow) => ResetKeeps(s, overflow);
    case Abandon => AbandonKeeps(s);
    case CarryOn => ProceedKeeps(s);
  }

  lemma StepKeepsInv(s: State, step: Step)
    requires Inv(s)
    ensures Inv(Apply(s, step))
  {
    match step
    case Fiber(f) => FiberKeeps(s, f);
    case Worker(w) => WorkerKeeps(s, w);
  }

  lemma {:induction false} Invariant(budget: nat, steps: seq<Step>)
    ensures Inv(Run(budget, steps))
  {
    if steps != [] {
      Invariant(budget, Front(steps));
      StepKeepsInv(Run(budget, Front(steps)), Last(steps));
    }
  }

  // ---------------------------------------------------------- outcome soundness

  /**
   Outcome soundness, for any callbacks in any order and any close, time-out or
   overflow in between: a stream in the table has an outcome exactly when its
   response has ended; an overflow is what the fiber reads, unless it cancelled;
   a completed one ended, was upgraded, or was cancelled; a timed out one was
   timed out by the fiber.
   */
  lemma OutcomesAreSound(budget: nat, steps: seq<Step>)
    ensures var s := Run(budget, steps);
            && (s.place == InTable ==> (s.open.outcome != None <==> s.open.responseEnded))
            && (s.todo == NOTHING && s.open.outcome == Some(Overflow) ==>
                  s.terminal == Some(Failed(UpstreamOverflow)) || s.channel.response.cancelled)
            && (s.todo == NOTHING && s.open.outcome == Some(Completed) ==>
                  s.terminal == Some(End) || s.open.upgraded || s.channel.response.cancelled)
            && (s.open.outcome == Some(TimedOut) ==> s.channel.timedOut)
  {
    Invariant(budget, steps);
  }

  /** An outcome never changes once it is set. */
  lemma {:induction false} OutcomeIsFinal(budget: nat, before: seq<Step>, after: seq<Step>)
    ensures var s := Run(budget, before);
            s.open.outcome != None ==> Run(budget, before + after).open.outcome == s.open.outcome
  {
    if after == [] {
      assert before + after == before;
    } else {
      OutcomeIsFinal(budget, before, Front(after));
      FrontOfConcat(before, after);
    }
  }

  /** A stream that has left the table, all done, has both its directions over. */
  lemma GoneIsOver(budget: nat, steps: seq<Step>)
    ensures var s := Run(budget, steps);
            s.place == Gone && s.todo == NOTHING ==> s.channel.request.cancelled && ResponseOver(s.channel)
  {
    Invariant(budget, steps);
  }

  /** A reset is only ever wanted of an exchange both of whose directions are over. */
  lemma ResetMeansOver(budget: nat, steps: seq<Step>)
    ensures var s := Run(budget, steps);
            s.channel.resetWanted ==> s.channel.request.cancelled && ResponseOver(s.channel)
  {
    Invariant(budget, steps);
  }

  // --------------------------------------------------------------- send language

  predicate Ends(a: Ask) {
    a == Finish || (a.Begin? && a.ended)
  }

  /** A start, then pieces, then at most one end, then at most one reset, then nothing. */
  predicate Language(asks: seq<Ask>) {
    && (asks != [] ==> asks[0].Begin?)
    && (forall i :: 1 <= i < |asks| ==> !asks[i].Begin?)
    && (forall i :: 0 <= i < |asks| - 1 ==> asks[i] != ResetStream)
    && (forall i, j :: 0 <= i < j < |asks| && Ends(asks[i]) ==> asks[j] == ResetStream)
  }

  function BytesIn(a: Ask): Bytes {
    match a
    case Begin(body, _) => body
    case Piece(bytes) => bytes
    case _ => []
  }

  function SentBytes(asks: seq<Ask>): Bytes {
    if asks == [] then [] else SentBytes(Front(asks)) + BytesIn(Last(asks))
  }

  lemma SentSnoc(asks: seq<Ask>, a: Ask)
    ensures SentBytes(asks + [a]) == SentBytes(asks) + BytesIn(a)
  {
    assert Front(asks + [a]) == asks;
  }

  predicate Spoken(s: State) {
    && Language(s.asks)
    && (s.place == Unsent ==> s.asks == [])
    && (s.place == InTable ==> s.asks != [])
    && (!s.open.requestEnded ==> forall i :: 0 <= i < |s.asks| ==> !Ends(s.asks[i]))
    && (!s.open.resetSent ==> forall i :: 0 <= i < |s.asks| ==> s.asks[i] != ResetStream)
    && (s.open.resetSent ==> s.channel.resetWanted)
    && (s.worker == Sending ==> !s.open.requestEnded && !s.open.resetSent)
    && (s.place == Unsent ==> !s.open.requestEnded && !s.open.resetSent)
  }

  lemma LanguageSnoc(asks: seq<Ask>, a: Ask)
    requires Language(asks)
    requires if asks == [] then a.Begin? else !a.Begin? && Last(asks) != ResetStream
    requires a != ResetStream ==> forall i :: 0 <= i < |asks| ==> !Ends(asks[i])
    ensures Language(asks + [a])
  {
  }

  /**
   What went out, followed by what is queued, is what the fiber wrote, unless some
   of it was `lost`; and it is all of it once the `whole` body has gone out.
   */
  predicate Carries(q: Queue, sent: Bytes, written: Bytes, lost: bool, whole: bool) {
    && Accounted(q)
    && sent <= written
    && (!lost && !q.cancelled ==> sent + ChunkBytes(q.items) == written)
    && (whole ==> q.ended && sent == written)
  }

  predicate Carried(s: State) {
    Carries(s.channel.request, SentBytes(s.asks), s.written, s.place == Gone, s.open.requestEnded)
  }

  lemma WriteCarries(q: Queue, sent: Bytes, written: Bytes, lost: bool, whole: bool, bytes: Bytes)
    requires Carries(q, sent, written, lost, whole)
    ensures var (q', taken) := q.PushWithinBudget(bytes);
            Carries(q', sent, if taken != None && taken.value <= |bytes| then written + bytes[..taken.value] else written,
                    lost, whole)
  {
    ApplyKeepsAccounts(q, OpPushWithinBudget(bytes));
    var (q', taken) := q.PushWithinBudget(bytes);
    if taken != None && taken.value > 0 {
      ChunkBytesSnoc(q.items, Chunk(bytes[..taken.value]));
      assert sent + ChunkBytes(q'.items) == sent + ChunkBytes(q.items) + bytes[..taken.value];
    }
  }

  lemma EndCarries(q: Queue, sent: Bytes, written: Bytes, lost: bool, whole: bool)
    requires Carries(q, sent, written, lost, whole)
    ensures Carries(q.Push(End).0, sent, written, lost, whole)
    ensures Carries(q.Cancel(), sent, written, lost, whole)
  {
    ApplyKeepsAccounts(q, OpPush(End));
    ChunkBytesSnoc(q.items, End);
  }

  /** Taking an item and sending it keeps the balance; taking the end means all has been sent. */
  lemma TakeCarries(q: Queue, sent: Bytes, written: Bytes, item: Item)
    requires Carries(q, sent, written, false, false) && q.TakeNext().1 == Some(item)
    ensures Carries(q.TakeNext().0, sent + BytesOf(item), written, false, item == End)
  {
    TakeKeepsAccounts(q);
    assert ChunkBytes(q.items) == BytesOf(item) + ChunkBytes(q.items[1..]);
    assert sent + ChunkBytes(q.items) == sent + BytesOf(item) + ChunkBytes(q.items[1..]);
    if item == End {
      assert q.items[1..] == [];
    }
  }

  /** But for a write, the fiber leaves the body's queue alone, ends it or cancels it. */
  lemma FiberLeavesBody(s: State, step: FiberStep)
    requires !step.Write?
    ensures var t := FiberMoves(s, step);
            && t.written == s.written && t.asks == s.asks && t.place == s.place && t.open == s.open
            && t.channel.request in {s.channel.request, s.channel.request.Push(End).0, s.channel.request.Cancel()}
  {
  }

  lemma FiberKeepsCarried(s: State, step: FiberStep)
    requires Carried(s)
    ensures Carried(FiberMoves(s, step))
  {
    var sent, lost, whole := SentBytes(s.asks), s.place == Gone, s.open.requestEnded;
    if step.Write? {
      WriteCarries(s.channel.request, sent, s.written, lost, whole, step.bytes);
    } else {
      FiberLeavesBody(s, step);
      EndCarries(s.channel.request, sent, s.written, lost, whole);
    }
  }

  lemma FiberKeepsSpoken(s: State, step: FiberStep)
    requires Spoken(s)
    ensures Spoken(FiberMoves(s, step))
  {
  }

  lemma StartKeepsSpoken(s: State, refused: bool)
    requires Inv(s) && Spoken(s)
    ensures Spoken(OnStart(s, refused))
  {
  }

  /** What is sent with the headers is the first item taken. */
  lemma BeginCarries(q: Queue, written: Bytes)
    requires Carries(q, [], written, false, false)
    ensures var (rest, first) := q.TakeNext();
            var bytes := if first == None then [] else BytesOf(first.value);
            && Carries(rest, bytes, written, false, first == Some(End))
            && SentBytes([Begin(bytes, first == Some(End))]) == bytes
  {
    var first := q.TakeNext().1;
    var asked := Begin(if first == None then [] else BytesOf(first.value), first == Some(End));
    SentSnoc([], asked);
    assert [] + [asked] == [asked];
    if first != None {
      TakeCarries(q, [], written, q.items[0]);
    }
  }

  lemma StartKeepsCarried(s: State, refused: bool)
    requires Inv(s) && Spoken(s) && Carried(s)
    ensures Carried(OnStart(s, refused))
  {
    var q := s.channel.request;
    TakeKeepsAccounts(q);
    if s.worker == Starting && s.todo == NOTHING && !refused {
      BeginCarries(q, s.written);
    }
  }

  lemma TakePieceKeepsSpoken(s: State)
    requires Inv(s) && Spoken(s)
    ensures Spoken(OnTakePiece(s))
  {
    var asked := AskedFor(s.channel.request.TakeNext().1);
    if s.worker == Sending && asked != [] {
      LanguageSnoc(s.asks, asked[0]);
      assert asked == [asked[0]];
    }
  }

  lemma AskedBytes(asks: seq<Ask>, item: Item)
    ensures SentBytes(asks + AskedFor(Some(item))) == SentBytes(asks) + BytesOf(item)
  {
    var asked := AskedFor(Some(item));
    if asked == [] {
      assert asks + asked == asks;
    } else {
      SentSnoc(asks, asked[0]);
      assert asked == [asked[0]];
    }
  }

  lemma TakePieceKeepsCarried(s: State)
    requires Inv(s) && Spoken(s) && Carried(s)
    ensures Carried(OnTakePiece(s))
  {
    var q := s.channel.request;
    if s.worker == Sending {
      if q.TakeNext().1 == None {
        assert s.asks + [] == s.asks;
      } else {
        TakeCarries(q, SentBytes(s.asks), s.written, q.items[0]);
        AskedBytes(s.asks, q.items[0]);
      }
    }
  }

  lemma ResetKeepsSend(s: State)
    requires Inv(s) && Spoken(s) && Carried(s)
    ensures Spoken(WorkerMoves(s, NextAction)) && Carried(WorkerMoves(s, NextAction))
  {
    var t := WorkerMoves(s, NextAction);
    if t.asks != s.asks {
      LanguageSnoc(s.asks, ResetStream);
      SentSnoc(s.asks, ResetStream);
    }
  }

  /** A callback touches neither the body nor what was asked. */
  lemma UntouchedKeepsSend(s: State, t: State)
    requires Spoken(s) && Carried(s) && BodyUntouched(s, t)
    ensures Spoken(t) && Carried(t)
  {
  }

  lemma CarryOnKeepsSend(s: State)
    requires Spoken(s) && Carried(s)
    ensures Spoken(Proceed(s)) && Carried(Proceed(s))
  {
    if BodyUntouched(s, Proceed(s)) {
      UntouchedKeepsSend(s, Proceed(s));
    } else {
      EndCarries(s.channel.request, SentBytes(s.asks), s.written, s.place == Gone, s.open.requestEnded);
    }
  }

  lemma CallbackKeepsSend(s: State, step: WorkerStep)
    requires Spoken(s) && Carried(s)
    requires !step.Start? && !step.TakePiece? && !step.NextAction? && !step.CarryOn?
    ensures Spoken(WorkerMoves(s, step)) && Carried(WorkerMoves(s, step))
  {
    var t := WorkerMoves(s, step);
    if !step.BeginStart? {
      assert BodyUntouched(s, t);
      UntouchedKeepsSend(s, t);
    }
  }

  lemma StepKeepsSend(s: State, step: Step)
    requires Inv(s) && Spoken(s) && Carried(s)
    ensures Spoken(Apply(s, step)) && Carried(Apply(s, step))
  {
    if step.Fiber? {
      FiberKeepsSpoken(s, step.f);
      FiberKeepsCarried(s, step.f);
    } else if step.w.Start? {
      StartKeepsSpoken(s, step.w.refused);
      StartKeepsCarried(s, step.w.refused);
    } else if step.w.TakePiece? {
      TakePieceKeepsSpoken(s);
      TakePieceKeepsCarried(s);
    } else if step.w.NextAction? {
      ResetKeepsSend(s);
    } else if step.w.CarryOn? {
      CarryOnKeepsSend(s);
    } else {
      CallbackKeepsSend(s, step.w);
    }
  }

  lemma {:induction false} SendInvariant(budget: nat, steps: seq<Step>)
    ensures Spoken(Run(budget, steps)) && Carried(Run(budget, steps))
  {
    if steps != [] {
      SendInvariant(budget, Front(steps));
      Invariant(budget, Front(steps));
      StepKeepsSend(Run(budget, Front(steps)), Last(steps));
    }
  }

  /**
   Upstream send language: what the worker asks of Envoy for one stream is a
   start, then pieces, then at most one end, then at most one reset, then
   nothing; the pieces, with the one sent with the headers, are a prefix of what
   the fiber wrote, and all of it once the end is out.
   */
  lemma SendLanguage(budget: nat, steps: seq<Step>)
    ensures var s := Run(budget, steps);
            && Language(s.asks)
            && SentBytes(s.asks) <= s.written
            && ((exists i :: 0 <= i < |s.asks| && Ends(s.asks[i])) ==>
                  SentBytes(s.asks) == s.written && s.channel.request.ended)
  {
    SendInvariant(budget, steps);
  }
}
