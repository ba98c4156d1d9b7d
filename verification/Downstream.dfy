/**
 The worker's side of one request: what the filter says to the client and what
 it counts (crates/ruvoy-envoy-fiber/src/worker.rs).

 `Filter` is the filter's state together with everything it has asked of Envoy;
 the callbacks are functions of it. `FiberRackFilter` is the object, whose
 `drain_stream` loops over a real queue.
 */
module Downstream {
  import opened Basics
  import opened Streams
  import Forwarding

  datatype FilterState = Collecting | Waiting | Streaming | Responded

  /** What goes out to the client. */
  datatype Emission =
    | LocalReply(status: nat)
    | Headers(head: ResponseHead)
    | Data(bytes: Bytes)
    | EndOfStream
    | Reset

  datatype Outcome = Completed | Failure | Disconnected

  datatype Filter = Filter(
    state: FilterState,
    /** The response queue is still held. */
    attached: bool,
    /** Envoy's statistics are available. */
    metered: bool,
    /** The request reached the application and its end is not yet recorded. */
    submitted: bool,
    /** The request queue is still held, and its end has arrived and is not yet passed on. */
    holdsBody: bool,
    endPending: bool,
    emitted: seq<Emission>,
    requests: nat,
    rejected: nat,
    responses: seq<Outcome>)
  {
    function Emit(e: Emission): Filter {
      this.(emitted := emitted + [e])
    }

    /** `report_outcome`: adds to the outcomes only while the request is unreported. */
    function Report(outcome: Outcome): Filter {
      if submitted && metered then this.(submitted := false, responses := responses + [outcome])
      else this.(submitted := false)
    }

    function Reject(): Filter {
      if metered then this.(rejected := rejected + 1) else this
    }

    /** `send_bridge_error`: what the request owns is released, uncancelled, before the reply goes out. */
    function LocallyReplied(status: nat): Filter {
      this.(state := Responded, holdsBody := false, endPending := false).Emit(LocalReply(status))
    }

    /** `forward_request_body`, which may have `passed` the end on. */
    function Forward(passed: bool): Filter {
      this.(endPending := endPending && !(holdsBody && passed))
    }
  }

  function NewFilter(metered: bool): Filter {
    Filter(Collecting, false, metered, false, false, false, [], 0, 0, [])
  }

  // ---------------------------------------------------------------- invariant

  predicate HeadThenData(emitted: seq<Emission>) {
    && emitted != [] && emitted[0].Headers?
    && forall i :: 1 <= i < |emitted| ==> emitted[i].Data?
  }

  /** Nothing, or one local reply, or headers, then data, then at most one end or reset. */
  predicate Wire(emitted: seq<Emission>) {
    || emitted == []
    || (|emitted| == 1 && emitted[0].LocalReply?)
    || HeadThenData(emitted)
    || (Last(emitted) in {EndOfStream, Reset} && HeadThenData(Front(emitted)))
  }

  /** The filter answered the request itself. */
  predicate RepliedLocally(emitted: seq<Emission>) {
    emitted != [] && emitted[0].LocalReply?
  }

  predicate Speaks(f: Filter) {
    match f.state
    case Collecting => f.emitted == [] && !f.attached && !f.holdsBody
    case Waiting => f.emitted == [] && f.attached && f.holdsBody
    case Streaming => HeadThenData(f.emitted) && f.attached && f.holdsBody
    case Responded => Wire(f.emitted) && !f.attached && (f.holdsBody <==> !RepliedLocally(f.emitted))
  }

  /** Every request counted is either counted as answered or still to be. */
  predicate Counted(f: Filter) {
    && (f.state == Collecting ==> !f.submitted && f.requests == 0)
    && (f.metered ==> f.requests == |f.responses| + if f.submitted then 1 else 0)
    && (!f.metered ==> f.requests == 0 && f.responses == [] && f.rejected == 0)
    && f.requests <= 1
    && f.requests + f.rejected <= 1
    && (f.state == Collecting ==> f.rejected == 0)
  }

  predicate Inv(f: Filter) {
    Speaks(f) && Counted(f)
  }

  // ---------------------------------------------------------------- callbacks

  /** A request turned away: counted as rejected and answered on the spot. */
  function Refuse(f: Filter, status: nat): (g: Filter)
    requires f.state == Collecting
    ensures f.emitted <= g.emitted && f.responses <= g.responses
  {
    f.Reject().LocallyReplied(status)
  }

  /** A request taken on: both its queues are held, and it is counted. */
  function Admit(f: Filter): (g: Filter)
    requires f.state == Collecting
    ensures f.emitted <= g.emitted && f.responses <= g.responses
  {
    f.(state := Waiting, attached := true, submitted := true, holdsBody := true,
       requests := if f.metered then f.requests + 1 else f.requests)
  }

  /**
   `on_request_headers`, for a request that can or cannot be read and is or is
   not admitted; `end` when it has no body, and forwarding may pass that on.
   */
  function RequestHeaders(f: Filter, valid: bool, admitted: bool, end: bool, passed: bool): (g: Filter)
    ensures f.emitted <= g.emitted && f.responses <= g.responses
  {
    if f.state != Collecting then f
    else if !valid then Refuse(f, 400)
    else if !admitted then Refuse(f, 503).(endPending := end).Forward(end && passed)
    else Admit(f).(endPending := end).Forward(end && passed)
  }

  /** `on_request_body` and `on_request_trailers`, and the scheduled event, which ends nothing. */
  function RequestBody(f: Filter, end: bool, passed: bool): (g: Filter)
    ensures f.emitted <= g.emitted && f.responses <= g.responses
  {
    if f.state == Collecting then f else f.(endPending := f.endPending || end).Forward(passed)
  }

  /** What an item makes the filter say. */
  function Said(state: FilterState, item: Item): seq<Emission> {
    match item
    case Head(head) => if state == Waiting then [Headers(head)] else []
    case Chunk(bytes) => if state == Streaming then [Data(bytes)] else []
    case End => if state == Streaming then [EndOfStream] else []
    case Failed(_) => if state == Waiting then [LocalReply(500)] else [Reset]
  }

  /** The end of a response, which cannot come before its head. */
  function Complete(f: Filter): (g: Filter)
    ensures f.emitted <= g.emitted && f.responses <= g.responses
    ensures g.emitted == f.emitted + Said(f.state, End) && g.state == Responded && !g.attached
  {
    var g := f.(state := Responded, attached := false).Report(Completed);
    if f.state == Streaming then g.Emit(EndOfStream) else g
  }

  /** A failure, which the client can be told of only before the head. */
  function Fail(f: Filter, error: BridgeError): (g: Filter)
    ensures f.emitted <= g.emitted && f.responses <= g.responses
    ensures g.emitted == f.emitted + Said(f.state, Failed(error)) && g.state == Responded && !g.attached
  {
    var g := f.(attached := false).Report(Failure);
    if f.state == Waiting then g.LocallyReplied(500)
    else g.(state := Responded).Emit(Reset)
  }

  /** One turn of the loop in `drain_stream`. */
  function DeliverItem(f: Filter, item: Item): (g: Filter)
    ensures f.emitted <= g.emitted && f.responses <= g.responses
    ensures g.emitted == f.emitted + Said(f.state, item)
    ensures item.Terminal() ==> g.state == Responded && !g.attached
    ensures !item.Terminal() ==>
              g.attached == f.attached && g.state == if item.Head? && f.state == Waiting then Streaming else f.state
  {
    match item
    case Head(head) =>
      if f.state == Waiting then f.(state := Streaming).Emit(Headers(head)) else f
    case Chunk(bytes) =>
      if f.state == Streaming then f.Emit(Data(bytes)) else f
    case End => Complete(f)
    case Failed(error) => Fail(f, error)
  }

  /** A pass over `items`, as far as the first that ends the response. */
  function DeliverAll(f: Filter, items: seq<Item>): (g: Filter)
    ensures f.emitted <= g.emitted && f.responses <= g.responses
    decreases |items|
  {
    if items == [] || !f.attached then f
    else DeliverAll(DeliverItem(f, items[0]), items[1..])
  }

  /** `drain_stream` on a queue nobody else touches: takes and delivers until nothing more is handed out. */
  function Pass(f: Filter, q: Queue): (r: (Filter, Queue))
    ensures r.0 == if q.paused then f else DeliverAll(f, q.items)
    ensures r.0.attached ==> r.1.TakeNext().1 == None
    decreases |q.items|
  {
    if !f.attached then (f, q)
    else
      var (rest, item) := q.TakeNext();
      if item == None then (f, rest) else Pass(DeliverItem(f, item.value), rest)
  }

  /** `on_scheduled` for the response, which takes `items` out of the queue. */
  function ResponseEvent(f: Filter, items: seq<Item>): (g: Filter)
    ensures f.emitted <= g.emitted && f.responses <= g.responses
  {
    if f.state in {Waiting, Streaming} then DeliverAll(f, items) else f
  }

  function StreamComplete(f: Filter): (g: Filter)
    ensures f.emitted <= g.emitted && f.responses <= g.responses
  {
    f.Report(Disconnected)
  }

  datatype Callback =
    | OnRequestHeaders(valid: bool, admitted: bool, end: bool, passed: bool)
    | OnRequestBody(end: bool, passed: bool)
    | OnResponseEvent(items: seq<Item>)
    | OnStreamComplete

  function Apply(f: Filter, callback: Callback): (g: Filter)
    ensures f.emitted <= g.emitted && f.responses <= g.responses
  {
    match callback
    case OnRequestHeaders(valid, admitted, end, passed) => RequestHeaders(f, valid, admitted, end, passed)
    case OnRequestBody(end, passed) => RequestBody(f, end, passed)
    case OnResponseEvent(items) => ResponseEvent(f, items)
    case OnStreamComplete => StreamComplete(f)
  }

  function Run(metered: bool, callbacks: seq<Callback>): Filter {
    if callbacks == [] then NewFilter(metered) else Apply(Run(metered, Front(callbacks)), Last(callbacks))
  }

  // ------------------------------------------------------- every callback keeps it

  lemma HeadersKeep(f: Filter, valid: bool, admitted: bool, end: bool, passed: bool)
    requires Inv(f)
    ensures Inv(RequestHeaders(f, valid, admitted, end, passed))
  {
  }

  lemma BodyKeeps(f: Filter, end: bool, passed: bool)
    requires Inv(f)
    ensures Inv(RequestBody(f, end, passed))
  {
  }

  lemma EndedWell(emitted: seq<Emission>, e: Emission)
    requires e in {EndOfStream, Reset}
    ensures HeadThenData(emitted) ==> Wire(emitted + [e]) && !RepliedLocally(emitted + [e])
  {
    assert Front(emitted + [e]) == emitted;
  }

  lemma CompleteKeeps(f: Filter)
    requires Inv(f) && f.attached
    ensures Inv(Complete(f))
  {
    EndedWell(f.emitted, EndOfStream);
  }

  lemma FailKeeps(f: Filter, error: BridgeError)
    requires Inv(f) && f.attached
    ensures Inv(Fail(f, error))
  {
    EndedWell(f.emitted, Reset);
  }

  lemma ItemKeeps(f: Filter, item: Item)
    requires Inv(f) && f.attached
    ensures Inv(DeliverItem(f, item))
  {
    match item
    case Head(_) =>
    case Chunk(_) =>
    case End => CompleteKeeps(f);
    case Failed(error) => FailKeeps(f, error);
  }

  lemma {:induction false} ItemsKeep(f: Filter, items: seq<Item>)
    requires Inv(f)
    ensures Inv(DeliverAll(f, items))
    decreases |items|
  {
    if items != [] && f.attached {
      ItemKeeps(f, items[0]);
      ItemsKeep(DeliverItem(f, items[0]), items[1..]);
    }
  }

  lemma CallbackKeeps(f: Filter, callback: Callback)
    requires Inv(f)
    ensures Inv(Apply(f, callback))
  {
    match callback
    case OnRequestHeaders(valid, admitted, end, passed) => HeadersKeep(f, valid, admitted, end, passed);
    case OnRequestBody(end, passed) => BodyKeeps(f, end, passed);
    case OnResponseEvent(items) => ItemsKeep(f, items);
    case OnStreamComplete =>
  }

  lemma {:induction false} Invariant(metered: bool, callbacks: seq<Callback>)
    ensures Inv(Run(metered, callbacks))
  {
    if callbacks != [] {
      Invariant(metered, Front(callbacks));
      CallbackKeeps(Run(metered, Front(callbacks)), Last(callbacks));
    }
  }

  // ----------------------------------------------------------------- theorems

  /**
   Over any callbacks in any order, and whatever items the queue yields, a filter
   emits nothing, or one local reply, or headers, then data, then at most one end
   or reset.
   */
  lemma EmissionLanguage(metered: bool, callbacks: seq<Callback>)
    ensures Wire(Run(metered, callbacks).emitted)
  {
    Invariant(metered, callbacks);
  }

  /** What was said and counted stays said and counted: no later callback overwrites an outcome. */
  lemma {:induction false} NothingTakenBack(metered: bool, before: seq<Callback>, after: seq<Callback>)
    ensures var f, g := Run(metered, before), Run(metered, before + after);
            f.emitted <= g.emitted && f.responses <= g.responses
  {
    if after == [] {
      assert before + after == before;
    } else {
      NothingTakenBack(metered, before, Front(after));
      FrontOfConcat(before, after);
    }
  }

  lemma NothingFollows(e: seq<Emission>, all: seq<Emission>)
    requires e != [] && e <= all && Wire(all)
    requires Last(e) in {EndOfStream, Reset} || Last(e).LocalReply?
    ensures all == e
  {
    assert all[|e| - 1] == Last(e);
  }

  /** A reply that has been finished is the last thing said. */
  lemma FinishedIsLast(metered: bool, before: seq<Callback>, after: seq<Callback>)
    ensures var e := Run(metered, before).emitted;
            e != [] && (Last(e) in {EndOfStream, Reset} || Last(e).LocalReply?) ==>
              Run(metered, before + after).emitted == e
  {
    NothingTakenBack(metered, before, after);
    EmissionLanguage(metered, before + after);
    var e := Run(metered, before).emitted;
    if e != [] && (Last(e) in {EndOfStream, Reset} || Last(e).LocalReply?) {
      NothingFollows(e, Run(metered, before + after).emitted);
    }
  }

  /**
   A filter that has taken a request on lets go of its body exactly when it
   replies locally: whatever else ends the response leaves it to the drop.
   */
  lemma LetsGoExactlyWhenItReplies(metered: bool, callbacks: seq<Callback>)
    ensures var f := Run(metered, callbacks);
            f.state != Collecting ==> (!f.holdsBody <==> RepliedLocally(f.emitted))
  {
    Invariant(metered, callbacks);
  }

  /**
   Request accounting: once the stream has completed, `requests_total` equals the
   sum of `responses_total`, however the request ended.
   */
  lemma RequestsAnsweredOnce(metered: bool, callbacks: seq<Callback>)
    ensures var f := Run(metered, callbacks + [OnStreamComplete]);
            f.requests == |f.responses| <= 1 && f.requests + f.rejected <= 1
  {
    var all := callbacks + [OnStreamComplete];
    assert Front(all) == callbacks;
    Invariant(metered, callbacks);
  }

  // ------------------------------------------------------- what is counted is what was said

  /** A finished reply ends in an end, a reset or a local reply; what came to nothing said nothing. */
  predicate Finished(f: Filter) {
    f.emitted == [] || RepliedLocally(f.emitted) || Last(f.emitted) in {EndOfStream, Reset}
  }

  /** The outcome of a request whose client has stayed, read off what was said to it. */
  function OutcomesSaid(f: Filter): seq<Outcome> {
    if f.requests == 0 || f.state != Responded then []
    else if Reset in f.emitted || RepliedLocally(f.emitted) then [Failure]
    else [Completed]
  }

  predicate TurnedAway(emitted: seq<Emission>) {
    |emitted| == 1 && emitted[0] in {LocalReply(400), LocalReply(503)}
  }

  predicate CountedAsSaid(f: Filter) {
    && (f.state == Responded ==> Finished(f))
    && (f.state in {Waiting, Streaming} ==> Reset !in f.emitted && !RepliedLocally(f.emitted))
    && (f.metered ==>
          && (f.requests == 0 <==> f.state == Collecting || TurnedAway(f.emitted))
          && f.responses == OutcomesSaid(f)
          && f.rejected == (if f.state != Collecting && f.requests == 0 then 1 else 0))
    && (RepliedLocally(f.emitted) ==> f.emitted in [[LocalReply(400)], [LocalReply(503)], [LocalReply(500)]])
  }

  lemma EndsIn(emitted: seq<Emission>, e: Emission)
    ensures Last(emitted + [e]) == e && e in emitted + [e]
    ensures forall x :: x in emitted + [e] <==> x in emitted || x == e
    ensures emitted != [] ==> RepliedLocally(emitted + [e]) == RepliedLocally(emitted)
  {
  }

  lemma EndCounts(f: Filter)
    requires Inv(f) && CountedAsSaid(f) && f.attached
    ensures CountedAsSaid(Complete(f))
  {
    EndsIn(f.emitted, EndOfStream);
  }

  lemma FailureCounts(f: Filter, error: BridgeError)
    requires Inv(f) && CountedAsSaid(f) && f.attached
    ensures CountedAsSaid(Fail(f, error))
  {
    if f.state == Waiting {
      LocalFailureCounts(f, error);
    } else {
      EndsIn(f.emitted, Reset);
    }
  }

  lemma LocalFailureCounts(f: Filter, error: BridgeError)
    requires Inv(f) && CountedAsSaid(f) && f.state == Waiting
    ensures CountedAsSaid(Fail(f, error))
  {
    assert [] + [LocalReply(500)] == [LocalReply(500)];
  }

  lemma RefusalCounts(f: Filter, status: nat)
    requires Inv(f) && CountedAsSaid(f) && f.state == Collecting && status in {400, 503}
    ensures CountedAsSaid(Refuse(f, status))
  {
    assert [] + [LocalReply(status)] == [LocalReply(status)];
  }

  /** A pending end is neither said nor counted. */
  lemma PendingEndCounts(f: Filter, pending: bool)
    requires CountedAsSaid(f)
    ensures CountedAsSaid(f.(endPending := pending))
  {
  }

  lemma HeadersCount(f: Filter, valid: bool, admitted: bool, end: bool, passed: bool)
    requires Inv(f) && CountedAsSaid(f)
    ensures CountedAsSaid(RequestHeaders(f, valid, admitted, end, passed))
  {
    if f.state == Collecting {
      RefusalCounts(f, 400);
      RefusalCounts(f, 503);
      PendingEndCounts(if admitted then Admit(f) else Refuse(f, 503), RequestHeaders(f, valid, admitted, end, passed).endPending);
    }
  }

  lemma DataCounts(f: Filter, item: Item)
    requires Inv(f) && CountedAsSaid(f) && f.attached && !item.Terminal()
    ensures CountedAsSaid(DeliverItem(f, item))
  {
    if Said(f.state, item) != [] {
      EndsIn(f.emitted, Said(f.state, item)[0]);
    }
  }

  lemma ItemCounts(f: Filter, item: Item)
    requires Inv(f) && CountedAsSaid(f) && f.attached
    ensures CountedAsSaid(DeliverItem(f, item))
  {
    match item
    case Head(_) => DataCounts(f, item);
    case Chunk(_) => DataCounts(f, item);
    case End => EndCounts(f);
    case Failed(error) => FailureCounts(f, error);
  }

  lemma {:induction false} ItemsCount(f: Filter, items: seq<Item>)
    requires Inv(f) && CountedAsSaid(f)
    ensures CountedAsSaid(DeliverAll(f, items))
    decreases |items|
  {
    if items != [] && f.attached {
      ItemKeeps(f, items[0]);
      ItemCounts(f, items[0]);
      ItemsCount(DeliverItem(f, items[0]), items[1..]);
    }
  }

  lemma CallbackCounts(f: Filter, callback: Callback)
    requires Inv(f) && CountedAsSaid(f) && callback != OnStreamComplete
    ensures CountedAsSaid(Apply(f, callback))
  {
    match callback
    case OnRequestHeaders(valid, admitted, end, passed) => HeadersCount(f, valid, admitted, end, passed);
    case OnRequestBody(end, passed) => PendingEndCounts(f, RequestBody(f, end, passed).endPending);
    case OnResponseEvent(items) => ItemsCount(f, items);
  }

  /**
   As long as the client has not gone, what is counted of a request is what was
   said to it: rejected if and only if it was answered with a 400 or a 503, failed
   if and only if it was reset or answered with a 500, completed if and only if
   its response ended otherwise.
   */
  lemma {:induction false} SaidIsCounted(metered: bool, callbacks: seq<Callback>)
    requires OnStreamComplete !in callbacks
    ensures CountedAsSaid(Run(metered, callbacks))
  {
    if callbacks != [] {
      assert OnStreamComplete !in Front(callbacks) && Last(callbacks) in callbacks;
      SaidIsCounted(metered, Front(callbacks));
      Invariant(metered, Front(callbacks));
      CallbackCounts(Run(metered, Front(callbacks)), Last(callbacks));
    }
  }

  /** A client that goes before its answer is finished is counted as disconnected, and only then. */
  lemma GoneIsCounted(metered: bool, callbacks: seq<Callback>)
    requires OnStreamComplete !in callbacks
    ensures var f, g := Run(metered, callbacks), Run(metered, callbacks + [OnStreamComplete]);
            && g.emitted == f.emitted && g.state == f.state
            && g.responses
               == f.responses + if metered && f.state in {Waiting, Streaming} then [Disconnected] else []
  {
    var all := callbacks + [OnStreamComplete];
    assert Front(all) == callbacks;
    Invariant(metered, callbacks);
    SaidIsCounted(metered, callbacks);
    SameMeter(metered, callbacks);
  }

  lemma {:induction false} SameMeter(metered: bool, callbacks: seq<Callback>)
    ensures Run(metered, callbacks).metered == metered
  {
    if callbacks != [] {
      SameMeter(metered, Front(callbacks));
      KeepsMeter(Run(metered, Front(callbacks)), Last(callbacks));
    }
  }

  lemma {:induction false} ItemsKeepMeter(f: Filter, items: seq<Item>)
    ensures DeliverAll(f, items).metered == f.metered
    decreases |items|
  {
    if items != [] && f.attached {
      ItemsKeepMeter(DeliverItem(f, items[0]), items[1..]);
    }
  }

  lemma KeepsMeter(f: Filter, callback: Callback)
    ensures Apply(f, callback).metered == f.metered
  {
    if callback.OnResponseEvent? {
      ItemsKeepMeter(f, callback.items);
    }
  }

  /** A failure before the head is a local reply, which lets go of everything the request owns. */
  lemma FailureBeforeHead(metered: bool, callbacks: seq<Callback>, error: BridgeError)
    ensures var f := Run(metered, callbacks);
            var g := Run(metered, callbacks + [OnResponseEvent([Failed(error)])]);
            f.state == Waiting ==>
              && g.emitted == [LocalReply(500)] && g.state == Responded
              && !g.holdsBody && !g.endPending && !g.attached && !g.submitted
  {
    Invariant(metered, callbacks);
    var f := Run(metered, callbacks);
    assert Front(callbacks + [OnResponseEvent([Failed(error)])]) == callbacks;
    if f.state == Waiting {
      assert [Failed(error)][1..] == [];
      assert DeliverAll(f, [Failed(error)]) == DeliverAll(DeliverItem(f, Failed(error)), []);
    }
  }

  /** How a request is received: unreadable, turned away, or taken on and held. */
  lemma FirstAnswer(metered: bool, valid: bool, admitted: bool, end: bool, passed: bool)
    ensures var f := Run(metered, [OnRequestHeaders(valid, admitted, end, passed)]);
            if valid && admitted then
              f.emitted == [] && f.state == Waiting && f.holdsBody && f.attached && f.requests == if metered then 1 else 0
            else
              f.emitted == [LocalReply(if valid then 503 else 400)] && f.state == Responded && !f.holdsBody && !f.attached
  {
    assert Front([OnRequestHeaders(valid, admitted, end, passed)]) == [];
  }

  // ------------------------------------------------------- the end of the request

  /** The callback brings the end of the request. */
  predicate BringsEnd(f: Filter, callback: Callback) {
    match callback
    case OnRequestHeaders(_, _, end, _) => end && f.state == Collecting
    case OnRequestBody(end, _) => end && f.state != Collecting
    case _ => false
  }

  /** Forwarding leaves nothing behind, so an end that is pending is passed on. */
  predicate PassesEnd(f: Filter, callback: Callback) {
    match callback
    case OnRequestHeaders(_, _, end, passed) => end && passed && f.state == Collecting
    case OnRequestBody(_, passed) => passed && f.state != Collecting
    case _ => false
  }

  /** The end has come, and no forwarding since, that pass included, was able to pass it on. */
  ghost predicate EndDue(metered: bool, callbacks: seq<Callback>) {
    exists i: nat :: DueSince(metered, callbacks, i)
  }

  /** The end that the `i`th callback brought has not been passed on since. */
  ghost predicate DueSince(metered: bool, callbacks: seq<Callback>, i: nat) {
    && i < |callbacks| && BringsEnd(Run(metered, callbacks[..i]), callbacks[i])
    && forall j :: i <= j < |callbacks| ==> !PassesEnd(Run(metered, callbacks[..j]), callbacks[j])
  }

  lemma SamePrefixes(callbacks: seq<Callback>, k: nat)
    requires callbacks != [] && k < |callbacks|
    ensures callbacks[..k] == Front(callbacks)[..k]
    ensures if k < |callbacks| - 1 then callbacks[k] == Front(callbacks)[k]
            else callbacks[..k] == Front(callbacks) && callbacks[k] == Last(callbacks)
  {
  }

  lemma DueSinceOneMore(metered: bool, callbacks: seq<Callback>, i: nat)
    requires callbacks != [] && i < |callbacks|
    ensures var f, front := Run(metered, Front(callbacks)), Front(callbacks);
            DueSince(metered, callbacks, i) <==>
              && !PassesEnd(f, Last(callbacks))
              && (if i == |front| then BringsEnd(f, Last(callbacks)) else DueSince(metered, front, i))
  {
    var front, n := Front(callbacks), |callbacks| - 1;
    forall k: nat | k < |callbacks|
      ensures callbacks[..k] == front[..k]
      ensures if k < n then callbacks[k] == front[k] else callbacks[..k] == front && callbacks[k] == Last(callbacks)
    {
      SamePrefixes(callbacks, k);
    }
    assert !PassesEnd(Run(metered, front), Last(callbacks)) <==> !PassesEnd(Run(metered, callbacks[..n]), callbacks[n]);
  }

  lemma EndDueNow(metered: bool, callbacks: seq<Callback>)
    requires callbacks != []
    ensures var f := Run(metered, Front(callbacks));
            EndDue(metered, callbacks) <==>
              (EndDue(metered, Front(callbacks)) || BringsEnd(f, Last(callbacks))) && !PassesEnd(f, Last(callbacks))
  {
    forall i: nat | i < |callbacks|
      ensures var f, front := Run(metered, Front(callbacks)), Front(callbacks);
              DueSince(metered, callbacks, i) <==>
                && !PassesEnd(f, Last(callbacks))
                && (if i == |front| then BringsEnd(f, Last(callbacks)) else DueSince(metered, front, i))
    {
      DueSinceOneMore(metered, callbacks, i);
    }
    var n: nat := |Front(callbacks)|;
    assert DueSince(metered, callbacks, n) ==> EndDue(metered, callbacks);
  }

  /**
   The end of a request is never forgotten and never made up: while the filter
   has the request queue, an end is pending if and only if it has come and no
   forwarding since could pass it on.
   */
  lemma {:induction false} EndPendingExactly(metered: bool, callbacks: seq<Callback>)
    ensures var f := Run(metered, callbacks);
            && (f.holdsBody ==> (f.endPending <==> EndDue(metered, callbacks)))
            && (f.state == Collecting ==> !f.endPending && !EndDue(metered, callbacks))
  {
    if callbacks != [] {
      EndPendingExactly(metered, Front(callbacks));
      Invariant(metered, Front(callbacks));
      EndDueNow(metered, callbacks);
      OnlyForwardingPassesEnd(Run(metered, Front(callbacks)), Last(callbacks));
    }
  }

  lemma {:induction false} ItemsLeaveEnd(f: Filter, items: seq<Item>)
    ensures var g := DeliverAll(f, items); g.holdsBody ==> f.holdsBody && g.endPending == f.endPending
    ensures f.state != Collecting ==> DeliverAll(f, items).state != Collecting
    decreases |items|
  {
    if items != [] && f.attached {
      ItemsLeaveEnd(DeliverItem(f, items[0]), items[1..]);
    }
  }

  lemma OnlyForwardingPassesEnd(f: Filter, callback: Callback)
    requires Inv(f) && (f.state == Collecting ==> !f.endPending)
    ensures var g := Apply(f, callback);
            && (g.holdsBody ==>
                  (g.endPending <==> (f.endPending || BringsEnd(f, callback)) && !PassesEnd(f, callback)))
            && (g.holdsBody ==> f.holdsBody || f.state == Collecting)
            && (g.state == Collecting ==> f.state == Collecting && !g.endPending && !BringsEnd(f, callback))
  {
    match callback
    case OnResponseEvent(items) => ItemsLeaveEnd(f, items);
    case _ =>
  }

  // ---------------------------------------------------------------- the object

  class FiberRackFilter {
    var state: FilterState
    var stream: ResponseStream?
    var requestBody: ResponseStream?
    var requestEndPending: bool
    const metered: bool
    var submitted: bool
    var emitted: seq<Emission>
    var requests: nat
    var rejected: nat
    var responses: seq<Outcome>

    function View(): Filter
      reads this
    {
      Filter(state, stream != null, metered, submitted, requestBody != null, requestEndPending,
             emitted, requests, rejected, responses)
    }

    /** Nobody but the drop cancels the request queue. */
    ghost predicate Valid()
      reads this, stream, requestBody
    {
      && (stream != null ==> stream.Valid() && stream != requestBody)
      && (requestBody != null ==> requestBody.Valid() && !requestBody.State().cancelled)
      && Inv(View())
    }

    constructor (metered: bool)
      ensures Valid() && View() == NewFilter(metered)
    {
      state, stream, this.metered, submitted := Collecting, null, metered, false;
      requestBody, requestEndPending := null, false;
      emitted, requests, rejected, responses := [], 0, 0, [];
    }

    method ReportOutcome(outcome: Outcome)
      modifies this`submitted, this`responses
      ensures View() == old(View()).Report(outcome)
    {
      if submitted {
        submitted := false;
        if metered {
          responses := responses + [outcome];
        }
      }
    }

    method SendBridgeError(status: nat)
      modifies this`state, this`emitted, this`requestBody, this`requestEndPending
      ensures View() == old(View()).LocallyReplied(status)
    {
      requestBody := null;
      requestEndPending := false;
      state := Responded;
      emitted := emitted + [LocalReply(status)];
    }

    /** Counts the request as rejected and answers it on the spot. */
    method Reject(status: nat)
      requires state == Collecting
      modifies this`state, this`emitted, this`requestBody, this`requestEndPending, this`rejected
      ensures View() == Refuse(old(View()), status)
    {
      if metered {
        rejected := rejected + 1;
      }
      SendBridgeError(status);
    }

    /** Hands the request to the runtime, which admits it or does not. */
    method Submit(admitted: bool, budget: nat)
      requires Valid() && state == Collecting
      modifies this
      ensures View() == if admitted then Admit(old(View())) else Refuse(old(View()), 503)
      ensures stream != null ==> fresh(stream) && stream.Valid() && stream.State() == NewQueue(budget)
      ensures requestBody != null ==> fresh(requestBody) && requestBody.Valid() && stream != requestBody
      ensures requestBody != null ==> requestBody.State() == NewQueue(budget)
    {
      if !admitted {
        Reject(503);
      } else {
        stream := new ResponseStream(budget);
        requestBody := new ResponseStream(budget);
        state := Waiting;
        submitted := true;
        if metered {
          requests := requests + 1;
        }
      }
    }

    /** A pass of forwarding would leave nothing behind. */
    ghost predicate AllFits(buffers: Forwarding.RequestBuffers)
      reads this, requestBody, buffers
    {
      requestBody != null && |buffers.Held()| <= requestBody.State().Spare()
    }

    /** One pass of forwarding, if the filter still has the request queue: nothing else of the filter changes. */
    method ForwardRequestBody(buffers: Forwarding.RequestBuffers) returns (woken: bool)
      requires requestBody != null ==> requestBody.Valid() && !requestBody.State().cancelled
      requires buffers.Valid() && (requestBody != null && requestBody.State().ended ==> buffers.Held() == [])
      modifies this`requestEndPending, buffers, requestBody
      ensures requestBody != null ==> requestBody.Valid() && !requestBody.State().cancelled
      ensures View() == old(View()).Forward(old(AllFits(buffers)))
      ensures requestBody == null ==> !woken && buffers.Held() == old(buffers.Held())
      ensures requestBody != null && old(requestEndPending) && !requestEndPending ==> requestBody.State().ended && woken
    {
      if requestBody == null {
        return false;
      }
      requestEndPending, woken := Forwarding.PassEnd(buffers, requestBody, requestEndPending);
    }

    /** Headers that end the stream have no body behind them, and their end is passed on at once. */
    method OnRequestHeaders(valid: bool, admitted: bool, end: bool, buffers: Forwarding.RequestBuffers, budget: nat)
      requires Valid() && state == Collecting && buffers.Valid() && (end ==> buffers.Held() == [])
      modifies this, buffers
      ensures Valid() && View() == RequestHeaders(old(View()), valid, admitted, end, true)
      ensures stream != null ==> fresh(stream) && stream.State() == NewQueue(budget)
      ensures requestBody != null ==> fresh(requestBody) && (end ==> requestBody.State().ended && !requestEndPending)
    {
      HeadersKeep(View(), valid, admitted, end, true);
      if !valid {
        Reject(400);
        return;
      }
      Submit(admitted, budget);
      requestEndPending := end;
      if end {
        var woken := ForwardRequestBody(buffers);
      }
    }

    /** `on_request_body` and `on_request_trailers`: forwards at once what has come. */
    method OnRequestBody(end: bool, buffers: Forwarding.RequestBuffers) returns (woken: bool)
      requires Valid() && state != Collecting && buffers.Valid()
      requires requestBody != null && requestBody.State().ended ==> buffers.Held() == []
      modifies this`requestEndPending, buffers, requestBody
      ensures (requestBody != null ==> requestBody.Valid() && !requestBody.State().cancelled) && Inv(View())
      ensures View() == RequestBody(old(View()), end, old(AllFits(buffers)))
    {
      BodyKeeps(View(), end, AllFits(buffers));
      woken := ReceiveBody(end, buffers);
    }

    /** The end becomes pending, and a pass of forwarding follows. */
    method ReceiveBody(end: bool, buffers: Forwarding.RequestBuffers) returns (woken: bool)
      requires state != Collecting && buffers.Valid()
      requires requestBody != null ==> requestBody.Valid() && !requestBody.State().cancelled
      requires requestBody != null && requestBody.State().ended ==> buffers.Held() == []
      modifies this`requestEndPending, buffers, requestBody
      ensures requestBody != null ==> requestBody.Valid() && !requestBody.State().cancelled
      ensures View() == RequestBody(old(View()), end, old(AllFits(buffers)))
    {
      requestEndPending := requestEndPending || end;
      woken := ForwardRequestBody(buffers);
    }

    /** One turn of the loop: what an item makes the filter say, and whether it ended the response. */
    method DeliverOne(item: Item)
      requires stream != null
      modifies this
      ensures View() == DeliverItem(old(View()), item) && (requestBody == old(requestBody) || requestBody == null)
      ensures stream == if item.Terminal() then null else old(stream)
    {
      match item {
        case Head(head) =>
          if state == Waiting {
            state := Streaming;
            emitted := emitted + [Headers(head)];
          }
        case Chunk(bytes) =>
          if state == Streaming {
            emitted := emitted + [Data(bytes)];
          }
        case End =>
          var streaming := state == Streaming;
          state := Responded;
          stream := null;
          ReportOutcome(Completed);
          if streaming {
            emitted := emitted + [EndOfStream];
          }
        case Failed(error) =>
          var localReplyPossible := state == Waiting;
          stream := null;
          ReportOutcome(Failure);
          if localReplyPossible {
            SendBridgeError(500);
          } else {
            state := Responded;
            emitted := emitted + [Reset];
          }
      }
    }

    /**
     Moves to the client whatever the queue holds, unless the client is behind.
     Wakes a parked writer that may go on, except when the response ended.
     */
    method DrainStream() returns (wakeWriter: bool)
      requires Valid() && stream != null
      modifies this, stream
      ensures Valid()
      ensures (View(), old(stream).State()) == Pass(old(View()), old(stream.State()))
      ensures stream != null ==> stream == old(stream)
      ensures wakeWriter == (stream != null && stream.State().WriterOwed())
    {
      var queue := stream;
      ghost var pass := Pass(View(), queue.State());
      ItemsKeep(View(), queue.items);
      while true
        invariant stream == queue && queue.Valid() && (requestBody == old(requestBody) || requestBody == null)
        invariant Pass(View(), queue.State()) == pass
        decreases |queue.items|
      {
        var item := queue.TakeNext();
        if item == None {
          break;
        }
        DeliverOne(item.value);
        if stream == null {
          return false;
        }
      }
      wakeWriter := queue.WriterOwedWakeup();
    }

    method OnStreamComplete()
      requires Valid()
      modifies this
      ensures Valid() && View() == StreamComplete(old(View()))
    {
      ReportOutcome(Disconnected);
    }
  }
}
