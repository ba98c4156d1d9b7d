/**
 Where every upstream call and stream of one request is: queued on its route
 (src/upstream.rs), in the worker's hands, in flight or open under the handle
 Envoy gave it, or counted (crates/ruvoy-envoy-fiber/src/worker.rs).

 A fiber queues work while the worker takes, sends, finishes and finally abandons
 it. Each lock acquisition of the route, each request to Envoy and each callback
 is one step; a run is any sequence of steps. Envoy hands out fresh handles.
 */
module UpstreamWork {
  import opened Basics

  /** Work is numbered in the order the route accepted it. */
  type Work = nat
  type Handle = nat

  datatype Phase =
    | Running
    /** The route is closed; `abandon_upstreams` is emptying the tables. */
    | Abandoning
    /** `on_stream_complete` has returned. */
    | Over

  datatype Ledger = Ledger(
    queuedCalls: seq<Work>,
    queuedStreams: seq<Work>,
    closed: bool,
    /** Taken from the route, not yet offered to Envoy. */
    callsInHand: seq<Work>,
    streamsInHand: seq<Work>,
    inFlight: map<Handle, Work>,
    open: map<Handle, Work>,
    /** Abandoned, about to be counted. */
    ended: seq<Work>,
    counted: seq<Work>,
    accepted: nat,
    phase: Phase)

  datatype Answer =
    | Opened(handle: Handle)
    /** Turned away by Envoy, or skipped because its fiber had closed it. */
    | Declined

  datatype Step =
    | QueueCall
    | QueueStream
    | TakeCalls
    | TakeStreams
    | SendCall(answer: Answer)
    | StartStream(answer: Answer)
    | CallDone(handle: Handle)
    | StreamDone(handle: Handle)
    | CloseRoute
    | AbandonCall(handle: Handle)
    | AbandonStream(handle: Handle)
    | CountEnded
    | Return

  // -------------------------------------------------------------- where it is

  function Under(table: map<Handle, Work>, w: Work): set<Handle> {
    set h | h in table && table[h] == w
  }

  function Times(s: seq<Work>, w: Work): nat {
    multiset(s)[w]
  }

  /** In how many places a piece of work is. */
  function Places(l: Ledger, w: Work): nat {
    Times(l.queuedCalls, w) + Times(l.queuedStreams, w) + Times(l.callsInHand, w) + Times(l.streamsInHand, w)
    + |Under(l.inFlight, w)| + |Under(l.open, w)| + Times(l.ended, w) + Times(l.counted, w)
  }

  ghost predicate Conserved(l: Ledger) {
    forall w: Work :: Places(l, w) == if w < l.accepted then 1 else 0
  }

  predicate Settled(l: Ledger) {
    && (l.phase != Running ==>
          l.closed && l.queuedCalls == [] && l.queuedStreams == [] && l.callsInHand == [] && l.streamsInHand == [])
    && (l.phase == Over ==> l.inFlight == map[] && l.open == map[] && l.ended == [])
    && (l.ended != [] ==> l.phase == Abandoning)
  }

  lemma TimesConcat(a: seq<Work>, b: seq<Work>, w: Work)
    ensures Times(a + b, w) == Times(a, w) + Times(b, w)
  {
  }

  lemma TimesHead(a: seq<Work>, w: Work)
    requires a != []
    ensures Times(a, w) == Times(a[1..], w) + if a[0] == w then 1 else 0
  {
    assert a == [a[0]] + a[1..];
  }

  lemma UnderInsert(table: map<Handle, Work>, h: Handle, x: Work, w: Work)
    requires h !in table
    ensures |Under(table[h := x], w)| == |Under(table, w)| + if x == w then 1 else 0
  {
    if x == w {
      assert Under(table[h := x], w) == Under(table, w) + {h};
    } else {
      assert Under(table[h := x], w) == Under(table, w);
    }
  }

  lemma UnderRemove(table: map<Handle, Work>, h: Handle, w: Work)
    requires h in table
    ensures |Under(table - {h}, w)| + (if table[h] == w then 1 else 0) == |Under(table, w)|
  {
    if table[h] == w {
      assert Under(table, w) == Under(table - {h}, w) + {h};
    } else {
      assert Under(table, w) == Under(table - {h}, w);
    }
  }

  // --------------------------------------------------------------------- steps

  function Apply(l: Ledger, step: Step): (m: Ledger)
    ensures Settled(l) ==> Settled(m)
  {
    match step
    case QueueCall =>
      if l.closed then l else l.(queuedCalls := l.queuedCalls + [l.accepted], accepted := l.accepted + 1)
    case QueueStream =>
      if l.closed then l else l.(queuedStreams := l.queuedStreams + [l.accepted], accepted := l.accepted + 1)
    case TakeCalls =>
      if l.callsInHand != [] || l.phase != Running then l
      else l.(callsInHand := l.queuedCalls, queuedCalls := [])
    case TakeStreams =>
      if l.streamsInHand != [] || l.phase != Running then l
      else l.(streamsInHand := l.queuedStreams, queuedStreams := [])
    case SendCall(answer) =>
      if l.callsInHand == [] then l
      else
        var w, rest := l.callsInHand[0], l.callsInHand[1..];
        if answer.Declined? then l.(callsInHand := rest, counted := l.counted + [w])
        else if answer.handle in l.inFlight then l
        else l.(callsInHand := rest, inFlight := l.inFlight[answer.handle := w])
    case StartStream(answer) =>
      if l.streamsInHand == [] then l
      else
        var w, rest := l.streamsInHand[0], l.streamsInHand[1..];
        if answer.Declined? then l.(streamsInHand := rest, counted := l.counted + [w])
        else if answer.handle in l.open then l
        else l.(streamsInHand := rest, open := l.open[answer.handle := w])
    case CallDone(handle) =>
      if handle !in l.inFlight || l.phase != Running then l
      else l.(inFlight := l.inFlight - {handle}, counted := l.counted + [l.inFlight[handle]])
    case StreamDone(handle) =>
      if handle !in l.open || l.phase != Running then l
      else l.(open := l.open - {handle}, counted := l.counted + [l.open[handle]])
    case CloseRoute =>
      if l.phase != Running || l.callsInHand != [] || l.streamsInHand != [] then l
      else
        l.(closed := true, phase := Abandoning,
           queuedCalls := [], queuedStreams := [], ended := l.queuedCalls + l.queuedStreams)
    case AbandonCall(handle) =>
      if handle !in l.inFlight || l.phase != Abandoning then l
      else l.(inFlight := l.inFlight - {handle}, ended := l.ended + [l.inFlight[handle]])
    case AbandonStream(handle) =>
      if handle !in l.open || l.phase != Abandoning then l
      else l.(open := l.open - {handle}, ended := l.ended + [l.open[handle]])
    case CountEnded =>
      if l.ended == [] then l else l.(ended := l.ended[1..], counted := l.counted + [l.ended[0]])
    case Return =>
      if l.phase != Abandoning || l.inFlight != map[] || l.open != map[] || l.ended != [] then l
      else l.(phase := Over)
  }

  lemma QueueConserves(l: Ledger, step: Step)
    requires Conserved(l) && Settled(l) && (step.QueueCall? || step.QueueStream?)
    ensures Conserved(Apply(l, step))
  {
    var m := Apply(l, step);
    forall w: Work
      ensures Places(m, w) == if w < m.accepted then 1 else 0
    {
      assert Places(l, w) == if w < l.accepted then 1 else 0;
      TimesConcat(l.queuedCalls, [l.accepted], w);
      TimesConcat(l.queuedStreams, [l.accepted], w);
      assert Times([l.accepted], w) == if w == l.accepted then 1 else 0;
    }
  }

  lemma MoveFromHand(l: Ledger, hand: seq<Work>, table: map<Handle, Work>, answer: Answer, w: Work)
    ensures hand != [] ==> Times(hand, w) == Times(hand[1..], w) + Times([hand[0]], w)
    ensures hand != [] ==> Times(l.counted + [hand[0]], w) == Times(l.counted, w) + Times([hand[0]], w)
    ensures hand != [] && answer.Opened? && answer.handle !in table ==>
              |Under(table[answer.handle := hand[0]], w)| == |Under(table, w)| + Times([hand[0]], w)
  {
    if hand != [] {
      TimesHead(hand, w);
      TimesConcat(l.counted, [hand[0]], w);
      if answer.Opened? && answer.handle !in table {
        UnderInsert(table, answer.handle, hand[0], w);
      }
    }
  }

  lemma MoveFromTable(l: Ledger, table: map<Handle, Work>, handle: Handle, w: Work)
    ensures handle in table ==>
              && |Under(table - {handle}, w)| + Times([table[handle]], w) == |Under(table, w)|
              && Times(l.counted + [table[handle]], w) == Times(l.counted, w) + Times([table[handle]], w)
              && Times(l.ended + [table[handle]], w) == Times(l.ended, w) + Times([table[handle]], w)
  {
    if handle in table {
      UnderRemove(table, handle, w);
      TimesConcat(l.counted, [table[handle]], w);
      TimesConcat(l.ended, [table[handle]], w);
    }
  }

  lemma OfferKeepsPlaces(l: Ledger, step: Step, w: Work)
    requires step.SendCall? || step.StartStream?
    ensures Places(Apply(l, step), w) == Places(l, w)
  {
    if step.SendCall? {
      MoveFromHand(l, l.callsInHand, l.inFlight, step.answer, w);
    } else {
      MoveFromHand(l, l.streamsInHand, l.open, step.answer, w);
    }
  }

  lemma EndKeepsPlaces(l: Ledger, step: Step, w: Work)
    requires step.CallDone? || step.AbandonCall? || step.StreamDone? || step.AbandonStream?
    ensures Places(Apply(l, step), w) == Places(l, w)
  {
    if step.CallDone? || step.AbandonCall? {
      MoveFromTable(l, l.inFlight, step.handle, w);
    } else {
      MoveFromTable(l, l.open, step.handle, w);
    }
  }

  lemma CloseKeepsPlaces(l: Ledger, w: Work)
    requires Settled(l)
    ensures Places(Apply(l, CloseRoute), w) == Places(l, w)
  {
    TimesConcat(l.queuedCalls, l.queuedStreams, w);
  }

  lemma CountKeepsPlaces(l: Ledger, w: Work)
    ensures Places(Apply(l, CountEnded), w) == Places(l, w)
  {
    if l.ended != [] {
      TimesHead(l.ended, w);
      TimesConcat(l.counted, [l.ended[0]], w);
    }
  }

  lemma TakeKeepsPlaces(l: Ledger, step: Step, w: Work)
    requires step.TakeCalls? || step.TakeStreams? || step.Return?
    ensures Places(Apply(l, step), w) == Places(l, w)
  {
  }

  /** A step of the worker moves work from one place to another. */
  lemma WorkerKeepsPlaces(l: Ledger, step: Step, w: Work)
    requires Settled(l) && !step.QueueCall? && !step.QueueStream?
    ensures Places(Apply(l, step), w) == Places(l, w)
  {
    if step.SendCall? || step.StartStream? {
      OfferKeepsPlaces(l, step, w);
    } else if step.CallDone? || step.AbandonCall? || step.StreamDone? || step.AbandonStream? {
      EndKeepsPlaces(l, step, w);
    } else if step == CloseRoute {
      CloseKeepsPlaces(l, w);
    } else if step == CountEnded {
      CountKeepsPlaces(l, w);
    } else {
      TakeKeepsPlaces(l, step, w);
    }
  }

  lemma StepConserves(l: Ledger, step: Step)
    requires Conserved(l) && Settled(l)
    ensures Conserved(Apply(l, step))
  {
    if step.QueueCall? || step.QueueStream? {
      QueueConserves(l, step);
    } else {
      var m := Apply(l, step);
      assert m.accepted == l.accepted;
      forall w: Work
        ensures Places(m, w) == if w < m.accepted then 1 else 0
      {
        WorkerKeepsPlaces(l, step, w);
        assert Places(l, w) == if w < l.accepted then 1 else 0;
      }
    }
  }

  function Init(): Ledger {
    Ledger([], [], false, [], [], map[], map[], [], [], 0, Running)
  }

  function Run(steps: seq<Step>): Ledger {
    if steps == [] then Init() else Apply(Run(Front(steps)), Last(steps))
  }

  lemma NothingLeft(l: Ledger)
    requires l.phase == Abandoning && l.inFlight == map[] && l.open == map[] && l.ended == []
    ensures Apply(l, Return) == l.(phase := Over)
  {
  }

  // ----------------------------------------------------------------- theorems

  /**
   Conservation: in every run, however queueing races with closing, each call and
   stream the route accepted is at each moment in exactly one place, and nothing
   else is anywhere.
   */
  lemma {:induction false} WorkIsConserved(steps: seq<Step>)
    ensures Conserved(Run(steps)) && Settled(Run(steps))
  {
    if steps == [] {
      forall w: Work
        ensures Places(Init(), w) == 0
      {
        assert Under(map[], w) == {};
      }
    } else {
      WorkIsConserved(Front(steps));
      StepConserves(Run(Front(steps)), Last(steps));
    }
  }

  /** By the time `on_stream_complete` returns, everything accepted has been counted, once. */
  lemma EverythingCountedOnce(steps: seq<Step>)
    requires Run(steps).phase == Over
    ensures forall w: Work :: Times(Run(steps).counted, w) == if w < Run(steps).accepted then 1 else 0
  {
    WorkIsConserved(steps);
    var l := Run(steps);
    forall w: Work
      ensures Times(l.counted, w) == if w < l.accepted then 1 else 0
    {
      assert Places(l, w) == if w < l.accepted then 1 else 0;
      assert Under(map[], w) == {};
    }
  }

  /** Nothing is accepted, sent or counted afterwards. */
  lemma {:induction false} NothingAfterwards(steps: seq<Step>, more: seq<Step>)
    requires Run(steps).phase == Over
    ensures Run(steps + more) == Run(steps)
  {
    if more == [] {
      assert steps + more == steps;
    } else {
      NothingAfterwards(steps, Front(more));
      FrontOfConcat(steps, more);
      WorkIsConserved(steps);
    }
  }

  // ------------------------------------------------------- what Envoy makes of it

  /** Those of `works` that Envoy declines, and those that it takes, in order. */
  function Declinees(works: seq<Work>, declined: set<Work>): seq<Work> {
    if works == [] then []
    else Declinees(Front(works), declined) + if Last(works) in declined then [Last(works)] else []
  }

  function Takings(works: seq<Work>, declined: set<Work>): seq<Work> {
    if works == [] then []
    else Takings(Front(works), declined) + if Last(works) in declined then [] else [Last(works)]
  }

  lemma {:induction false} SortedOut(works: seq<Work>, declined: set<Work>, w: Work)
    ensures w in Declinees(works, declined) <==> w in works && w in declined
    ensures w in Takings(works, declined) <==> w in works && w !in declined
  {
    if works != [] {
      SortedOut(Front(works), declined, w);
      assert works == Front(works) + [Last(works)];
    }
  }

  /** The table has gained exactly these works, each under a handle it did not have, and lost nothing. */
  ghost predicate Gained(was: map<Handle, Work>, table: map<Handle, Work>, works: seq<Work>) {
    && (forall h :: h in was ==> h in table && table[h] == was[h])
    && (forall h :: h in table && h !in was ==> table[h] in works)
    && (forall w :: w in works ==> exists h :: h in table && h !in was && table[h] == w)
  }

  lemma GainsOne(was: map<Handle, Work>, table: map<Handle, Work>, works: seq<Work>, h: Handle, w: Work)
    requires Gained(was, table, works) && h !in table
    ensures Gained(was, table[h := w], works + [w])
  {
    var now := table[h := w];
    forall x | x in works + [w]
      ensures exists k :: k in now && k !in was && now[k] == x
    {
      if x in works {
        var k :| k in table && k !in was && table[k] == x;
        assert k in now && now[k] == x;
      } else {
        assert h in now && h !in was && now[h] == x;
      }
    }
  }

  /** A table, the handle Envoy gives out next, and what has been counted. */
  datatype Offering = Offering(table: map<Handle, Work>, next: Handle, counted: seq<Work>)
  {
    function Offer(w: Work, declines: bool): Offering {
      if declines then this.(counted := counted + [w]) else this.(table := table[next := w], next := next + 1)
    }

    function OfferAll(works: seq<Work>, declined: set<Work>): Offering {
      if works == [] then this
      else OfferAll(Front(works), declined).Offer(Last(works), Last(works) in declined)
    }
  }

  /** What was offered is counted if declined, and otherwise in the table, under a new handle. */
  lemma {:induction false} OfferedIsSortedOut(o: Offering, works: seq<Work>, declined: set<Work>)
    requires forall h :: h in o.table ==> h < o.next
    ensures var p := o.OfferAll(works, declined);
            && p.counted == o.counted + Declinees(works, declined)
            && Gained(o.table, p.table, Takings(works, declined))
            && forall h :: h in p.table ==> h < p.next
  {
    if works != [] {
      OfferedIsSortedOut(o, Front(works), declined);
      var p := o.OfferAll(Front(works), declined);
      GainsOne(o.table, p.table, Takings(Front(works), declined), p.next, Last(works));
      ConcatIsAssociative(o.counted, Declinees(Front(works), declined), [Last(works)]);
    }
  }

  lemma OffersNext(o: Offering, works: seq<Work>, declined: set<Work>, i: nat)
    requires i < |works|
    ensures o.OfferAll(works[..i + 1], declined)
         == o.OfferAll(works[..i], declined).Offer(works[i], works[i] in declined)
    ensures works[i..] != [] && works[i..][0] == works[i] && works[i..][1..] == works[i + 1..]
  {
    assert Front(works[..i + 1]) == works[..i];
  }

  lemma TableHolds(table: map<Handle, Work>, w: Work)
    ensures w in table.Values ==> |Under(table, w)| >= 1
  {
    if w in table.Values {
      var h :| h in table && table[h] == w;
      assert h in Under(table, w);
    }
  }

  // --------------------------------------------------------------- the objects

  /** The route a request's fibers queue on. */
  class Upstreams {
    var queued: seq<Work>
    var streams: seq<Work>
    var closed: bool

    constructor ()
      ensures queued == [] && streams == [] && !closed
    {
      queued, streams, closed := [], [], false;
    }

    /** Work joins the back of its list exactly while the route is open. */
    method Push(work: Work, streamed: bool) returns (accepted: bool)
      modifies this
      ensures accepted == !old(closed) && closed == old(closed)
      ensures queued == old(queued) + (if accepted && !streamed then [work] else [])
      ensures streams == old(streams) + (if accepted && streamed then [work] else [])
    {
      if closed {
        return false;
      }
      if streamed {
        streams := streams + [work];
      } else {
        queued := queued + [work];
      }
      return true;
    }

    method TakeQueued() returns (calls: seq<Work>)
      modifies this`queued
      ensures calls == old(queued) && queued == []
    {
      calls, queued := queued, [];
    }

    method TakeQueuedStreams() returns (calls: seq<Work>)
      modifies this`streams
      ensures calls == old(streams) && streams == []
    {
      calls, streams := streams, [];
    }

    method Close() returns (unsentCalls: seq<Work>, unsentStreams: seq<Work>)
      modifies this
      ensures closed && queued == [] && streams == []
      ensures unsentCalls == old(queued) && unsentStreams == old(streams)
    {
      closed := true;
      unsentCalls, unsentStreams := queued, streams;
      queued, streams := [], [];
    }
  }

  /**
   The filter's tables, and the handles Envoy has given out. Every method is a
   run of the machine above, recorded step by step, so what holds of every run
   holds of the tables between any two callbacks.
   */
  class UpstreamTables {
    const route: Upstreams
    var calls: map<Handle, Work>
    var open: map<Handle, Work>
    var counted: seq<Work>
    var accepted: nat
    /** The filter still has its route. */
    var attached: bool
    var nextHandle: Handle

    ghost var history: seq<Step>

    predicate Fresh()
      reads this
    {
      && (forall h :: h in calls ==> h < nextHandle)
      && (forall h :: h in open ==> h < nextHandle)
    }

    /** The recorded run leads to the ledger with this much work in the worker's hands. */
    ghost predicate At(callsInHand: seq<Work>, streamsInHand: seq<Work>, ended: seq<Work>, phase: Phase)
      reads this, route
    {
      && Fresh()
      && Run(history) == Ledger(route.queued, route.streams, route.closed, callsInHand, streamsInHand,
                                calls, open, ended, counted, accepted, phase)
    }

    ghost predicate Valid()
      reads this, route
    {
      At([], [], [], if attached then Running else Over)
    }

    constructor ()
      ensures Valid() && fresh(route) && attached && accepted == 0
    {
      route := new Upstreams();
      calls, open, counted, accepted, attached, nextHandle := map[], map[], [], 0, true, 0;
      history := [];
    }

    ghost method Record(step: Step)
      modifies this`history
      ensures Run(history) == Apply(old(Run(history)), step)
    {
      assert Front(history + [step]) == history;
      history := history + [step];
    }

    /** A fiber queues work, which is accepted until the request is gone. */
    method Queue(streamed: bool) returns (isAccepted: bool)
      requires Valid()
      modifies this, route
      ensures Valid() && attached == old(attached) && isAccepted == !old(route.closed)
      ensures accepted == old(accepted) + if isAccepted then 1 else 0
      ensures route.queued == old(route.queued) + if isAccepted && !streamed then [old(accepted)] else []
      ensures route.streams == old(route.streams) + if isAccepted && streamed then [old(accepted)] else []
      ensures calls == old(calls) && open == old(open) && counted == old(counted)
    {
      isAccepted := route.Push(accepted, streamed);
      if isAccepted {
        accepted := accepted + 1;
      }
      Record(if streamed then QueueStream else QueueCall);
    }

    function Calling(): Offering
      reads this
    {
      Offering(calls, nextHandle, counted)
    }

    function Opening(): Offering
      reads this
    {
      Offering(open, nextHandle, counted)
    }

    /** Offers the first call in hand to Envoy: declined, it is counted; otherwise it is in flight. */
    method SendOne(batch: seq<Work>, streams: seq<Work>, declines: bool)
      requires batch != [] && At(batch, streams, [], Running)
      modifies this
      ensures At(batch[1..], streams, [], Running) && attached == old(attached) && accepted == old(accepted)
      ensures open == old(open) && old(nextHandle) !in old(calls)
      ensures Calling() == old(Calling()).Offer(batch[0], declines)
    {
      var w := batch[0];
      if declines {
        counted := counted + [w];
        Record(SendCall(Declined));
      } else {
        calls := calls[nextHandle := w];
        Record(SendCall(Opened(nextHandle)));
        nextHandle := nextHandle + 1;
      }
    }

    /** Starts the first stream in hand: declined, it is counted; otherwise it is open. */
    method StartOne(streams: seq<Work>, declines: bool)
      requires streams != [] && At([], streams, [], Running)
      modifies this
      ensures At([], streams[1..], [], Running) && attached == old(attached) && accepted == old(accepted)
      ensures calls == old(calls) && old(nextHandle) !in old(open)
      ensures Opening() == old(Opening()).Offer(streams[0], declines)
    {
      var w := streams[0];
      if declines {
        counted := counted + [w];
        Record(StartStream(Declined));
      } else {
        open := open[nextHandle := w];
        Record(StartStream(Opened(nextHandle)));
        nextHandle := nextHandle + 1;
      }
    }

    /** Takes everything queued off the route, in two lock acquisitions. */
    method TakeBoth() returns (batch: seq<Work>, streams: seq<Work>)
      requires Valid() && attached
      modifies this, route
      ensures At(batch, streams, [], Running) && attached && accepted == old(accepted)
      ensures route.queued == [] && route.streams == []
      ensures batch == old(route.queued) && streams == old(route.streams)
      ensures calls == old(calls) && open == old(open) && counted == old(counted)
    {
      batch := route.TakeQueued();
      Record(TakeCalls);
      assert At(batch, [], [], Running);
      streams := route.TakeQueuedStreams();
      Record(TakeStreams);
    }

    /** What is in flight or open is nowhere else, so it has not been counted. */
    lemma TabledIsNotCounted()
      requires Valid()
      ensures forall w :: w in calls.Values || w in open.Values ==> w !in counted
    {
      WorkIsConserved(history);
      var l := Run(history);
      forall w | w in calls.Values || w in open.Values
        ensures w !in counted
      {
        assert Places(l, w) <= 1;
        TableHolds(calls, w);
        TableHolds(open, w);
      }
    }

    /** Every call in hand is offered, in order. */
    method SendAll(calling: seq<Work>, streams: seq<Work>, declined: set<Work>)
      requires At(calling, streams, [], Running)
      modifies this
      ensures At([], streams, [], Running) && attached == old(attached) && accepted == old(accepted)
      ensures Calling() == old(Calling()).OfferAll(calling, declined) && open == old(open)
    {
      var i := 0;
      while i < |calling|
        invariant i <= |calling| && At(calling[i..], streams, [], Running)
        invariant attached == old(attached) && accepted == old(accepted) && open == old(open)
        invariant Calling() == old(Calling()).OfferAll(calling[..i], declined)
      {
        OffersNext(old(Calling()), calling, declined, i);
        SendOne(calling[i..], streams, calling[i] in declined);
        i := i + 1;
      }
      assert calling[..i] == calling;
    }

    /** Every stream in hand is started, in order. */
    method StartAll(starting: seq<Work>, declined: set<Work>)
      requires At([], starting, [], Running)
      modifies this
      ensures At([], [], [], Running) && attached == old(attached) && accepted == old(accepted)
      ensures Opening() == old(Opening()).OfferAll(starting, declined) && calls == old(calls)
    {
      var i := 0;
      while i < |starting|
        invariant i <= |starting| && At([], starting[i..], [], Running)
        invariant attached == old(attached) && accepted == old(accepted) && calls == old(calls)
        invariant Opening() == old(Opening()).OfferAll(starting[..i], declined)
      {
        OffersNext(old(Opening()), starting, declined, i);
        StartOne(starting[i..], starting[i] in declined);
        i := i + 1;
      }
      assert starting[..i] == starting;
    }

    /**
     `send_upstream_calls`: offers Envoy everything queued. What it declines is
     counted at once, in order; everything else is in its table, and not counted.
     */
    method SendUpstreamCalls(declined: set<Work>)
      requires Valid() && attached
      modifies this, route
      ensures Valid() && attached && accepted == old(accepted)
      ensures route.queued == [] && route.streams == []
      ensures counted
           == old(counted) + Declinees(old(route.queued), declined) + Declinees(old(route.streams), declined)
      ensures Gained(old(calls), calls, Takings(old(route.queued), declined))
      ensures Gained(old(open), open, Takings(old(route.streams), declined))
      ensures forall w :: w in old(route.queued) ==>
                if w in declined then w in counted else w in calls.Values && w !in counted
      ensures forall w :: w in old(route.streams) ==>
                if w in declined then w in counted else w in open.Values && w !in counted
    {
      var batch, streams := TakeBoth();
      OfferedIsSortedOut(Calling(), batch, declined);
      SendAll(batch, streams, declined);
      OfferedIsSortedOut(Opening(), streams, declined);
      StartAll(streams, declined);
      forall w
        ensures w in batch ==> w in (if w in declined then Declinees(batch, declined) else Takings(batch, declined))
        ensures w in streams ==> w in (if w in declined then Declinees(streams, declined) else Takings(streams, declined))
      {
        SortedOut(batch, declined, w);
        SortedOut(streams, declined, w);
      }
      TabledIsNotCounted();
    }

    /** `on_http_callout_done`; a handle not in the table is ignored. */
    method OnCallDone(handle: Handle)
      requires Valid() && attached
      modifies this
      ensures Valid() && attached && open == old(open) && calls == old(calls) - {handle}
      ensures counted == old(counted) + if handle in old(calls) then [old(calls)[handle]] else []
    {
      if handle in calls {
        counted := counted + [calls[handle]];
        calls := calls - {handle};
      }
      Record(CallDone(handle));
    }

    /** `on_http_stream_complete` and `on_http_stream_reset`. */
    method OnStreamDone(handle: Handle)
      requires Valid() && attached
      modifies this
      ensures Valid() && attached && calls == old(calls) && open == old(open) - {handle}
      ensures counted == old(counted) + if handle in old(open) then [old(open)[handle]] else []
    {
      if handle in open {
        counted := counted + [open[handle]];
        open := open - {handle};
      }
      Record(StreamDone(handle));
    }

    method AbandonOne(ended: seq<Work>, handle: Handle, streamed: bool) returns (longer: seq<Work>)
      requires At([], [], ended, Abandoning)
      requires if streamed then handle in open else handle in calls
      modifies this
      ensures At([], [], longer, Abandoning) && attached == old(attached) && accepted == old(accepted)
      ensures calls == old(calls) - (if streamed then {} else {handle})
      ensures open == old(open) - (if streamed then {handle} else {})
    {
      if streamed {
        longer := ended + [open[handle]];
        open := open - {handle};
        Record(AbandonStream(handle));
      } else {
        longer := ended + [calls[handle]];
        calls := calls - {handle};
        Record(AbandonCall(handle));
      }
    }

    method CloseTheRoute() returns (ended: seq<Work>)
      requires Valid() && attached
      modifies this, route
      ensures At([], [], ended, Abandoning) && !attached && accepted == old(accepted)
    {
      attached := false;
      var unsentCalls, unsentStreams := route.Close();
      ended := unsentCalls + unsentStreams;
      Record(CloseRoute);
    }

    /** `abandon_upstreams`: closes the route and empties both tables, in no particular order. */
    method AbandonUpstreams() returns (ended: seq<Work>)
      requires Valid() && attached
      modifies this, route
      ensures At([], [], ended, Abandoning) && !attached && accepted == old(accepted)
      ensures calls == map[] && open == map[]
    {
      ended := CloseTheRoute();
      while calls != map[]
        invariant At([], [], ended, Abandoning) && !attached && accepted == old(accepted)
        decreases |calls|
      {
        var handle :| handle in calls;
        ended := AbandonOne(ended, handle, false);
      }
      while open != map[]
        invariant At([], [], ended, Abandoning) && !attached && accepted == old(accepted) && calls == map[]
        decreases |open|
      {
        var handle :| handle in open;
        ended := AbandonOne(ended, handle, true);
      }
    }

    method CountOne(ended: seq<Work>)
      requires ended != [] && At([], [], ended, Abandoning)
      modifies this
      ensures At([], [], ended[1..], Abandoning)
      ensures attached == old(attached) && accepted == old(accepted) && calls == old(calls) && open == old(open)
    {
      counted := counted + [ended[0]];
      Record(CountEnded);
    }

    method ReturnAtLast()
      requires At([], [], [], Abandoning) && calls == map[] && open == map[]
      modifies this
      ensures At([], [], [], Over) && attached == old(attached) && accepted == old(accepted)
    {
      NothingLeft(Run(history));
      Record(Return);
    }

    /** Counts what was abandoned, which ends the work. */
    method CountAll(abandoned: seq<Work>)
      requires At([], [], abandoned, Abandoning) && calls == map[] && open == map[]
      modifies this
      ensures At([], [], [], Over) && attached == old(attached) && accepted == old(accepted)
    {
      var ended := abandoned;
      while ended != []
        invariant At([], [], ended, Abandoning) && attached == old(attached) && accepted == old(accepted)
        invariant calls == map[] && open == map[]
        decreases |ended|
      {
        CountOne(ended);
        ended := ended[1..];
      }
      ReturnAtLast();
    }

    /** Afterwards all work ever accepted has been counted, each piece once. */
    method OnStreamComplete()
      requires Valid()
      modifies this, route
      ensures Valid() && !attached && accepted == old(accepted)
      ensures forall w: Work :: Times(counted, w) == if w < accepted then 1 else 0
    {
      if attached {
        var ended := AbandonUpstreams();
        CountAll(ended);
      }
      EverythingCountedOnce(history);
    }
  }
}
