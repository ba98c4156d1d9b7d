/**
 What must go out of a streamed upstream exchange
 (crates/ruvoy-envoy-fiber/src/upstream.rs): `Exchange` says that nothing else
 does; here are the end of a body, a wanted reset, and the pieces in between that
 the worker may not forget, and the exchange it may not start at all.
 */
module Requests {
  import opened Basics
  import opened Streams
  import E = Exchange

  ghost predicate EndAsked(asks: seq<E.Ask>) {
    exists i :: 0 <= i < |asks| && E.Ends(asks[i])
  }

  /** Only chunks and an end go up. */
  predicate BodyItems(items: seq<Item>) {
    forall i :: 0 <= i < |items| ==> items[i].Chunk? || items[i].End?
  }

  /** An end that the fiber wrote is queued or was asked for, and so is a reset sent. */
  ghost predicate NotForgotten(s: E.State) {
    var q := s.channel.request;
    && !q.paused && BodyItems(q.items)
    && (s.place != E.Gone && q.ended && !q.cancelled ==> s.open.requestEnded || (q.items != [] && Last(q.items) == End))
    && (s.open.requestEnded ==> EndAsked(s.asks) && q.ended && q.items == [])
    && (s.open.resetSent ==> E.ResetStream in s.asks)
  }

  lemma AskedOn(asks: seq<E.Ask>, a: E.Ask)
    ensures EndAsked(asks) || E.Ends(a) ==> EndAsked(asks + [a])
  {
    if EndAsked(asks) {
      var i :| 0 <= i < |asks| && E.Ends(asks[i]);
      assert E.Ends((asks + [a])[i]);
    } else if E.Ends(a) {
      assert E.Ends((asks + [a])[|asks|]);
    }
  }

  lemma FiberForgetsNothing(s: E.State, f: E.FiberStep)
    requires NotForgotten(s)
    ensures NotForgotten(E.FiberMoves(s, f))
  {
  }

  lemma StartForgetsNothing(s: E.State, refused: bool)
    requires E.Inv(s) && E.Spoken(s) && NotForgotten(s) && Accounted(s.channel.request)
    ensures NotForgotten(E.OnStart(s, refused))
  {
    var q := s.channel.request;
    if s.worker == E.Starting && s.todo == E.NOTHING && !refused {
      var ended := q.items != [] && q.items[0] == End;
      AskedOn([], E.Begin(if q.items == [] then [] else BytesOf(q.items[0]), ended));
    }
  }

  lemma TakeForgetsNothing(s: E.State)
    requires E.Inv(s) && E.Spoken(s) && NotForgotten(s) && Accounted(s.channel.request)
    ensures NotForgotten(E.OnTakePiece(s))
  {
    var q := s.channel.request;
    if s.worker == E.Sending && q.items != [] {
      var asked := if q.items[0].End? then E.Finish else E.Piece(q.items[0].bytes);
      assert E.AskedFor(Some(q.items[0])) == [asked];
      AskedOn(s.asks, asked);
    }
  }

  lemma NextForgetsNothing(s: E.State)
    requires NotForgotten(s)
    ensures NotForgotten(E.WorkerMoves(s, E.NextAction))
  {
    AskedOn(s.asks, E.ResetStream);
  }

  /** A callback leaves the body alone. */
  lemma CallbackForgetsNothing(s: E.State, t: E.State)
    requires NotForgotten(s) && E.BodyUntouched(s, t)
    ensures NotForgotten(t)
  {
  }

  lemma CarryOnForgetsNothing(s: E.State)
    requires NotForgotten(s)
    ensures NotForgotten(E.Proceed(s))
  {
    if E.BodyUntouched(s, E.Proceed(s)) {
      CallbackForgetsNothing(s, E.Proceed(s));
    }
  }

  lemma StepForgetsNothing(s: E.State, step: E.Step)
    requires E.Inv(s) && E.Spoken(s) && Accounted(s.channel.request) && NotForgotten(s)
    ensures NotForgotten(E.Apply(s, step))
  {
    if step.Fiber? {
      FiberForgetsNothing(s, step.f);
    } else {
      match step.w
      case BeginStart =>
      case Start(refused) => StartForgetsNothing(s, refused);
      case NextAction => NextForgetsNothing(s);
      case TakePiece => TakeForgetsNothing(s);
      case CarryOn => CarryOnForgetsNothing(s);
      case _ => CallbackForgetsNothing(s, E.WorkerMoves(s, step.w));
    }
  }

  lemma {:induction false} Invariant(budget: nat, steps: seq<E.Step>)
    ensures NotForgotten(E.Run(budget, steps))
  {
    if steps != [] {
      Invariant(budget, Front(steps));
      E.Invariant(budget, Front(steps));
      E.SendInvariant(budget, Front(steps));
      StepForgetsNothing(E.Run(budget, Front(steps)), Last(steps));
    }
  }

  // ----------------------------------------------------------------- theorems

  /**
   A body the fiber has ended ends for the upstream: once its uncancelled queue is
   empty the end was asked for, and all that was written has been sent.
   */
  lemma EndIsPassedOn(budget: nat, steps: seq<E.Step>)
    ensures var s := E.Run(budget, steps);
            s.place == E.InTable && s.channel.request.ended && !s.channel.request.cancelled && s.channel.request.items == [] ==>
              EndAsked(s.asks) && E.SentBytes(s.asks) == s.written
  {
    Invariant(budget, steps);
    E.SendLanguage(budget, steps);
  }

  lemma OneMore(budget: nat, steps: seq<E.Step>, w: E.WorkerStep)
    ensures E.Run(budget, steps + [E.Worker(w)]) == E.WorkerMoves(E.Run(budget, steps), w)
  {
    assert Front(steps + [E.Worker(w)]) == steps;
  }

  /** A reset that is wanted is the next thing asked for, once. */
  lemma WantedResetIsAsked(budget: nat, steps: seq<E.Step>)
    ensures var s := E.Run(budget, steps);
            var t := E.Run(budget, steps + [E.Worker(E.NextAction)]);
            E.MayCallBack(s) && s.channel.resetWanted ==>
              && E.ResetStream in t.asks && Last(t.asks) == E.ResetStream
              && (E.ResetStream in s.asks ==> t.asks == s.asks)
  {
    OneMore(budget, steps, E.NextAction);
    Invariant(budget, steps + [E.Worker(E.NextAction)]);
    E.SendInvariant(budget, steps);
    E.SendInvariant(budget, steps + [E.Worker(E.NextAction)]);
  }

  /** The worker asks for what is next, in two steps. */
  function Pump(s: E.State): E.State {
    E.WorkerMoves(E.WorkerMoves(s, E.NextAction), E.TakePiece)
  }

  predicate MaySend(s: E.State) {
    E.MayCallBack(s) && !s.channel.resetWanted && !s.channel.request.paused && !s.channel.request.cancelled
  }

  /** Between the two, the first `n` items were asked for and nothing else changed but the record of it. */
  predicate Pumped(s: E.State, t: E.State, n: nat) {
    var q, r := s.channel.request, t.channel.request;
    && n <= |q.items| && r.items == q.items[n..] && r.ended == q.ended && MaySend(t)
    && t.written == s.written && t.place == s.place
    && (n < |q.items| ==> t.open.requestEnded == s.open.requestEnded)
  }

  lemma PumpsOne(s: E.State)
    requires MaySend(s) && !s.open.requestEnded && s.channel.request.items != []
    requires BodyItems(s.channel.request.items) && OneTerminal(s.channel.request.items)
    ensures var item := s.channel.request.items[0];
            Pump(s).asks == s.asks + [if item.End? then E.Finish else E.Piece(item.bytes)]
    ensures Pumped(s, Pump(s), 1)
  {
    var item := s.channel.request.items[0];
    assert E.AskedFor(Some(item)) == [if item.End? then E.Finish else E.Piece(item.bytes)];
  }

  lemma OnePump(budget: nat, steps: seq<E.Step>)
    ensures E.Run(budget, steps + [E.Worker(E.NextAction)] + [E.Worker(E.TakePiece)]) == Pump(E.Run(budget, steps))
  {
    OneMore(budget, steps, E.NextAction);
    OneMore(budget, steps + [E.Worker(E.NextAction)], E.TakePiece);
  }

  function PumpTimes(s: E.State, n: nat): E.State {
    if n == 0 then s else Pump(PumpTimes(s, n - 1))
  }

  function Pumps(n: nat): seq<E.Step> {
    if n == 0 then [] else Pumps(n - 1) + [E.Worker(E.NextAction)] + [E.Worker(E.TakePiece)]
  }

  lemma PumpsOneMore(steps: seq<E.Step>, n: nat)
    requires n > 0
    ensures steps + Pumps(n) == steps + Pumps(n - 1) + [E.Worker(E.NextAction)] + [E.Worker(E.TakePiece)]
  {
  }

  lemma {:induction false} RunPumps(budget: nat, steps: seq<E.Step>, n: nat)
    ensures E.Run(budget, steps + Pumps(n)) == PumpTimes(E.Run(budget, steps), n)
  {
    if n == 0 {
      assert steps + [] == steps;
    } else {
      RunPumps(budget, steps, n - 1);
      var before := steps + Pumps(n - 1);
      PumpsOneMore(steps, n);
      OnePump(budget, before);
    }
  }

  lemma PumpsNext(s: E.State, t: E.State, n: nat)
    requires Pumped(s, t, n) && n < |s.channel.request.items| && !s.open.requestEnded
    requires BodyItems(s.channel.request.items) && OneTerminal(s.channel.request.items)
    ensures Pumped(s, Pump(t), n + 1)
  {
    var q := s.channel.request;
    assert t.channel.request.items == q.items[n..] && q.items[n..][1..] == q.items[n + 1..];
    PumpsOne(t);
  }

  lemma {:induction false} PumpsAll(s: E.State, n: nat)
    requires MaySend(s) && !s.open.requestEnded && n <= |s.channel.request.items|
    requires BodyItems(s.channel.request.items) && OneTerminal(s.channel.request.items)
    ensures Pumped(s, PumpTimes(s, n), n)
  {
    if n > 0 {
      PumpsAll(s, n - 1);
      PumpsNext(s, PumpTimes(s, n - 1), n - 1);
    }
  }

  /**
   Progress: from every run that may send, with a body the fiber has ended, the
   worker sends all of it and its end, by as many looks as there are items queued.
   */
  lemma EndedBodyIsSent(budget: nat, steps: seq<E.Step>)
    requires var s := E.Run(budget, steps); MaySend(s) && s.channel.request.ended
    ensures var s := E.Run(budget, steps);
            var t := E.Run(budget, steps + Pumps(|s.channel.request.items|));
            EndAsked(t.asks) && E.SentBytes(t.asks) == t.written == s.written
  {
    var s := E.Run(budget, steps);
    var n := |s.channel.request.items|;
    Invariant(budget, steps);
    E.SendInvariant(budget, steps);
    RunPumps(budget, steps, n);
    if n > 0 {
      PumpsAll(s, n);
    }
    EndIsPassedOn(budget, steps + Pumps(n));
  }

  /** An exchange closed before the worker looked at it is dropped by the next look at it. */
  lemma ClosedExchangeIsSkipped(budget: nat, steps: seq<E.Step>)
    ensures var s := E.Run(budget, steps);
            s.place == E.Unsent && s.worker == E.Idle && s.channel.resetWanted ==>
              E.Run(budget, steps + [E.Worker(E.BeginStart)]) == s.(place := E.Gone)
  {
    OneMore(budget, steps, E.BeginStart);
  }

  /** Dropped, or about to be, without a word to Envoy. */
  predicate NeverStarts(s: E.State) {
    && s.asks == [] && s.worker == E.Idle
    && (s.place == E.Gone || (s.place == E.Unsent && s.channel.resetWanted))
  }

  lemma StepNeverStarts(s: E.State, step: E.Step)
    requires NeverStarts(s)
    ensures NeverStarts(E.Apply(s, step))
  {
  }

  /** Of an exchange that was closed before the worker looked at it nothing is ever asked. */
  lemma {:induction false} ClosedBeforeStart(budget: nat, steps: seq<E.Step>, more: seq<E.Step>)
    requires var s := E.Run(budget, steps);
             s.place == E.Unsent && s.worker == E.Idle && s.channel.resetWanted
    ensures NeverStarts(E.Run(budget, steps + more))
  {
    if more == [] {
      E.SendInvariant(budget, steps);
      assert steps + more == steps;
    } else {
      ClosedBeforeStart(budget, steps, Front(more));
      FrontOfConcat(steps, more);
      StepNeverStarts(E.Run(budget, steps + Front(more)), Last(more));
    }
  }

  lemma OneMoreOfFiber(budget: nat, steps: seq<E.Step>, f: E.FiberStep)
    ensures E.Run(budget, steps + [E.Fiber(f)]) == E.FiberMoves(E.Run(budget, steps), f)
  {
    assert Front(steps + [E.Fiber(f)]) == steps;
  }

  /** What the fiber writes is queued, as far as there is room, and its end ends the queue. */
  lemma FiberIsHeard(budget: nat, steps: seq<E.Step>, bytes: Bytes)
    ensures var s := E.Run(budget, steps);
            var wrote := E.Run(budget, steps + [E.Fiber(E.Write(bytes))]);
            var finished := E.Run(budget, steps + [E.Fiber(E.FinishWriting)]);
            var q, n := s.channel.request, Min(|bytes|, s.channel.request.Spare());
            && (if q.cancelled || q.ended || n == 0 then wrote == s
                else
                  && wrote.channel.request.items == q.items + [Chunk(bytes[..n])]
                  && wrote.written == s.written + bytes[..n])
            && (if q.cancelled || q.ended then finished == s
                else finished.channel.request.items == q.items + [End] && finished.channel.request.ended)
  {
    OneMoreOfFiber(budget, steps, E.Write(bytes));
    OneMoreOfFiber(budget, steps, E.FinishWriting);
  }

  lemma ThreeCloses(budget: nat, steps: seq<E.Step>)
    ensures var s := E.Run(budget, steps);
            var t := E.Run(budget, steps + [E.Fiber(E.CloseOn)] + [E.Fiber(E.CloseOn)] + [E.Fiber(E.CloseOn)]);
            s.fiber == E.CancellingResponse ==>
              t == s.(channel := s.channel.(response := s.channel.response.Cancel(), request := s.channel.request.Cancel(),
                                            resetWanted := true),
                      fiber := E.Running)
  {
    OneMoreOfFiber(budget, steps, E.CloseOn);
    OneMoreOfFiber(budget, steps + [E.Fiber(E.CloseOn)], E.CloseOn);
    OneMoreOfFiber(budget, steps + [E.Fiber(E.CloseOn)] + [E.Fiber(E.CloseOn)], E.CloseOn);
  }

  /** A close, once begun, cancels both queues and wants the reset, by its own steps. */
  lemma CloseGoesThrough(budget: nat, steps: seq<E.Step>)
    ensures var s := E.Run(budget, steps);
            var begun := steps + [E.Fiber(E.BeginClose(false))];
            var t := E.Run(budget, begun + [E.Fiber(E.CloseOn)] + [E.Fiber(E.CloseOn)] + [E.Fiber(E.CloseOn)]);
            s.fiber == E.Running ==>
              t == s.(channel := s.channel.(response := s.channel.response.Cancel(), request := s.channel.request.Cancel(),
                                            resetWanted := true))
  {
    OneMoreOfFiber(budget, steps, E.BeginClose(false));
    assert E.FiberMoves(E.Run(budget, steps), E.BeginClose(false)).fiber == E.CancellingResponse
           || E.Run(budget, steps).fiber != E.Running;
    ThreeCloses(budget, steps + [E.Fiber(E.BeginClose(false))]);
  }

  /** A time-out marks the exchange first, and then closes it. */
  lemma TimeOutIsMarked(budget: nat, steps: seq<E.Step>)
    ensures var s := E.Run(budget, steps);
            var t := E.Run(budget, steps + [E.Fiber(E.BeginClose(true))] + [E.Fiber(E.CloseOn)]);
            s.fiber == E.Running ==> t == s.(channel := s.channel.(timedOut := true), fiber := E.CancellingResponse)
  {
    OneMoreOfFiber(budget, steps, E.BeginClose(true));
    OneMoreOfFiber(budget, steps + [E.Fiber(E.BeginClose(true))], E.CloseOn);
  }

  /** What becomes of an exchange that Envoy refuses, or takes. */
  predicate Started(s: E.State, t: E.State, refused: bool) {
    var items := s.channel.request.items;
    if refused then
      t.place == E.Gone && t.asks == s.asks && t.todo.terminal == Some(Failed(Upstream)) && t.todo.cancelRequest
    else
      && t.place == E.InTable && t.channel.request.items == (if items == [] then [] else items[1..])
      && t.asks == [E.Begin(if items == [] then [] else BytesOf(items[0]), items != [] && items[0] == End)]
      && (t.open.requestEnded <==> items != [] && items[0] == End)
  }

  lemma Starts(s: E.State, refused: bool)
    requires s.worker == E.Starting && s.todo == E.NOTHING && !s.channel.request.paused
    ensures Started(s, E.OnStart(s, refused), refused)
  {
  }

  /**
   An exchange nobody has closed is started, with the first chunk of its body if
   there is one, and as ended exactly if its end comes first; refused, it fails.
   */
  lemma OpenExchangeStarts(budget: nat, steps: seq<E.Step>, refused: bool)
    ensures var s := E.Run(budget, steps);
            var t := E.Run(budget, steps + [E.Worker(E.BeginStart)] + [E.Worker(E.Start(refused))]);
            s.place == E.Unsent && s.worker == E.Idle && !s.channel.resetWanted ==> s.asks == [] && Started(s, t, refused)
  {
    var s := E.Run(budget, steps);
    Invariant(budget, steps);
    E.Invariant(budget, steps);
    E.SendInvariant(budget, steps);
    OneMore(budget, steps, E.BeginStart);
    OneMore(budget, steps + [E.Worker(E.BeginStart)], E.Start(refused));
    if s.place == E.Unsent && s.worker == E.Idle && !s.channel.resetWanted {
      Starts(s.(worker := E.Starting), refused);
    }
  }
}
