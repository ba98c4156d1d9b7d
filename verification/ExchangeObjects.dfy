/**
 The two objects of an upstream exchange as the code has them: the channel the
 fiber and the worker share, and the worker's own record of the stream. Each
 method is the callback of `Exchange` with everything it leaves to do carried
 out at once, which is what happens when the fiber does nothing meanwhile.
 */
module ExchangeObjects {
  import opened Basics
  import opened Streams
  import E = Exchange

  /** Everything a callback leaves to do on the channel, done in order. */
  function CarriedOut(c: E.Channel, todo: E.Todo): E.Channel {
    var afterHead := if todo.head != None then c.response.Push(Head(todo.head.value)).0 else c.response;
    E.Channel(
      if todo.terminal != None then afterHead.Push(todo.terminal.value).0 else afterHead,
      if todo.cancelRequest then c.request.Cancel() else c.request,
      c.resetWanted || todo.wantReset,
      c.timedOut,
      if todo.trailers != None then todo.trailers else c.trailers)
  }

  function SettledOpen(s: E.State): E.OpenStream {
    if s.todo.recordStop then s.open.(responseEnded := true).Settle(s.open.Stopped(s.channel.timedOut)) else s.open
  }

  function Repeat(s: E.State, n: nat): E.State
    decreases n
  {
    if n == 0 then s else Repeat(E.Proceed(s), n - 1)
  }

  function Left(todo: E.Todo): nat {
    (if todo.head != None then 1 else 0) + (if todo.trailers != None then 1 else 0)
    + (if todo.terminal != None then 1 else 0) + (if todo.cancelRequest then 1 else 0)
    + (if todo.wantReset then 1 else 0) + (if todo.recordStop then 1 else 0)
  }

  /** A callback that found the response cancelled has nothing else to do. */
  predicate StopsAlone(todo: E.Todo) {
    todo.recordStop ==> todo == E.NOTHING.(recordStop := true)
  }

  lemma OneLess(s: E.State)
    requires StopsAlone(s.todo) && Left(s.todo) > 0
    ensures var t := E.Proceed(s);
            && Left(t.todo) == Left(s.todo) - 1 && !t.todo.recordStop && t.open == SettledOpen(s)
            && CarriedOut(t.channel, t.todo) == CarriedOut(s.channel, s.todo)
  {
    if s.todo.recordStop {
    } else if s.todo.head != None {
    } else if s.todo.trailers != None {
    } else if s.todo.terminal != None {
    } else if s.todo.cancelRequest {
    } else {
    }
  }

  /** No run leaves anything else to do beside a stop. */
  lemma EveryStopIsAlone(budget: nat, steps: seq<E.Step>)
    ensures StopsAlone(E.Run(budget, steps).todo)
  {
    E.Invariant(budget, steps);
  }

  /** Left alone, the steps of `Exchange` carry a callback out to exactly this. */
  lemma {:induction false} CarryingOnReaches(s: E.State)
    requires StopsAlone(s.todo)
    ensures var t := Repeat(s, Left(s.todo));
            t.channel == CarriedOut(s.channel, s.todo) && t.open == SettledOpen(s) && t.todo == E.NOTHING
    decreases Left(s.todo)
  {
    if Left(s.todo) > 0 {
      OneLess(s);
      CarryingOnReaches(E.Proceed(s));
    }
  }

  function ResetSettled(o: E.OpenStream, timedOut: bool, overflow: bool): E.OpenStream {
    var stopped := if o.resetSent then o.Settle(o.Stopped(timedOut)) else o;
    if overflow then stopped.Settle(E.Refused) else stopped
  }

  /** A piece that does not fit fails the response; one that finds the fiber gone is recorded as a stop. */
  function Cut(s: E.State, bytes: Bytes): E.State {
    var (q, fits) := s.channel.response.PushIfRoom(bytes);
    var t := s.(channel := s.channel.(response := q));
    if fits == None then t.(todo := t.todo.(recordStop := true)) else E.FailResponse(t, UpstreamOverflow)
  }

  /** What a queue that still takes items has gained; one that is over stays as it is. */
  predicate Gains(was: Queue, now: Queue, items: seq<Item>) {
    if was.cancelled || was.ended then now == was
    else
      && now.items == was.items + items && !now.cancelled
      && (now.ended <==> items != [] && Last(items).Terminal())
  }

  class StreamChannel {
    const response: ResponseStream
    const request: ResponseStream
    var resetWanted: bool
    var timedOut: bool
    var trailers: Option<E.Fields>

    ghost predicate Valid()
      reads this, response, request
    {
      response != request && response.Valid() && request.Valid()
    }

    ghost function View(): E.Channel
      reads this, response, request
    {
      E.Channel(response.State(), request.State(), resetWanted, timedOut, trailers)
    }

    constructor (budget: nat)
      ensures Valid() && fresh(response) && fresh(request)
      ensures View() == E.Channel(NewQueue(budget), NewQueue(budget), false, false, None)
    {
      response := new ResponseStream(budget);
      request := new ResponseStream(budget);
      resetWanted, timedOut, trailers := false, false, None;
    }

    /** Both queues are cancelled before the flag is set, so a reset wanted means both are over. */
    method Close()
      requires Valid()
      modifies this, response, request
      ensures Valid()
      ensures View() == old(View()).(response := old(View()).response.Cancel(), request := old(View()).request.Cancel(),
                                     resetWanted := true)
    {
      response.Cancel();
      request.Cancel();
      resetWanted := true;
    }

    method TimeOut()
      requires Valid()
      modifies this, response, request
      ensures Valid()
      ensures View() == old(View()).(response := old(View()).response.Cancel(), request := old(View()).request.Cancel(),
                                     resetWanted := true, timedOut := true)
    {
      timedOut := true;
      Close();
    }

    /** A failure is pushed, and the request side is cancelled before the flag is set. */
    method Fail(error: BridgeError)
      requires Valid()
      modifies this, response, request
      ensures Valid()
      ensures View()
           == CarriedOut(old(View()), E.NOTHING.(terminal := Some(Failed(error)), cancelRequest := true, wantReset := true))
    {
      var _ := response.Push(Failed(error));
      request.Cancel();
      resetWanted := true;
    }
  }

  class OpenStream {
    const channel: StreamChannel
    var outcome: Option<E.Outcome>
    var requestEnded: bool
    var responseEnded: bool
    var resetSent: bool
    var upgraded: bool

    ghost predicate Valid()
      reads this, channel, channel.response, channel.request
    {
      channel.Valid()
    }

    ghost function View(): E.OpenStream
      reads this
    {
      E.OpenStream(outcome, requestEnded, responseEnded, resetSent, upgraded)
    }

    /** The stream in the table, between two callbacks. */
    ghost function State(): E.State
      reads this, channel, channel.response, channel.request
    {
      E.State(channel.View(), View(), E.InTable, E.Idle, E.NOTHING, E.Running, [], [], None)
    }

    ghost predicate Reaches(s: E.State)
      reads this, channel, channel.response, channel.request
    {
      View() == SettledOpen(s) && channel.View() == CarriedOut(s.channel, s.todo)
    }

    constructor (channel: StreamChannel, requestEnded: bool)
      requires channel.Valid()
      ensures Valid() && this.channel == channel && View() == E.OpenStream(None, requestEnded, false, false, false)
    {
      this.channel := channel;
      outcome := None;
      this.requestEnded := requestEnded;
      responseEnded, resetSent, upgraded := false, false, false;
    }

    method SettleOutcome(o: E.Outcome)
      modifies this`outcome
      ensures View() == old(View()).Settle(o)
    {
      if outcome == None {
        outcome := Some(o);
      }
    }

    method End()
      requires Valid()
      modifies this, channel.response
      ensures Valid() && Reaches(E.EndResponse(old(State())))
      ensures Gains(old(channel.response.State()), channel.response.State(), [Streams.End])
    {
      responseEnded := true;
      SettleOutcome(E.Completed);
      var _ := channel.response.Push(Streams.End);
    }

    method Fail(error: BridgeError)
      requires Valid()
      modifies this, channel, channel.response, channel.request
      ensures Valid() && Reaches(E.FailResponse(old(State()), error))
      ensures Gains(old(channel.response.State()), channel.response.State(), [Failed(error)])
    {
      responseEnded := true;
      SettleOutcome(E.OutcomeOf(error));
      channel.Fail(error);
    }

    /** What is kept of a head, and what goes on to the fiber. */
    method TakeHead(head: ResponseHead)
      requires Valid()
      modifies this, channel.response
      ensures Valid() && View() == old(View()).(upgraded := head.status == 101)
      ensures channel.View() == old(channel.View()).(response := old(channel.response.State()).Push(Head(head)).0)
    {
      upgraded := head.status == 101;
      var _ := channel.response.Push(Head(head));
    }

    method HeadersArrived(head: Option<ResponseHead>, end: bool)
      requires Valid()
      modifies this, channel, channel.response, channel.request
      ensures Valid() && Reaches(E.OnHeaders(old(State()), head, end))
      ensures Gains(old(channel.response.State()), channel.response.State(),
                    if old(responseEnded) then [] else if head == None then [Failed(Upstream)]
                    else [Head(head.value)] + if end then [Streams.End] else [])
    {
      if responseEnded {
        return;
      }
      if head == None {
        Fail(Upstream);
        return;
      }
      TakeHead(head.value);
      if end {
        End();
      }
    }

    /** The fiber closed the exchange while the response was still coming. */
    method RecordStop()
      requires Valid()
      modifies this`responseEnded, this`outcome
      ensures Valid() && Reaches(old(State()).(todo := E.NOTHING.(recordStop := true)))
    {
      responseEnded := true;
      SettleOutcome(if channel.timedOut then E.TimedOut else if upgraded then E.Completed else E.Abandoned);
    }

    /** A piece goes on to the fiber, or does not fit, or finds it gone. */
    method PieceArrived(bytes: Bytes) returns (fits: Option<bool>)
      requires Valid() && bytes != []
      modifies this, channel, channel.response, channel.request
      ensures Valid() && fits == old(channel.response.State()).PushIfRoom(bytes).1
      ensures fits == Some(true) ==>
                && View() == old(View())
                && channel.View() == old(channel.View()).(response := old(channel.response.State()).PushIfRoom(bytes).0)
      ensures fits != Some(true) ==> Reaches(Cut(old(State()), bytes))
      ensures Gains(old(channel.response.State()), channel.response.State(),
                    if fits == Some(false) then [Failed(UpstreamOverflow)] else [Chunk(bytes)])
    {
      fits := channel.response.PushChunkIfRoom(bytes);
      if fits == Some(false) {
        Fail(UpstreamOverflow);
      } else if fits == None {
        RecordStop();
      }
    }

    /** A piece that is empty, or was queued, may be the last. */
    method EndIf(end: bool)
      requires Valid()
      modifies this, channel.response
      ensures Valid() && Reaches(if end then E.EndResponse(old(State())) else old(State()))
      ensures Gains(old(channel.response.State()), channel.response.State(), if end then [Streams.End] else [])
    {
      if end {
        End();
      }
    }

    /** A piece with bytes, for a response that is still open. */
    method BytesArrived(bytes: Bytes, end: bool) returns (overflowed: bool)
      requires Valid() && bytes != [] && !responseEnded
      modifies this, channel, channel.response, channel.request
      ensures Valid() && Reaches(E.OnData(old(State()), bytes, end))
      ensures overflowed == (old(channel.response.State()).PushIfRoom(bytes).1 == Some(false))
      ensures Gains(old(channel.response.State()), channel.response.State(),
                    if overflowed then [Failed(UpstreamOverflow)] else [Chunk(bytes)] + if end then [Streams.End] else [])
    {
      var fits := PieceArrived(bytes);
      if fits == Some(true) {
        EndIf(end);
      }
      return fits == Some(false);
    }

    /** True when the piece did not fit and the worker must reset the stream. */
    method DataArrived(bytes: Bytes, end: bool) returns (overflowed: bool)
      requires Valid()
      modifies this, channel, channel.response, channel.request
      ensures Valid() && Reaches(E.OnData(old(State()), bytes, end))
      ensures overflowed == (!old(responseEnded) && bytes != []
                             && old(channel.response.State()).PushIfRoom(bytes).1 == Some(false))
      ensures Gains(old(channel.response.State()), channel.response.State(),
                    if old(responseEnded) then [] else if overflowed then [Failed(UpstreamOverflow)]
                    else (if bytes == [] then [] else [Chunk(bytes)]) + if end then [Streams.End] else [])
    {
      if responseEnded {
        return false;
      }
      if bytes != [] {
        overflowed := BytesArrived(bytes, end);
        return;
      }
      EndIf(end);
      return false;
    }

    method TrailersArrived(trailers: E.Fields)
      requires Valid()
      modifies this, channel, channel.response
      ensures Valid() && Reaches(E.OnTrailers(old(State()), trailers))
      ensures Gains(old(channel.response.State()), channel.response.State(),
                    if old(responseEnded) then [] else [Streams.End])
      ensures channel.trailers == if old(responseEnded) then old(channel.trailers) else Some(trailers)
    {
      if responseEnded {
        return;
      }
      channel.trailers := Some(trailers);
      End();
    }

    /** A response that has not ended ends well; one that has is left as it is. */
    method EndOnce()
      requires Valid()
      modifies this, channel.response
      ensures Valid() && Reaches(if old(responseEnded) then old(State()) else E.EndResponse(old(State())))
      ensures Gains(old(channel.response.State()), channel.response.State(),
                    if old(responseEnded) then [] else [Streams.End])
      ensures outcome == if old(responseEnded) || old(outcome) != None then old(outcome) else Some(E.Completed)
    {
      if !responseEnded {
        End();
      }
    }

    method Completed()
      requires Valid()
      modifies this, channel.response, channel.request
      ensures Valid() && Reaches(E.OnCompleted(old(State())))
      ensures Gains(old(channel.response.State()), channel.response.State(),
                    if old(responseEnded) then [] else [Streams.End])
      ensures outcome == if old(responseEnded) || old(outcome) != None then old(outcome) else Some(E.Completed)
    {
      EndOnce();
      channel.request.Cancel();
    }

    /** A response that has not ended fails; one that has is left as it is. */
    method LeaveFailed()
      requires Valid()
      modifies this, channel, channel.response, channel.request
      ensures Valid()
      ensures var s := old(State()); Reaches(E.Leave(if s.open.responseEnded then s else E.FailResponse(s, Upstream)))
      ensures Gains(old(channel.response.State()), channel.response.State(),
                    if old(responseEnded) then [] else [Failed(Upstream)])
    {
      if !responseEnded {
        Fail(Upstream);
      }
      channel.request.Cancel();
    }

    /** What a reset says of the outcome, if none is set: the fiber asked for it, or Envoy refused the stream. */
    method SettleReset(overflow: bool)
      modifies this`outcome
      ensures View() == ResetSettled(old(View()), channel.timedOut, overflow)
    {
      if resetSent && outcome == None {
        outcome := Some(if channel.timedOut then E.TimedOut else if upgraded then E.Completed else E.Abandoned);
      }
      if overflow {
        SettleOutcome(E.Refused);
      }
    }

    method ResetByEnvoy(overflow: bool)
      requires Valid()
      modifies this, channel, channel.response, channel.request
      ensures Valid() && Reaches(E.OnReset(old(State()), overflow))
      ensures Gains(old(channel.response.State()), channel.response.State(),
                    if old(responseEnded) then [] else [if old(upgraded) && !old(resetSent) then Streams.End else Failed(Upstream)])
      ensures !old(upgraded) && old(outcome) == None ==> outcome != Some(E.Completed)
      ensures !old(upgraded) && old(outcome) == None && !old(responseEnded) && !old(resetSent) ==>
                outcome == Some(if overflow then E.Refused else E.WasReset)
    {
      if upgraded && !resetSent {
        Completed();
        return;
      }
      SettleReset(overflow);
      LeaveFailed();
    }

    method Abandon()
      requires Valid()
      modifies this, channel, channel.response, channel.request
      ensures Valid() && Reaches(E.OnAbandon(old(State())))
      ensures Gains(old(channel.response.State()), channel.response.State(),
                    if old(responseEnded) then [] else [Failed(Upstream)])
    {
      SettleOutcome(if upgraded then E.Completed else E.Abandoned);
      LeaveFailed();
    }

    /** The two steps `NextAction` and `TakePiece` at once: at most one ask. */
    method NextAction() returns (action: Option<E.Ask>)
      requires Valid()
      modifies this, channel.request
      ensures Valid()
      ensures var s := E.WorkerMoves(old(State()), E.NextAction);
              var t := E.WorkerMoves(s, E.TakePiece);
              && View() == t.open && channel.View() == t.channel
              && t.asks == if action == None then [] else [action.value]
      ensures action == Some(E.ResetStream) <==> channel.resetWanted && !old(resetSent)
      ensures !channel.resetWanted && !requestEnded && !channel.request.paused && old(channel.request.items) != [] ==>
                channel.request.items == old(channel.request.items)[1..]
      ensures requestEnded == (old(requestEnded) || action == Some(E.Finish))
    {
      if channel.resetWanted {
        if resetSent {
          return None;
        }
        resetSent := true;
        return Some(E.ResetStream);
      }
      if requestEnded {
        return None;
      }
      var item := channel.request.TakeNext();
      if item == None {
        return None;
      }
      match item.value {
        case Chunk(bytes) => return Some(E.Piece(bytes));
        case End =>
          requestEnded := true;
          return Some(E.Finish);
        case Head(_) => return None;
        case Failed(_) => return None;
      }
    }
  }
}
