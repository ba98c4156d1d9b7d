/**
 The two ends of a chunk queue that Ruby holds (src/chunks.rs), as a fiber sees
 them while the other side goes on at its own pace.

 Before each call of the fiber's the other side takes a turn, of which `coming`, `pace`
 and `turns` hold every one still to come: all interleavings of one fiber with
 its peer are choices of these turns. A call returns after finitely many turns,
 so nothing is lost by letting a peer that would go on for ever end instead.

 The peer may cancel the queue under its reader instead of ending it. What a
 cancel drops nobody sees, so `coming` holds only items that will be taken, and
 the cancel comes once the last of them was.
 */
module Chunks {
  import opened Basics
  import opened Streams

  /** What `next_chunk` gives: a chunk, nil, or an exception. */
  datatype Pull =
    | Got(bytes: Bytes)
    | Nothing
    | Raised(error: BridgeError)

  /** Items ended by their producer, or cut off by its cancel, after bytes that are taken first. */
  predicate Script(items: seq<Item>) {
    && OneTerminal(items)
    && (items != [] ==> Last(items).Terminal() || BytesOf(Last(items)) != [])
  }

  /** The producer will do nothing more. */
  predicate Spent(queue: Queue) {
    queue.ended || queue.cancelled
  }

  /** A queue, and the items its producer has still to push. */
  predicate Feeding(queue: Queue, coming: seq<Item>) {
    Accounted(queue) && !queue.paused && Script(queue.items + coming) && (Spent(queue) ==> coming == [])
  }

  /** All that was to be taken has been, and the stream has not ended: it is cancelled. */
  predicate CancelDue(queue: Queue, coming: seq<Item>) {
    queue.items == [] && coming == [] && !Spent(queue)
  }

  lemma Arrives(queue: Queue, coming: seq<Item>)
    requires Feeding(queue, coming) && coming != []
    ensures var q := queue.Push(coming[0]).0;
            && Feeding(q, coming[1..])
            && q.items == queue.items + [coming[0]]
            && q.items + coming[1..] == queue.items + coming
  {
    AppendKeepsAccounts(queue, coming[0]);
    var q, script := queue.Append(coming[0]), queue.items + coming;
    assert q.items + coming[1..] == script;
    assert script[|queue.items|] == coming[0];
  }

  lemma Taken(queue: Queue, coming: seq<Item>)
    requires Feeding(queue, coming) && queue.items != []
    ensures var q := queue.TakeNext().0;
            && Feeding(q, coming)
            && queue.items + coming == [queue.items[0]] + (q.items + coming)
  {
    TakeKeepsAccounts(queue);
    var q := queue.TakeNext().0;
    Behind(queue.items, coming);
    ScriptGoesOn(queue.items + coming);
  }

  lemma Behind(items: seq<Item>, coming: seq<Item>)
    requires items != []
    ensures items + coming == [items[0]] + (items[1..] + coming) && items[1..] + coming == (items + coming)[1..]
  {
  }

  lemma ScriptGoesOn(script: seq<Item>)
    requires script != [] && Script(script)
    ensures Script(script[1..])
  {
  }

  /** A reader that would wait for items already there would wait for bytes, and those are none to wait for. */
  lemma NothingWaitedFor(queue: Queue)
    requires Feeding(queue, []) && queue.items != []
    ensures queue.ReadReady()
  {
    assert queue.items + [] == queue.items;
    assert queue.items == Front(queue.items) + [Last(queue.items)];
    ChunkBytesSnoc(Front(queue.items), Last(queue.items));
  }

  /** The failure the items end with, if they do. */
  function FailureIn(items: seq<Item>): Option<BridgeError> {
    if items != [] && Last(items).Failed? then Some(Last(items).error) else None
  }

  /** The reading end. */
  class ChunkSource {
    var queue: Queue
    var coming: seq<Item>
    /** How many items arrive before each of the next calls; one before every later one. */
    var pace: seq<nat>
    /** Wakes of the worker so far, one for every item taken. */
    var wakes: nat

    predicate Valid()
      reads this
    {
      Feeding(queue, coming)
    }

    /** The bytes still to be taken. */
    function Rest(): Bytes
      reads this
    {
      ChunkBytes(queue.items + coming)
    }

    /** The failure the producer ends the stream with, if it is still to be taken. */
    function Unraised(): Option<BridgeError>
      reads this
    {
      FailureIn(queue.items + coming)
    }

    ghost function Size(): nat
      reads this
    {
      |queue.items| + 2 * |coming| + |pace| + if Spent(queue) then 0 else 1
    }

    constructor (items: seq<Item>, pace: seq<nat>, budget: nat)
      requires Script(items)
      ensures Valid() && Rest() == ChunkBytes(items) && queue == NewQueue(budget) && coming == items
    {
      queue := NewQueue(budget);
      coming, this.pace, wakes := items, pace, 0;
      new;
      assert queue.items + coming == items;
    }

    /** Up to `n` items arrive, as many as are still to come. */
    method PushNext(n: nat) returns (left: nat)
      requires Valid()
      modifies this`queue, this`coming
      ensures Valid() && queue.items + coming == old(queue.items + coming)
      ensures Size() <= old(Size()) && left <= n && (left > 0 ==> coming == [])
      ensures if left == n then queue == old(queue) && coming == old(coming) else Size() < old(Size())
    {
      left := n;
      while left > 0 && coming != []
        invariant Valid() && queue.items + coming == old(queue.items + coming) && Size() <= old(Size()) && left <= n
        invariant if left == n then queue == old(queue) && coming == old(coming) else Size() < old(Size())
      {
        Arrives(queue, coming);
        queue := queue.Push(coming[0]).0;
        coming := coming[1..];
        left := left - 1;
      }
    }

    /** The producer's turn. */
    method Arrive()
      requires Valid()
      modifies this
      ensures Valid() && queue.items + coming == old(queue.items + coming) && wakes == old(wakes)
      ensures Size() <= old(Size())
      ensures old(Size()) == Size() ==> coming == [] && old(coming) == [] && !CancelDue(queue, coming)
      ensures old(Spent(queue)) ==> queue == old(queue)
    {
      var n := 1;
      if pace != [] {
        n, pace := pace[0], pace[1..];
      }
      var left := PushNext(n);
      if left > 0 && CancelDue(queue, coming) {
        queue := queue.Cancel();
      }
    }

    /** `take_next` of the queue. */
    method TakeNext() returns (item: Option<Item>)
      requires Valid()
      modifies this
      ensures Valid() && wakes == old(wakes) && Size() <= old(Size())
      ensures item == None ==>
                queue.items + coming == old(queue.items + coming) && queue.items == []
                && (Size() == old(Size()) ==> coming == [] && queue.Finished())
      ensures item != None ==>
                old(queue.items + coming) == [item.value] + (queue.items + coming) && Size() < old(Size())
                && (item.value.Terminal() ==> queue.items + coming == [] && queue.Finished())
    {
      Arrive();
      if queue.items == [] {
        return None;
      }
      Taken(queue, coming);
      item := Some(queue.items[0]);
      queue := queue.TakeNext().0;
    }

    /** One pull: `Rest()` loses exactly the bytes it gives, and `Unraised()` exactly the failure it raises. */
    method NextChunk() returns (pull: Pull)
      requires Valid()
      modifies this
      ensures Valid()
      ensures pull.Got? ==> old(Rest()) == pull.bytes + Rest()
      ensures !pull.Got? ==> old(Rest()) == Rest()
      ensures wakes + |queue.items + coming| == old(wakes + |queue.items + coming|)
      ensures !pull.Got? && Size() == old(Size()) ==> coming == [] && queue.Finished()
      ensures Size() <= old(Size()) && (pull.Got? || pull.Raised? ==> Size() < old(Size()))
      ensures pull.Raised? ==> old(Unraised()) == Some(pull.error) && Unraised() == None && Rest() == [] && queue.Finished()
      ensures !pull.Raised? ==> Unraised() == old(Unraised())
    {
      var item := TakeNext();
      if item == None {
        return Nothing;
      }
      ghost var left := queue.items + coming;
      ChunkBytesCons(item.value, left);
      assert left != [] ==> Last([item.value] + left) == Last(left);
      wakes := wakes + 1;
      match item.value {
        case Chunk(bytes) => pull := Got(bytes);
        case Failed(error) => pull := Raised(error);
        case End => pull := Nothing;
        case Head(_) => pull := Nothing;
      }
    }

    /** True once the producer will send nothing more, though its failure may still be queued. */
    method Finished() returns (finished: bool)
      requires Valid()
      modifies this
      ensures Valid() && Rest() == old(Rest()) && Size() <= old(Size()) && Unraised() == old(Unraised())
      ensures finished == queue.Finished() && (finished ==> Rest() == [])
      ensures finished <==> queue.cancelled || (queue.ended && ChunkBytes(queue.items) == [])
      ensures old(queue.Finished()) ==> finished
    {
      Arrive();
      finished := queue.Finished();
      if finished {
        assert queue.items + coming == queue.items;
      }
    }

    /** Waits until something arrives, if there is reason to wait. */
    method Park()
      requires Valid()
      modifies this
      ensures Valid() && queue.items + coming == old(queue.items + coming) && Rest() == old(Rest())
      ensures Size() <= old(Size()) && queue.ReadReady() && Unraised() == old(Unraised())
    {
      while !queue.ReadReady()
        invariant Valid() && queue.items + coming == old(queue.items + coming) && Size() <= old(Size())
        decreases Size(), !queue.ReadReady()
      {
        if coming == [] && queue.items != [] {
          NothingWaitedFor(queue);
        }
        Arrive();
      }
    }
  }

  // ---------------------------------------------------------------- the writing end

  /** The worker's turn: it takes some items, pauses or resumes, and may find the peer gone. */
  datatype Turn = Turn(takes: nat, paused: bool, gone: bool)

  function TakeMany(q: Queue, n: nat): Queue
    decreases n
  {
    if n == 0 then q else TakeMany(q.TakeNext().0, n - 1)
  }

  /** After its last planned turn the worker keeps up: it takes all there is. */
  function TakeTurn(q: Queue, turns: seq<Turn>): Queue {
    if turns == [] then TakeMany(q.SetPaused(false), |q.items|)
    else if turns[0].gone then q.Cancel()
    else TakeMany(q, turns[0].takes).SetPaused(turns[0].paused)
  }

  lemma {:induction false} TakeManyKeeps(q: Queue, n: nat)
    requires Accounted(q)
    ensures var r := TakeMany(q, n);
            && Accounted(r) && r.ended == q.ended && r.cancelled == q.cancelled && r.paused == q.paused
            && r.capacity == q.capacity
            && (!q.paused && n >= |q.items| ==> r.items == [])
    decreases n
  {
    if n > 0 {
      TakeKeepsAccounts(q);
      TakeManyKeeps(q.TakeNext().0, n - 1);
    }
  }

  /** Taking never ends or revives a queue, and a worker that keeps up leaves it empty. */
  lemma TurnKeeps(q: Queue, turns: seq<Turn>)
    requires Accounted(q)
    ensures var r := TakeTurn(q, turns);
            && Accounted(r) && r.ended == q.ended && (q.cancelled ==> r.cancelled)
            && (turns == [] ==> r.Spare() > 0 && !r.Full() && r.cancelled == q.cancelled)
  {
    TakeManyKeeps(q.SetPaused(false), |q.items|);
    if turns != [] {
      TakeManyKeeps(q, turns[0].takes);
    }
  }

  /** A call of the fiber's on its sink, and what had been accepted before it. */
  datatype Call =
    | Offered(before: Bytes, bytes: Bytes)
    | Finished(before: Bytes, over: bool)

  /** Since `was`, the only calls were offers of what was still missing of `content`. */
  ghost predicate OnlyOffered(was: seq<Call>, calls: seq<Call>, content: Bytes) {
    && was <= calls
    && forall i :: |was| <= i < |calls| ==> calls[i].Offered? && calls[i].before + calls[i].bytes == content
  }

  class ChunkSink {
    var queue: Queue
    var turns: seq<Turn>
    /** Every byte the queue has accepted, and whether its end was among what it accepted. */
    var accepted: Bytes
    var finished: bool
    ghost var calls: seq<Call>

    predicate Valid()
      reads this
    {
      Accounted(queue) && (queue.ended <==> finished)
    }

    predicate Over()
      reads this
    {
      queue.cancelled || queue.ended
    }

    constructor (budget: nat, turns: seq<Turn>)
      ensures Valid() && accepted == [] && !finished && queue == NewQueue(budget) && calls == []
    {
      queue := NewQueue(budget);
      this.turns, accepted, finished, calls := turns, [], false, [];
    }

    method PeerTurn()
      requires Valid()
      modifies this`queue, this`turns
      ensures Valid() && (old(Over()) ==> Over()) && (old(turns) == [] ==> Over() == old(Over()))
      ensures old(queue.cancelled) ==> queue.cancelled
      ensures |turns| <= |old(turns)| && (old(turns) == [] ==> !queue.Full() && queue.Spare() > 0)
      ensures old(turns) != [] ==> |turns| < |old(turns)|
    {
      TurnKeeps(queue, turns);
      queue := TakeTurn(queue, turns);
      turns := if turns == [] then [] else turns[1..];
    }

    method Writable() returns (writable: bool)
      requires Valid()
      modifies this`queue, this`turns
      ensures Valid() && (old(Over()) ==> Over()) && writable == !queue.Full() && |turns| <= |old(turns)|
    {
      PeerTurn();
      writable := !queue.Full();
    }

    /** Waits until there is room or the peer has gone. */
    method Park()
      requires Valid()
      modifies this`queue, this`turns
      ensures Valid() && (old(Over()) ==> Over()) && (!queue.Full() || queue.cancelled) && |turns| <= |old(turns)|
    {
      PeerTurn();
      while queue.Full() && !queue.cancelled
        invariant Valid() && (old(Over()) ==> Over()) && |turns| <= |old(turns)|
        invariant turns == [] && old(turns) == [] ==> !queue.Full()
        decreases |turns|, if queue.Full() then 1 else 0
      {
        PeerTurn();
      }
    }

    /** Accepts a first part of the offer, as long as the room allows; refused if and only if the queue is over. */
    method Write(chunk: Bytes, offset: nat) returns (taken: Option<nat>)
      requires Valid() && offset <= |chunk|
      modifies this`queue, this`turns, this`accepted, this`calls
      ensures Valid() && (old(Over()) ==> taken == None)
      ensures taken == None ==> Over() && accepted == old(accepted)
      ensures taken != None ==>
                offset + taken.value <= |chunk| && accepted == old(accepted) + chunk[offset..offset + taken.value]
      ensures |turns| <= |old(turns)|
      ensures taken == Some(0) && offset < |chunk| ==> |turns| < |old(turns)|
      ensures calls == old(calls) + [Offered(old(accepted), chunk[offset..])]
    {
      PeerTurn();
      calls := calls + [Offered(accepted, chunk[offset..])];
      ApplyKeepsAccounts(queue, OpPushWithinBudget(chunk[offset..]));
      taken := queue.PushWithinBudget(chunk[offset..]).1;
      queue := queue.PushWithinBudget(chunk[offset..]).0;
      if taken != None {
        accepted := accepted + chunk[offset..offset + taken.value];
      }
    }

    /** Closes the log of accepted bytes, unless the peer has cancelled: nothing joins it afterwards. */
    method Finish()
      requires Valid()
      modifies this
      ensures Valid() && Over() && accepted == old(accepted) && (old(finished) ==> finished)
      ensures finished ==> old(finished) || !queue.cancelled
      ensures old(queue.cancelled) ==> queue.cancelled
      ensures !finished ==> queue.cancelled
      ensures calls == old(calls) + [Finished(old(accepted), queue.cancelled || old(finished))]
    {
      PeerTurn();
      calls := calls + [Finished(accepted, queue.cancelled || finished)];
      ApplyKeepsAccounts(queue, OpPush(End));
      finished := queue.Push(End).1 || finished;
      queue := queue.Push(End).0;
    }
  }

  /** What was accepted before, the part taken of the chunk now, and what is offered next. */
  lemma OfferedRest(before: Bytes, chunk: Bytes, offset: nat, taken: nat)
    requires offset + taken <= |chunk|
    ensures before + chunk[..offset] + chunk[offset..] == before + chunk
    ensures before + chunk[..offset] + chunk[offset..offset + taken] == before + chunk[..offset + taken]
  {
    assert chunk == chunk[..offset] + chunk[offset..];
    assert chunk[..offset + taken] == chunk[..offset] + chunk[offset..offset + taken];
  }

  /** One round of `Stream.write`: waits while the queue is full, then offers the rest of the chunk. */
  method WriteOnce(sink: ChunkSink, chunk: Bytes, offset: nat) returns (taken: Option<nat>)
    requires sink.Valid() && offset < |chunk|
    modifies sink`queue, sink`turns, sink`accepted, sink`calls
    ensures sink.Valid() && (old(sink.Over()) ==> sink.Over() && taken == None) && sink.finished == old(sink.finished)
    ensures taken == None ==> sink.Over() && sink.accepted == old(sink.accepted)
    ensures taken != None ==>
              offset + taken.value <= |chunk| && sink.accepted == old(sink.accepted) + chunk[offset..offset + taken.value]
    ensures |sink.turns| <= |old(sink.turns)| && (taken == Some(0) ==> |sink.turns| < |old(sink.turns)|)
    ensures OnlyOffered(old(sink.calls), sink.calls, old(sink.accepted) + chunk[offset..])
  {
    var writable := sink.Writable();
    if !writable {
      sink.Park();
    }
    taken := sink.Write(chunk, offset);
  }

  /**
   `Stream.write`: the accepted bytes grow by the chunk, or by a prefix of it and
   the queue is over. The peer's turns left bound the rounds that accept nothing.
   */
  method WriteWhole(sink: ChunkSink, chunk: Bytes) returns (ok: bool)
    requires sink.Valid()
    modifies sink`queue, sink`turns, sink`accepted, sink`calls
    ensures sink.Valid() && (old(sink.Over()) ==> sink.Over() && sink.accepted == old(sink.accepted))
    ensures ok ==> sink.accepted == old(sink.accepted) + chunk && (chunk != [] ==> !old(sink.Over()))
    ensures !ok ==> sink.Over() && old(sink.accepted) <= sink.accepted < old(sink.accepted) + chunk
    ensures OnlyOffered(old(sink.calls), sink.calls, old(sink.accepted) + chunk) && sink.finished == old(sink.finished)
  {
    var offset: nat := 0;
    while offset < |chunk|
      invariant offset <= |chunk| && sink.Valid() && sink.finished == old(sink.finished)
      invariant sink.accepted == old(sink.accepted) + chunk[..offset]
      invariant OnlyOffered(old(sink.calls), sink.calls, old(sink.accepted) + chunk)
      invariant old(sink.Over()) ==> sink.Over() && offset == 0
      decreases |sink.turns|, |chunk| - offset
    {
      var taken := WriteOnce(sink, chunk, offset);
      OfferedRest(old(sink.accepted), chunk, offset, if taken == None then 0 else taken.value);
      if taken == None {
        return false;
      }
      offset := offset + taken.value;
    }
    assert chunk[..offset] == chunk;
    return true;
  }
}
