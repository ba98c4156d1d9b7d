/**
 `forward_request_body` and `copy_body` as the worker runs them
 (crates/ruvoy-envoy-fiber/src/worker.rs): loops over the slices of Envoy's two
 request buffers, pushing into the request queue and draining what was pushed.
 `RequestFlow` says what happens when the reader runs in between.
 */
module Forwarding {
  import opened Basics
  import opened Streams

  /** Envoy's slices, none of them empty: `copy_body` stops at the first empty one. */
  predicate Slices(buffers: seq<Bytes>) {
    forall i :: 0 <= i < |buffers| ==> buffers[i] != []
  }

  /** The slices left once the first `n` bytes are drained. */
  function Drained(buffers: seq<Bytes>, n: nat): (left: seq<Bytes>)
    requires Slices(buffers) && n <= |Flatten(buffers)|
    ensures Slices(left) && Flatten(left) == Flatten(buffers)[n..]
  {
    if n == 0 then buffers
    else if n >= |buffers[0]| then
      assert Slices(buffers[1..]);
      assert Flatten(buffers) == buffers[0] + Flatten(buffers[1..]);
      Drained(buffers[1..], n - |buffers[0]|)
    else
      assert Slices(buffers[1..]);
      var left := [buffers[0][n..]] + buffers[1..];
      assert left[1..] == buffers[1..];
      assert Flatten(left) == buffers[0][n..] + Flatten(buffers[1..]);
      assert Flatten(buffers) == buffers[0] + Flatten(buffers[1..]);
      left
  }

  /** Copying up to `limit` bytes of `from`: the queue gains them, in order, and they leave the buffer. */
  predicate Copied(from: Bytes, left: Bytes, before: Bytes, after: Bytes, limit: nat) {
    var n := Min(limit, |from|);
    after == before + from[..n] && left == from[n..]
  }

  lemma NothingCopied(from: Bytes, queued: Bytes, limit: nat)
    requires limit == 0 || from == []
    ensures Copied(from, from, queued, queued, limit)
  {
    assert queued + from[..0] == queued;
  }

  /** The slices before `i` have been copied, as far as `limit` goes: `copied` bytes. */
  predicate Copying(buffers: seq<Bytes>, i: nat, copied: nat, before: Bytes, now: Bytes, limit: nat) {
    var all := Flatten(buffers);
    && i <= |buffers| && copied <= Min(limit, |all|) && now == before + all[..copied]
    && (copied < limit ==> all[copied..] == Flatten(buffers[i..]))
  }

  lemma CopyingBegins(buffers: seq<Bytes>, before: Bytes, limit: nat)
    ensures Copying(buffers, 0, 0, before, before, limit)
  {
    assert before + [] == before && buffers[0..] == buffers;
  }

  /** One more slice, as much of it as fits. */
  lemma CopyingGoesOn(buffers: seq<Bytes>, i: nat, copied: nat, before: Bytes, now: Bytes, limit: nat)
    requires Copying(buffers, i, copied, before, now, limit) && i < |buffers| && copied < limit
    ensures var take := Min(|buffers[i]|, limit - copied);
            Copying(buffers, i + 1, copied + take, before, now + buffers[i][..take], limit)
  {
    var all, take := Flatten(buffers), Min(|buffers[i]|, limit - copied);
    assert buffers[i..][1..] == buffers[i + 1..];
    assert all == all[..copied] + (buffers[i] + Flatten(buffers[i + 1..]));
    assert all[..copied + take] == all[..copied] + buffers[i][..take];
    ConcatIsAssociative(before, all[..copied], buffers[i][..take]);
  }

  lemma CopyingEnds(buffers: seq<Bytes>, i: nat, copied: nat, before: Bytes, now: Bytes, limit: nat)
    requires Copying(buffers, i, copied, before, now, limit) && (i == |buffers| || copied == limit)
    ensures copied == Min(limit, |Flatten(buffers)|) && now == before + Flatten(buffers)[..copied]
  {
  }

  /** Two copies in a row, the second only of what still fits, copy a prefix of the two buffers in a row. */
  lemma CopiedInOrder(kept: Bytes, frame: Bytes, keptLeft: Bytes, frameLeft: Bytes,
                      before: Bytes, between: Bytes, after: Bytes, limit: nat)
    requires Copied(kept, keptLeft, before, between, limit)
    requires Copied(frame, frameLeft, between, after, limit - Min(limit, |kept|))
    ensures Copied(kept + frame, keptLeft + frameLeft, before, after, limit)
  {
    if limit <= |kept| {
      assert (kept + frame)[..limit] == kept[..limit];
      assert (kept + frame)[limit..] == kept[limit..] + frame;
    } else {
      var more := Min(limit - |kept|, |frame|);
      assert (kept + frame)[..|kept| + more] == kept + frame[..more];
      ConcatIsAssociative(before, kept, frame[..more]);
    }
  }

  /** A queue that still takes what is pushed. */
  predicate Accepting(q: Queue) {
    !q.cancelled && !q.ended
  }

  class RequestBuffers {
    var retained: seq<Bytes>
    var received: seq<Bytes>
    /** A filter ahead re-delivers what it buffered: the frame is the retained buffer itself. */
    var aliased: bool

    constructor (retained: seq<Bytes>, received: seq<Bytes>, aliased: bool)
      requires Slices(retained) && Slices(received) && (aliased ==> received == [])
      ensures Valid() && this.retained == retained && this.received == received && this.aliased == aliased
    {
      this.retained, this.received, this.aliased := retained, received, aliased;
    }

    predicate Valid()
      reads this
    {
      Slices(retained) && Slices(received) && (aliased ==> received == [])
    }

    /** Every byte Envoy holds, oldest first, each once. */
    function Held(): Bytes
      reads this
    {
      Flatten(retained) + Flatten(received)
    }

    static method PushSlice(stream: ResponseStream, chunk: Bytes)
      requires stream.Valid() && Accepting(stream.State())
      modifies stream
      ensures stream.Valid() && Accepting(stream.State())
      ensures stream.bufferedBytes == old(stream.bufferedBytes) + |chunk|
      ensures ChunkBytes(stream.items) == old(ChunkBytes(stream.items)) + chunk
    {
      ChunkBytesSnoc(stream.items, Chunk(chunk));
      var _ := stream.Push(Chunk(chunk));
    }

    /** Pushes up to `limit` bytes of the slices, one chunk a slice. */
    static method PushSlices(buffers: seq<Bytes>, limit: nat, stream: ResponseStream) returns (copied: nat)
      requires Slices(buffers) && stream.Valid() && Accepting(stream.State())
      modifies stream
      ensures stream.Valid() && Accepting(stream.State())
      ensures copied == Min(limit, |Flatten(buffers)|)
      ensures stream.bufferedBytes == old(stream.bufferedBytes) + copied
      ensures ChunkBytes(stream.items) == old(ChunkBytes(stream.items)) + Flatten(buffers)[..copied]
    {
      copied := 0;
      var i := 0;
      ghost var before := ChunkBytes(stream.items);
      CopyingBegins(buffers, before, limit);
      while i < |buffers|
        invariant stream.Valid() && Accepting(stream.State())
        invariant stream.bufferedBytes == old(stream.bufferedBytes) + copied
        invariant Copying(buffers, i, copied, before, ChunkBytes(stream.items), limit)
      {
        var take := Min(|buffers[i]|, limit - copied);
        if take == 0 {
          break;
        }
        CopyingGoesOn(buffers, i, copied, before, ChunkBytes(stream.items), limit);
        PushSlice(stream, buffers[i][..take]);
        copied := copied + take;
        i := i + 1;
      }
      CopyingEnds(buffers, i, copied, before, ChunkBytes(stream.items), limit);
    }

    /** The chosen buffer loses exactly the prefix that the queue gains; the other is untouched. */
    method CopyBody(fromRetained: bool, limit: nat, stream: ResponseStream) returns (copied: nat)
      requires Valid() && stream.Valid()
      requires limit == 0 || Accepting(stream.State())
      modifies this, stream
      ensures Valid() && stream.Valid() && aliased == old(aliased)
      ensures if limit == 0 then stream.State() == old(stream.State()) else Accepting(stream.State())
      ensures stream.bufferedBytes == old(stream.bufferedBytes) + copied
      ensures copied == Min(limit, |Flatten(if fromRetained then old(retained) else old(received))|)
      ensures Copied(Flatten(if fromRetained then old(retained) else old(received)),
                     Flatten(if fromRetained then retained else received),
                     old(ChunkBytes(stream.items)), ChunkBytes(stream.items), limit)
      ensures if fromRetained then received == old(received) else retained == old(retained)
    {
      var buffers := if fromRetained then retained else received;
      if limit == 0 {
        NothingCopied(Flatten(buffers), ChunkBytes(stream.items), 0);
        return 0;
      }
      copied := PushSlices(buffers, limit, stream);
      if copied > 0 {
        if fromRetained {
          retained := Drained(retained, copied);
        } else {
          received := Drained(received, copied);
        }
      }
    }

    /** Two copies in a row take one prefix of `Held()`: the second starts only where the first emptied its buffer. */
    method CopyBoth(room: nat, stream: ResponseStream) returns (copied: nat)
      requires Valid() && stream.Valid() && (room == 0 || Accepting(stream.State()))
      requires room <= |Held()|
      modifies this, stream
      ensures Valid() && stream.Valid()
      ensures if room == 0 then stream.State() == old(stream.State()) else Accepting(stream.State())
      ensures copied == room && stream.bufferedBytes == old(stream.bufferedBytes) + room
      ensures Copied(old(Held()), Held(), old(ChunkBytes(stream.items)), ChunkBytes(stream.items), room)
    {
      ghost var kept, frame, before := Flatten(retained), Flatten(received), ChunkBytes(stream.items);
      copied := CopyBody(true, room, stream);
      ghost var keptLeft, between := Flatten(retained), ChunkBytes(stream.items);
      if copied < room && !aliased {
        var more := CopyBody(false, room - copied, stream);
        copied := copied + more;
      } else {
        NothingCopied(frame, between, room - copied);
      }
      CopiedInOrder(kept, frame, keptLeft, Flatten(received), before, between, ChunkBytes(stream.items), room);
    }

    /** The end follows the last byte held, which a queue that has ended is past. */
    method PushEndOnceEmpty(stream: ResponseStream, endPending: bool) returns (ended: bool)
      requires Valid() && stream.Valid() && !stream.State().cancelled
      modifies stream
      ensures stream.Valid() && !stream.State().cancelled && ended == (endPending && |Held()| == 0)
      ensures stream.ended == (old(stream.ended) || ended) && stream.bufferedBytes == old(stream.bufferedBytes)
      ensures ChunkBytes(stream.items) == old(ChunkBytes(stream.items))
      ensures old(stream.ended) ==> stream.State() == old(stream.State())
    {
      ended := endPending && |Flatten(retained)| == 0 && |Flatten(received)| == 0;
      if ended {
        ChunkBytesSnoc(stream.items, End);
        var _ := stream.Push(End);
      }
    }

    /**
     One pass of forwarding: the first bytes Envoy holds, as many as the queue
     has room for, join the queue in order; the rest stays; and the end follows
     exactly when it is pending and nothing stays. The reader is woken when
     anything was queued. A pass behind the end finds nothing held and changes nothing.
     */
    method ForwardRequestBody(stream: ResponseStream, endPending: bool)
      returns (stillPending: bool, woken: bool)
      requires Valid() && stream.Valid()
      requires !stream.State().cancelled && (stream.State().ended ==> Held() == [])
      modifies this, stream
      ensures Valid() && stream.Valid() && !stream.State().cancelled
      ensures var room := Min(|old(Held())|, old(stream.State()).Spare());
              var ends := endPending && room == |old(Held())|;
              && ChunkBytes(stream.items) == old(ChunkBytes(stream.items)) + old(Held())[..room]
              && Held() == old(Held())[room..]
              && stream.ended == (old(stream.ended) || ends)
              && woken == (room > 0 || ends)
              && stillPending == (endPending && !ends)
      ensures old(stream.ended) ==> stream.State() == old(stream.State())
      ensures old(stream.bufferedBytes) <= stream.maxBufferedBytes ==> stream.bufferedBytes <= stream.maxBufferedBytes
    {
      var spare := stream.SpareCapacity();
      var receivedSize := if aliased then 0 else |Flatten(received)|;
      var room := Min(|Flatten(retained)| + receivedSize, spare);
      var copied := CopyBoth(room, stream);
      var ended := PushEndOnceEmpty(stream, endPending);
      stillPending := endPending && !ended;
      woken := copied > 0 || ended;
    }
  }

  /** The same pass, for a caller who minds the end alone: it is passed on exactly when all that is held fits. */
  method PassEnd(buffers: RequestBuffers, stream: ResponseStream, endPending: bool)
    returns (stillPending: bool, woken: bool)
    requires buffers.Valid() && stream.Valid()
    requires !stream.State().cancelled && (stream.State().ended ==> buffers.Held() == [])
    modifies buffers, stream
    ensures buffers.Valid() && stream.Valid() && !stream.State().cancelled
    ensures stillPending == (endPending && |old(buffers.Held())| > old(stream.State()).Spare())
    ensures endPending && !stillPending ==> stream.State().ended && woken
  {
    stillPending, woken := buffers.ForwardRequestBody(stream, endPending);
  }
}
