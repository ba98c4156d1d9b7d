/**
 The duplex stream of a Rack streaming body and its relay (ruby/stream.rb): what
 was taken from the source and not returned yet is in the buffer, in order.
 */
module Duplex {
  import opened Basics
  import opened Streams
  import opened Chunks

  const RELAY_BYTES: nat := 64 * 1024

  /** What a read gives: a string, nil, or an exception. */
  datatype Answer =
    | Data(bytes: Bytes)
    | Nil
    | EndOfFile
    | Failure(error: BridgeError)
    | NotOpened

  /** What a write gives: how much it wrote, or an exception. */
  datatype Written =
    | Wrote(count: nat)
    | BrokenPipe
    | NotOpenedForWriting

  lemma Divided(s: Bytes, n: nat)
    requires n <= |s|
    ensures s == s[..n] + s[n..]
  {
  }

  lemma NextString(strings: seq<Bytes>, i: nat)
    requires i < |strings|
    ensures Flatten(strings[..i + 1]) == Flatten(strings[..i]) + strings[i]
  {
    assert strings[..i + 1] == strings[..i] + [strings[i]];
    FlattenSnoc(strings[..i], strings[i]);
  }

  lemma SomeStrings(strings: seq<Bytes>, i: nat)
    requires i <= |strings|
    ensures Flatten(strings[..i]) <= Flatten(strings)
  {
    assert strings == strings[..i] + strings[i..];
    FlattenConcat(strings[..i], strings[i..]);
  }

  class Stream {
    const source: ChunkSource
    const sink: ChunkSink
    var buffer: Bytes
    var failure: Option<BridgeError>
    var readClosed: bool
    var writeClosed: bool
    var bytesRead: nat
    var bytesWritten: nat

    /** A recorded failure leaves nothing behind it to take. */
    ghost predicate Valid()
      reads this, source, sink
    {
      && source.Valid() && sink.Valid()
      && (failure != None ==> source.Rest() == [] && source.Unraised() == None)
      && (writeClosed ==> sink.Over())
    }

    /** Every byte still to be returned by a read. */
    function Unread(): Bytes
      reads this, source
    {
      buffer + source.Rest()
    }

    /** The failure recorded, or still to be taken from the source. */
    function Unraised(): Option<BridgeError>
      reads this, source
    {
      if failure != None then failure else source.Unraised()
    }

    /** `finished?` holds: a failure is recorded, or the source will send nothing more. */
    predicate SaidFinished()
      reads this, source
    {
      failure != None || source.queue.Finished()
    }

    constructor (source: ChunkSource, sink: ChunkSink, buffered: Bytes)
      requires source.Valid() && sink.Valid()
      ensures Valid() && this.source == source && this.sink == sink
      ensures Unread() == buffered + source.Rest() && !readClosed && !writeClosed
      ensures bytesRead == 0 && bytesWritten == 0 && failure == None
    {
      this.source, this.sink, buffer := source, sink, buffered;
      failure, readClosed, writeClosed, bytesRead, bytesWritten := None, false, false, 0, 0;
    }

    // ----------------------------------------------------------------- reading

    /** One pull of `drain`: a chunk goes to the buffer, an exception is recorded. */
    method DrainOne() returns (pulled: bool)
      requires Valid() && failure == None
      modifies this`buffer, this`failure, source
      ensures Valid() && Unread() == old(Unread()) && Unraised() == old(Unraised())
      ensures pulled ==> failure == None
      ensures source.Size() <= old(source.Size()) && (pulled ==> source.Size() < old(source.Size()))
      ensures !pulled && failure == None ==> source.Size() < old(source.Size()) || source.queue.Finished()
    {
      var pull := source.NextChunk();
      match pull {
        case Got(bytes) =>
          ConcatIsAssociative(buffer, bytes, source.Rest());
          buffer := buffer + bytes;
        case Raised(error) => failure := Some(error);
        case Nothing =>
      }
      pulled := pull.Got?;
    }

    /** Takes every chunk that is there, up to a failure. */
    method Drain()
      requires Valid()
      modifies this`buffer, this`failure, source
      ensures old(failure) != None ==> failure == old(failure)
      ensures Valid() && Unread() == old(Unread()) && Unraised() == old(Unraised())
      ensures source.Size() <= old(source.Size())
      ensures failure == None ==> source.Size() < old(source.Size()) || source.queue.Finished()
    {
      var pulled := failure == None;
      while pulled
        invariant Valid() && Unread() == old(Unread()) && Unraised() == old(Unraised())
        invariant old(failure) != None ==> failure == old(failure)
        invariant source.Size() <= old(source.Size()) && (pulled ==> failure == None)
        invariant !pulled && failure == None ==> source.Size() < old(source.Size()) || source.queue.Finished()
        decreases source.Size(), pulled
      {
        pulled := DrainOne();
      }
    }

    method Finished() returns (finished: bool)
      requires Valid()
      modifies source
      ensures Valid() && Unread() == old(Unread()) && Unraised() == old(Unraised())
      ensures source.Size() <= old(source.Size())
      ensures failure == old(failure) && (finished ==> source.Rest() == [] && SaidFinished())
      ensures failure != None || old(source.queue.Finished()) ==> finished
    {
      if failure != None {
        return true;
      }
      finished := source.Finished();
    }

    /** `fill { @buffer.bytesize >= enough || finished? }`; without `enough`, until finished. */
    method Fill(enough: Option<nat>)
      requires Valid()
      modifies this`buffer, this`failure, source
      ensures old(failure) != None ==> failure == old(failure)
      ensures Valid() && Unread() == old(Unread()) && Unraised() == old(Unraised())
      ensures (enough != None && |buffer| >= enough.value) || (source.Rest() == [] && SaidFinished())
    {
      while true
        invariant Valid() && Unread() == old(Unread()) && Unraised() == old(Unraised())
        invariant old(failure) != None ==> failure == old(failure)
        decreases source.Size()
      {
        Drain();
        if enough != None && |buffer| >= enough.value {
          break;
        }
        var finished := Finished();
        if finished {
          break;
        }
        source.Park();
      }
    }

    method Give(length: nat) returns (data: Bytes)
      requires Valid() && length <= |buffer|
      modifies this`buffer, this`bytesRead
      ensures Valid() && old(Unread()) == data + Unread() && |data| == length
      ensures old(buffer) == data + buffer && bytesRead == old(bytesRead) + |data|
    {
      data := buffer[..length];
      Divided(buffer, length);
      ConcatIsAssociative(data, buffer[length..], source.Rest());
      buffer := buffer[length..];
      bytesRead := bytesRead + |data|;
    }

    /** No failure was taken from the source, which said that it will send nothing more. */
    predicate EndedQuietly()
      reads this, source
    {
      failure == None && source.queue.Finished()
    }

    /** `read` without a length: everything to the end; a failure only when there is nothing before it. */
    method ReadAll() returns (answer: Answer)
      requires Valid()
      modifies this`buffer, this`failure, this`bytesRead, source
      ensures old(failure) != None ==> failure == old(failure)
      ensures Valid() && Unraised() == old(Unraised())
      ensures readClosed ==> answer == NotOpened && Unread() == old(Unread())
      ensures !readClosed ==>
                match answer
                case Data(bytes) => bytes == old(Unread()) && Unread() == [] && (bytes == [] ==> EndedQuietly())
                case Failure(error) => failure == Some(error) && old(Unread()) == [] && Unread() == []
                case _ => false
      ensures bytesRead == old(bytesRead) + if answer.Data? then |answer.bytes| else 0
    {
      if readClosed {
        return NotOpened;
      }
      Fill(None);
      if buffer == [] && failure != None {
        return Failure(failure.value);
      }
      var data := Give(|buffer|);
      assert data + [] == data;
      return Data(data);
    }

    /** What the reads of at most `length` bytes promise. */
    ghost predicate PartOf(was: Bytes, length: nat, answer: Answer)
      reads this, source
    {
      match answer
      case Data(bytes) => was == bytes + Unread() && |bytes| <= length && (length > 0 ==> bytes != [])
      case Nil => was == [] && Unread() == [] && EndedQuietly()
      case EndOfFile => was == [] && Unread() == [] && EndedQuietly()
      case Failure(error) => failure == Some(error) && was == [] && Unread() == []
      case NotOpened => readClosed && Unread() == was
    }

    /** `read(length)`: exactly `length` bytes, fewer only at the end, then nil or the failure. */
    method Read(length: nat) returns (answer: Answer)
      requires Valid()
      modifies this`buffer, this`failure, this`bytesRead, source
      ensures old(failure) != None ==> failure == old(failure)
      ensures Valid() && Unraised() == old(Unraised()) && PartOf(old(Unread()), length, answer)
      ensures answer.Data? ==> |answer.bytes| == Min(length, |old(Unread())|)
      ensures answer != EndOfFile && (answer == NotOpened <==> readClosed)
      ensures bytesRead == old(bytesRead) + if answer.Data? then |answer.bytes| else 0
    {
      if readClosed {
        return NotOpened;
      }
      if length == 0 {
        return Data([]);
      }
      Fill(Some(length));
      if buffer != [] {
        var data := Give(Min(length, |buffer|));
        return Data(data);
      }
      return if failure != None then Failure(failure.value) else Nil;
    }

    /** `readpartial`: what is there, once something is; then the failure or the end of file. */
    method ReadPartial(length: nat) returns (answer: Answer)
      requires Valid()
      modifies this`buffer, this`failure, this`bytesRead, source
      ensures old(failure) != None ==> failure == old(failure)
      ensures Valid() && Unraised() == old(Unraised()) && PartOf(old(Unread()), length, answer)
      ensures answer != Nil && (answer == NotOpened <==> readClosed)
      ensures bytesRead == old(bytesRead) + if answer.Data? then |answer.bytes| else 0
    {
      if readClosed {
        return NotOpened;
      }
      Fill(Some(1));
      if buffer == [] {
        return if failure != None then Failure(failure.value) else EndOfFile;
      }
      var data := Give(Min(length, |buffer|));
      return Data(data);
    }

    // ----------------------------------------------------------------- writing

    /** One string of `write`. */
    method WriteOne(bytes: Bytes) returns (written: Written)
      requires Valid()
      modifies this`bytesWritten, sink`queue, sink`turns, sink`accepted, sink`calls
      ensures Valid() && written != NotOpenedForWriting && sink.finished == old(sink.finished)
      ensures written.Wrote? ==> written.count == |bytes| && sink.accepted == old(sink.accepted) + bytes
      ensures !written.Wrote? ==>
                sink.Over() && old(sink.accepted) <= sink.accepted < old(sink.accepted) + bytes
      ensures bytesWritten == old(bytesWritten) + if written.Wrote? then |bytes| else 0
    {
      var ok := WriteWhole(sink, bytes);
      if !ok {
        return BrokenPipe;
      }
      bytesWritten := bytesWritten + |bytes|;
      return Wrote(|bytes|);
    }

    /** `write`: the strings flattened are accepted, or a prefix of that and an exception. */
    method Write(strings: seq<Bytes>) returns (written: Written)
      requires Valid()
      modifies this`bytesWritten, sink`queue, sink`turns, sink`accepted, sink`calls
      ensures Valid() && (written == NotOpenedForWriting <==> writeClosed)
      ensures writeClosed ==> sink.accepted == old(sink.accepted)
      ensures written.Wrote? ==> sink.accepted == old(sink.accepted) + Flatten(strings)
      ensures written.Wrote? ==> written.count == |Flatten(strings)| == bytesWritten - old(bytesWritten)
      ensures written == BrokenPipe ==>
                sink.Over() && old(sink.accepted) <= sink.accepted < old(sink.accepted) + Flatten(strings)
    {
      if writeClosed {
        return NotOpenedForWriting;
      }
      var i := 0;
      var sum := 0;
      while i < |strings|
        invariant i <= |strings| && Valid() && !writeClosed
        invariant sink.accepted == old(sink.accepted) + Flatten(strings[..i])
        invariant sum == |Flatten(strings[..i])| && bytesWritten == old(bytesWritten) + sum
      {
        NextString(strings, i);
        SomeStrings(strings, i + 1);
        var one := WriteOne(strings[i]);
        if !one.Wrote? {
          return BrokenPipe;
        }
        sum := sum + one.count;
        i := i + 1;
      }
      assert strings[..i] == strings;
      return Wrote(sum);
    }

    // ----------------------------------------------------------------- closing

    method CloseRead()
      modifies this`readClosed
      ensures readClosed
    {
      readClosed := true;
    }

    /** The sink is over afterwards: nothing written later is accepted. */
    method CloseWrite()
      requires Valid()
      modifies this`writeClosed, sink
      ensures Valid() && writeClosed && sink.accepted == old(sink.accepted)
      ensures sink.finished || sink.queue.cancelled
    {
      if writeClosed {
        return;
      }
      writeClosed := true;
      sink.Finish();
    }

    method Close()
      requires Valid()
      modifies this`readClosed, this`writeClosed, sink
      ensures Valid() && readClosed && writeClosed && sink.accepted == old(sink.accepted)
      ensures Unread() == old(Unread()) && (sink.finished || sink.queue.cancelled)
    {
      CloseRead();
      CloseWrite();
    }
  }

  // ------------------------------------------------------------------- relaying

  /** How one direction of a relay ended. */
  datatype Ending =
    | Going
    | AtEnd
    | PeerGone
    | Broken(cause: Answer)

  predicate Over(ending: Ending) {
    ending == AtEnd || ending == PeerGone
  }

  /**
   Why a direction ended, given whether its two sides were closed when it began:
   `NotOpened` only if one was, the peer being gone only if neither was, and an
   end of file or a failure only of a side open for reading. Nothing else breaks it.
   */
  predicate Why(ending: Ending, readWasClosed: bool, writeWasClosed: bool) {
    match ending
    case Going => true
    case AtEnd => !readWasClosed
    case PeerGone => !readWasClosed && !writeWasClosed
    case Broken(cause) =>
      if cause == NotOpened then readWasClosed || writeWasClosed else cause.Failure? && !readWasClosed
  }

  /** Of what was unread, `handed` was handed over; what was written since is a prefix of it, all if `whole`. */
  predicate Relayed(was: Bytes, handed: Bytes, left: Bytes, before: Bytes, after: Bytes, whole: bool) {
    && was == handed + left
    && before <= after <= before + handed
    && (whole ==> after == before + handed)
  }

  lemma RelayedTwice(was: Bytes, h1: Bytes, mid: Bytes, h2: Bytes, left: Bytes,
                     before: Bytes, between: Bytes, after: Bytes, whole: bool)
    requires Relayed(was, h1, mid, before, between, true) && Relayed(mid, h2, left, between, after, whole)
    ensures Relayed(was, h1 + h2, left, before, after, whole)
  {
    assert h1 + (h2 + left) == h1 + h2 + left;
    assert before + h1 + h2 == before + (h1 + h2);
  }

  /** The write of a round of `copy`, which closes the read side it came from when it fails. */
  method CopyData(from: Stream, to: Stream, data: Bytes) returns (ending: Ending)
    requires from != to && from.source != to.source && from.sink != to.sink && from.Valid() && to.Valid()
    modifies from`readClosed, to`bytesWritten, to.sink`queue, to.sink`turns, to.sink`accepted, to.sink`calls
    ensures from.Valid() && to.Valid() && !ending.AtEnd?
    ensures old(to.sink.accepted) <= to.sink.accepted <= old(to.sink.accepted) + data
    ensures ending.Going? <==> !to.writeClosed && to.sink.accepted == old(to.sink.accepted) + data
    ensures ending.PeerGone? ==> !to.writeClosed && from.readClosed && to.sink.Over()
    ensures ending.Broken? ==> to.writeClosed && ending.cause == NotOpened
    ensures !ending.PeerGone? ==> from.readClosed == old(from.readClosed)
  {
    assert Flatten([data]) == data + Flatten<Byte>([]) == data;
    var written := to.Write([data]);
    if written.Wrote? {
      return Going;
    }
    if written == NotOpenedForWriting {
      return Broken(NotOpened);
    }
    from.CloseRead();
    return PeerGone;
  }

  /** What `copy` does of an exception its read raised: the end of file closes what it fed. */
  method CopyNoMore(to: Stream, answer: Answer) returns (ending: Ending)
    requires to.Valid()
    modifies to`writeClosed, to.sink
    ensures to.Valid() && to.sink.accepted == old(to.sink.accepted)
    ensures ending == if answer.EndOfFile? then AtEnd else Broken(answer)
    ensures ending.AtEnd? ==> to.writeClosed && (to.sink.finished || to.sink.queue.cancelled)
    ensures !ending.AtEnd? ==> to.writeClosed == old(to.writeClosed)
  {
    if answer.EndOfFile? {
      to.CloseWrite();
      return AtEnd;
    }
    return Broken(answer);
  }

  /** One round of `copy`, with what it rescues. */
  method CopyRound(from: Stream, to: Stream) returns (ending: Ending, ghost handed: Bytes)
    requires from != to && from.source != to.source && from.sink != to.sink && from.Valid() && to.Valid()
    modifies from`buffer, from`failure, from`bytesRead, from`readClosed, from.source
    modifies to`bytesWritten, to`writeClosed, to.sink
    ensures from.Valid() && to.Valid()
    ensures Relayed(old(from.Unread()), handed, from.Unread(), old(to.sink.accepted), to.sink.accepted,
                    ending.Going? || ending.AtEnd?)
    ensures Why(ending, old(from.readClosed), old(to.writeClosed))
    ensures ending.Going? <==> handed != [] && !to.writeClosed && to.sink.accepted == old(to.sink.accepted) + handed
    ensures ending.AtEnd? ==> from.Unread() == [] && (to.sink.finished || to.sink.queue.cancelled)
    ensures ending.PeerGone? ==> to.sink.Over()
    ensures from.readClosed == (old(from.readClosed) || ending.PeerGone?)
    ensures to.writeClosed == (old(to.writeClosed) || ending.AtEnd?)
    ensures ending.AtEnd? ==> from.EndedQuietly()
    ensures ending.Broken? && ending.cause.Failure? ==> from.Unread() == [] && from.failure == Some(ending.cause.error)
    ensures from.Unraised() == old(from.Unraised())
  {
    var answer := from.ReadPartial(RELAY_BYTES);
    if answer.Data? {
      handed := answer.bytes;
      ending := CopyData(from, to, answer.bytes);
    } else {
      handed := [];
      ending := CopyNoMore(to, answer);
    }
  }

  /** A round cut short: the fiber is stopped while it writes, after so many writes. */
  method CopyStopped(from: Stream, to: Stream, writes: nat) returns (ghost handed: Bytes)
    requires from != to && from.source != to.source && from.sink != to.sink && from.Valid() && to.Valid()
    modifies from`buffer, from`failure, from`bytesRead, from.source
    modifies to.sink`queue, to.sink`turns, to.sink`accepted, to.sink`calls
    ensures from.Unraised() == old(from.Unraised())
    ensures from.Valid() && to.Valid()
    ensures Relayed(old(from.Unread()), handed, from.Unread(), old(to.sink.accepted), to.sink.accepted, false)
  {
    handed := [];
    var answer := from.ReadPartial(RELAY_BYTES);
    if answer.Data? {
      handed := answer.bytes;
      SendStopped(to, answer.bytes, writes);
    }
  }

  /** The write of such a round. */
  method SendStopped(to: Stream, data: Bytes, writes: nat)
    requires to.Valid()
    modifies to.sink`queue, to.sink`turns, to.sink`accepted, to.sink`calls
    ensures to.Valid() && old(to.sink.accepted) <= to.sink.accepted <= old(to.sink.accepted) + data
  {
    if !to.writeClosed {
      WriteStopped(to.sink, data, writes);
    }
  }

  /** `Stream.write`, stopped after so many writes. */
  method WriteStopped(sink: ChunkSink, chunk: Bytes, writes: nat)
    requires sink.Valid()
    modifies sink`queue, sink`turns, sink`accepted, sink`calls
    ensures sink.Valid() && (old(sink.Over()) ==> sink.Over())
    ensures old(sink.accepted) <= sink.accepted <= old(sink.accepted) + chunk
  {
    var offset: nat := 0;
    for i := 0 to writes
      invariant offset <= |chunk| && sink.Valid() && (old(sink.Over()) ==> sink.Over())
      invariant sink.accepted == old(sink.accepted) + chunk[..offset]
    {
      if offset == |chunk| {
        return;
      }
      var taken := WriteOnce(sink, chunk, offset);
      OfferedRest(old(sink.accepted), chunk, offset, if taken == None then 0 else taken.value);
      if taken == None {
        return;
      }
      offset := offset + taken.value;
    }
  }

  /** Who goes on next while a relay runs: a direction's fiber, or the fiber that waits for their endings. */
  datatype Turn = First | Second | Waiting

  /** How the two directions of a relay have ended, and what either handed over. */
  datatype Progress = Progress(first: Ending, second: Ending)
  {
    predicate Failed() {
      first.Broken? || second.Broken?
    }

    predicate Done() {
      !first.Going? && !second.Going?
    }

    function Count(): nat {
      (if first.Going? then 1 else 0) + (if second.Going? then 1 else 0)
    }

    /** Without turns left, whoever can go on does. */
    function Next(turns: seq<Turn>): Turn {
      if turns != [] then turns[0]
      else if Failed() then Waiting
      else if first.Going? then First
      else Second
    }
  }

  ghost predicate Apart(a: Stream, b: Stream) {
    a != b && a.source != b.source && a.sink != b.sink
  }

  /** Which sides of a stream were closed when the relay began. */
  datatype Shut = Shut(read: bool, write: bool)

  /** A direction closes a side of its own only: what it fed at the end of file, what it read from when the peer has gone. */
  ghost predicate Shutting(from: Stream, to: Stream, ending: Ending, shutFrom: Shut, shutTo: Shut)
    reads from, to
  {
    && Why(ending, shutFrom.read, shutTo.write)
    && from.readClosed == (shutFrom.read || ending.PeerGone?)
    && to.writeClosed == (shutTo.write || ending.AtEnd?)
  }

  /** What one direction of a relay has done since it began. */
  ghost predicate HasRelayed(from: Stream, to: Stream, ending: Ending, was: Bytes, before: Bytes,
                             shutFrom: Shut, shutTo: Shut, handed: Bytes)
    reads from, from.source, to, to.sink
  {
    && Shutting(from, to, ending, shutFrom, shutTo)
    && Relayed(was, handed, from.Unread(), before, to.sink.accepted, ending.Going? || ending.AtEnd?)
    && (ending.AtEnd? ==> to.sink.finished || to.sink.queue.cancelled)
    && (ending.AtEnd? ==> from.Unread() == [] && from.EndedQuietly())
    && (ending.PeerGone? ==> to.sink.Over())
    && (ending.Broken? && ending.cause.Failure? ==> from.Unread() == [] && from.failure == Some(ending.cause.error))
  }

  /** One direction goes on by a round, if it has not ended. */
  method GoOn(from: Stream, to: Stream, ending: Ending, ghost was: Bytes, ghost before: Bytes,
              ghost shutFrom: Shut, ghost shutTo: Shut, ghost handed: Bytes)
    returns (next: Ending, ghost total: Bytes)
    requires Apart(from, to) && from.Valid() && to.Valid()
    requires HasRelayed(from, to, ending, was, before, shutFrom, shutTo, handed)
    modifies from`buffer, from`failure, from`bytesRead, from`readClosed, from.source
    modifies to`bytesWritten, to`writeClosed, to.sink
    ensures from.Valid() && to.Valid()
    ensures HasRelayed(from, to, next, was, before, shutFrom, shutTo, total)
    ensures |from.Unread()| <= |old(from.Unread())| && (ending.Going? || next == ending)
    ensures next.Going? && ending.Going? ==> |from.Unread()| < |old(from.Unread())|
    ensures from.Unraised() == old(from.Unraised())
  {
    next, total := ending, handed;
    if ending.Going? {
      ghost var mid, between := from.Unread(), to.sink.accepted;
      ghost var more;
      next, more := CopyRound(from, to);
      RelayedTwice(was, handed, mid, more, from.Unread(), before, between, to.sink.accepted, next.Going? || next.AtEnd?);
      total := handed + more;
    }
  }

  /** What a relay found of its two streams when it began, and what each handed over since. */
  datatype Ledger = Ledger(wasA: Bytes, wasB: Bytes, beforeA: Bytes, beforeB: Bytes, shutA: Shut, shutB: Shut,
                           fromA: Bytes, fromB: Bytes)

  function ShutOf(s: Stream): Shut
    reads s
  {
    Shut(s.readClosed, s.writeClosed)
  }

  function Began(a: Stream, b: Stream): Ledger
    reads a, a.source, a.sink, b, b.source, b.sink
  {
    Ledger(a.Unread(), b.Unread(), a.sink.accepted, b.sink.accepted, ShutOf(a), ShutOf(b), [], [])
  }

  ghost predicate Relaying(a: Stream, b: Stream, progress: Progress, l: Ledger)
    reads a, a.source, a.sink, b, b.source, b.sink
  {
    && a.Valid() && b.Valid()
    && HasRelayed(a, b, progress.first, l.wasA, l.beforeB, l.shutA, l.shutB, l.fromA)
    && HasRelayed(b, a, progress.second, l.wasB, l.beforeA, l.shutB, l.shutA, l.fromB)
  }

  function Remaining(a: Stream, b: Stream, progress: Progress): nat
    reads a, a.source, b, b.source
  {
    |a.Unread()| + |b.Unread()| + progress.Count()
  }

  /** A turn of the first direction. */
  method FirstTurn(a: Stream, b: Stream, progress: Progress, ghost l: Ledger) returns (next: Progress, ghost m: Ledger)
    requires Apart(a, b) && Relaying(a, b, progress, l)
    modifies a, a.source, b, b.sink
    ensures Relaying(a, b, next, m) && m == l.(fromA := m.fromA) && next.second == progress.second
    ensures a.Unraised() == old(a.Unraised()) && b.Unraised() == old(b.Unraised())
    ensures |a.Unread()| <= |old(a.Unread())| && b.Unread() == old(b.Unread())
    ensures if progress.first.Going? then next.first.Going? ==> |a.Unread()| < |old(a.Unread())|
            else next.first == progress.first
  {
    var ending;
    ghost var handed;
    ending, handed := GoOn(a, b, progress.first, l.wasA, l.beforeB, l.shutA, l.shutB, l.fromA);
    next, m := progress.(first := ending), l.(fromA := handed);
  }

  /** The other way round. */
  function Swapped(p: Progress): Progress {
    Progress(p.second, p.first)
  }

  function SwappedLedger(l: Ledger): Ledger {
    Ledger(l.wasB, l.wasA, l.beforeB, l.beforeA, l.shutB, l.shutA, l.fromB, l.fromA)
  }

  /** One turn of one of the two directions. */
  method TakeTurn(a: Stream, b: Stream, progress: Progress, turn: Turn, ghost l: Ledger)
    returns (next: Progress, ghost m: Ledger)
    requires Apart(a, b) && Relaying(a, b, progress, l)
    modifies a, a.source, a.sink, b, b.source, b.sink
    ensures Relaying(a, b, next, m) && m == l.(fromA := m.fromA, fromB := m.fromB)
    ensures a.Unraised() == old(a.Unraised()) && b.Unraised() == old(b.Unraised())
    ensures progress.Failed() ==> next.Failed()
    ensures Remaining(a, b, next) <= old(Remaining(a, b, progress))
    ensures (turn.First? && progress.first.Going?) || (turn.Second? && progress.second.Going?) ==>
              Remaining(a, b, next) < old(Remaining(a, b, progress))
  {
    next, m := progress, l;
    if turn.First? {
      next, m := FirstTurn(a, b, progress, l);
    } else if turn.Second? {
      next, m := FirstTurn(b, a, Swapped(progress), SwappedLedger(l));
      next, m := Swapped(next), SwappedLedger(m);
    }
  }

  /** An end of file is no failure, and a failure heard is the one the source raised. */
  ghost predicate HowEnded(from: Stream, ending: Ending)
    reads from, from.source
  {
    && (ending.AtEnd? ==> from.Unread() == [] && from.EndedQuietly())
    && (ending.Broken? && ending.cause.Failure? ==> from.Unread() == [] && from.failure == Some(ending.cause.error))
  }

  /** No direction ended without a reason. */
  predicate Reasons(progress: Progress, l: Ledger) {
    Why(progress.first, l.shutA.read, l.shutB.write) && Why(progress.second, l.shutB.read, l.shutA.write)
  }

  /** What a relay promises however it ends. */
  ghost predicate HasEnded(a: Stream, b: Stream, progress: Progress, l: Ledger)
    reads a, a.source, a.sink, b, b.source, b.sink
  {
    && a.Valid() && b.Valid()
    && Relayed(l.wasA, l.fromA, a.Unread(), l.beforeB, b.sink.accepted, progress.first.AtEnd?)
    && Relayed(l.wasB, l.fromB, b.Unread(), l.beforeA, a.sink.accepted, progress.second.AtEnd?)
    && HowEnded(a, progress.first) && HowEnded(b, progress.second)
  }

  /** The end of a relay neither direction of which failed: both streams are closed. */
  method CloseBoth(a: Stream, b: Stream, progress: Progress, ghost l: Ledger)
    requires Apart(a, b) && HasEnded(a, b, progress, l)
    modifies a, a.source, a.sink, b, b.source, b.sink
    ensures HasEnded(a, b, progress, l) && a.readClosed && a.writeClosed && b.readClosed && b.writeClosed
    ensures a.Unraised() == old(a.Unraised()) && b.Unraised() == old(b.Unraised())
  {
    b.Close();
    a.Close();
  }

  /** A direction still going when the other failed is stopped: waiting to read, or after so many writes. */
  method Stop(from: Stream, to: Stream, ending: Ending, ghost other: Ending, writes: Option<nat>,
              ghost was: Bytes, ghost before: Bytes, ghost handed: Bytes)
    returns (ghost total: Bytes)
    requires Apart(from, to) && from.Valid() && to.Valid()
    requires Relayed(was, handed, from.Unread(), before, to.sink.accepted, ending.Going? || ending.AtEnd?)
    requires HowEnded(from, ending) && HowEnded(to, other)
    modifies from`buffer, from`failure, from`bytesRead, from.source
    modifies to.sink`queue, to.sink`turns, to.sink`accepted, to.sink`calls
    ensures from.Valid() && to.Valid()
    ensures Relayed(was, total, from.Unread(), before, to.sink.accepted, ending.AtEnd?)
    ensures from.Unraised() == old(from.Unraised())
    ensures HowEnded(from, ending) && HowEnded(to, other)
    ensures to.Unread() == old(to.Unread()) && from.sink.accepted == old(from.sink.accepted)
    ensures to.Unraised() == old(to.Unraised())
  {
    total := handed;
    if ending.Going? && writes != None {
      ghost var mid, between := from.Unread(), to.sink.accepted;
      ghost var more := CopyStopped(from, to, writes.value);
      RelayedTwice(was, handed, mid, more, from.Unread(), before, between, to.sink.accepted, false);
      total := handed + more;
    }
  }

  /** The end of a relay one direction of which failed: both streams are left open. */
  method StopBoth(a: Stream, b: Stream, progress: Progress, writes: Option<nat>, ghost l: Ledger)
    returns (ghost m: Ledger)
    requires Apart(a, b) && Relaying(a, b, progress, l)
    modifies a, a.source, a.sink, b, b.source, b.sink
    ensures HasEnded(a, b, progress, m) && m == l.(fromA := m.fromA, fromB := m.fromB)
    ensures a.Unraised() == old(a.Unraised()) && b.Unraised() == old(b.Unraised())
    ensures a.readClosed == old(a.readClosed) && a.writeClosed == old(a.writeClosed)
    ensures b.readClosed == old(b.readClosed) && b.writeClosed == old(b.writeClosed)
  {
    ghost var fromA := Stop(a, b, progress.first, progress.second, writes, l.wasA, l.beforeB, l.fromA);
    ghost var fromB := Stop(b, a, progress.second, progress.first, writes, l.wasB, l.beforeA, l.fromB);
    m := l.(fromA := fromA, fromB := fromB);
  }

  /** The two directions, turn by turn, until both have ended or a failure of either is heard. */
  method RunDirections(a: Stream, b: Stream, turns: seq<Turn>) returns (progress: Progress, ghost l: Ledger)
    requires Apart(a, b) && a.Valid() && b.Valid()
    modifies a, a.source, a.sink, b, b.source, b.sink
    ensures Relaying(a, b, progress, l) && (progress.Failed() || progress.Done())
    ensures l == old(Began(a, b)).(fromA := l.fromA, fromB := l.fromB)
    ensures a.Unraised() == old(a.Unraised()) && b.Unraised() == old(b.Unraised())
  {
    progress, l := Progress(Going, Going), Began(a, b);
    ghost var begun := l;
    var left, heard := turns, false;
    while !progress.Done() && !heard
      invariant a.Unraised() == old(a.Unraised()) && b.Unraised() == old(b.Unraised())
      invariant Relaying(a, b, progress, l) && l == begun.(fromA := l.fromA, fromB := l.fromB)
      invariant heard ==> progress.Failed()
      decreases |left|, Remaining(a, b, progress), !heard
    {
      var turn := progress.Next(left);
      left := if left == [] then [] else left[1..];
      progress, l := TakeTurn(a, b, progress, turn, l);
      heard := turn.Waiting? && progress.Failed();
    }
  }

  /**
   `relay`: both directions until both have ended, or until a failure of either is
   heard, which stops the other wherever it is, even in the middle of a write. A
   failure closes nothing; otherwise both streams are closed.
   */
  method Relay(a: Stream, b: Stream, turns: seq<Turn>, writes: Option<nat>)
    returns (progress: Progress, ghost l: Ledger)
    requires Apart(a, b) && a.Valid() && b.Valid()
    modifies a, a.source, a.sink, b, b.source, b.sink
    ensures HasEnded(a, b, progress, l) && Reasons(progress, l) && (progress.Failed() || progress.Done())
    ensures l == old(Began(a, b)).(fromA := l.fromA, fromB := l.fromB)
    ensures a.Unraised() == old(a.Unraised()) && b.Unraised() == old(b.Unraised())
    ensures !progress.Failed() ==> a.readClosed && a.writeClosed && b.readClosed && b.writeClosed
    ensures progress.Failed() ==> a.readClosed == (l.shutA.read || progress.first.PeerGone?)
    ensures progress.Failed() ==> b.writeClosed == (l.shutB.write || progress.first.AtEnd?)
    ensures progress.Failed() ==> b.readClosed == (l.shutB.read || progress.second.PeerGone?)
    ensures progress.Failed() ==> a.writeClosed == (l.shutA.write || progress.second.AtEnd?)
  {
    progress, l := RunDirections(a, b, turns);
    if progress.Failed() {
      l := StopBoth(a, b, progress, writes, l);
    } else {
      CloseBoth(a, b, progress, l);
    }
  }

  /**
   A relay fails for a reason only: a side it needed was closed when it began, or
   one of the two sources raised. Of two open streams that raise nothing it ends
   both directions, by the end of the file or because the peer was gone.
   */
  lemma FailsForAReason(a: Stream, b: Stream, progress: Progress, l: Ledger)
    requires HasEnded(a, b, progress, l) && Reasons(progress, l)
    ensures progress.first.Broken? ==> l.shutA.read || l.shutB.write || a.Unraised() != None
    ensures progress.second.Broken? ==> l.shutB.read || l.shutA.write || b.Unraised() != None
    ensures l.shutA == l.shutB == Shut(false, false) && a.Unraised() == b.Unraised() == None ==> !progress.Failed()
  {
    match progress.first
    case Broken(Failure(_)) =>
    case _ =>
  }

  /** Both directions of a relay ended by the end of what they read: each side wrote exactly what the other had. */
  lemma RelayedWhole(a: Stream, b: Stream, progress: Progress, l: Ledger)
    requires HasEnded(a, b, progress, l)
    ensures progress.first.AtEnd? ==> b.sink.accepted == l.beforeB + l.wasA
    ensures progress.second.AtEnd? ==> a.sink.accepted == l.beforeA + l.wasB
  {
    assert l.fromA + [] == l.fromA;
    assert l.fromB + [] == l.fromB;
  }
}
