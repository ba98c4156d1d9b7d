/**
 The Rack input over a request body that is still arriving
 (ruby/request_body.rb): a byte sequence and a position, whatever the chunks, on
 both sides of the spill from memory to a file.
 */
module RackInput {
  import opened Basics
  import opened Streams
  import opened Chunks

  const READ_SIZE: nat := 64 * 1024
  const KEPT_IN_MEMORY: nat := 128 * 1024

  /** What a method gives: a string, nil, or the IOError of an input that was handed over. */
  datatype Answer =
    | Bytes(bytes: Basics.Bytes)
    | Nil
    | HandedOver

  // ------------------------------------------------------------ the separator

  /** The separator starts at `i`. */
  predicate At(s: Basics.Bytes, separator: Basics.Bytes, i: nat) {
    i + |separator| <= |s| && s[i..i + |separator|] == separator
  }

  /** `i` is the least place from `from` on that holds the separator. */
  predicate FirstAt(s: Basics.Bytes, separator: Basics.Bytes, from: nat, i: nat) {
    from <= i && At(s, separator, i) && forall j :: from <= j < i ==> !At(s, separator, j)
  }

  predicate NowhereIn(s: Basics.Bytes, separator: Basics.Bytes, from: nat, to: int) {
    forall j :: from <= j < to ==> !At(s, separator, j)
  }

  /** What `gets` returns of a whole body: through the first separator, or the rest. */
  ghost predicate IsLine(whole: Basics.Bytes, position: nat, separator: Basics.Bytes, line: Basics.Bytes)
    requires position <= |whole|
  {
    if exists i: nat :: FirstAt(whole, separator, position, i) then
      exists i: nat :: FirstAt(whole, separator, position, i) && line == whole[position..i + |separator|]
    else line == whole[position..]
  }

  lemma SliceOfSlice<T>(s: seq<T>, from: nat, to: nat, k: nat, n: nat)
    requires from + k + n <= to <= |s|
    ensures s[from..to][k..k + n] == s[from + k..from + k + n]
  {
    var a, b := s[from..to][k..k + n], s[from + k..from + k + n];
    assert |a| == |b|;
    assert forall i :: 0 <= i < n ==> a[i] == b[i];
  }

  /** The bytes a window shows are the bytes there, so a separator inside it is one in the whole. */
  lemma WindowAt(s: Basics.Bytes, separator: Basics.Bytes, from: nat, to: nat, k: nat)
    requires from <= to <= |s|
    ensures At(s[from..to], separator, k) <==> from + k + |separator| <= to && At(s, separator, from + k)
  {
    if from + k + |separator| <= to {
      SliceOfSlice(s, from, to, k, |separator|);
    }
  }

  /** A longer body has the same separators where the shorter one could hold them. */
  lemma PrefixAt(s: Basics.Bytes, whole: Basics.Bytes, separator: Basics.Bytes, i: nat)
    requires s <= whole && i + |separator| <= |s|
    ensures At(s, separator, i) <==> At(whole, separator, i)
  {
    assert s[i..i + |separator|] == whole[i..i + |separator|];
  }

  /** `String#index`: the first place, if there is one. */
  method IndexOf(s: Basics.Bytes, separator: Basics.Bytes) returns (index: Option<nat>)
    ensures index != None ==> FirstAt(s, separator, 0, index.value)
    ensures index == None ==> NowhereIn(s, separator, 0, |s| + 1)
  {
    var i := 0;
    while i + |separator| <= |s|
      invariant NowhereIn(s, separator, 0, i)
    {
      if s[i..i + |separator|] == separator {
        return Some(i);
      }
      i := i + 1;
    }
    return None;
  }

  /** A line is one function of the body and the position: how the body was chunked cannot show. */
  lemma OneLine(whole: Basics.Bytes, position: nat, separator: Basics.Bytes, a: Basics.Bytes, b: Basics.Bytes)
    requires position <= |whole|
    requires IsLine(whole, position, separator, a) && IsLine(whole, position, separator, b)
    ensures a == b && a <= whole[position..]
  {
    if exists i: nat :: FirstAt(whole, separator, position, i) {
      var i: nat :| FirstAt(whole, separator, position, i) && a == whole[position..i + |separator|];
      var j: nat :| FirstAt(whole, separator, position, j) && b == whole[position..j + |separator|];
      assert i == j;
    }
  }

  // ----------------------------------------------------------- what a read gives

  /** At most `length` bytes from the position on, fewer only at the end. */
  function ReadOf(whole: Basics.Bytes, from: nat, length: nat): Basics.Bytes
    requires from <= |whole|
  {
    whole[from..from + Min(length, |whole| - from)]
  }

  function AnswerTo(whole: Basics.Bytes, from: nat, length: nat, handedOver: bool): Answer
    requires from <= |whole|
  {
    if length == 0 then Bytes([])
    else if handedOver then HandedOver
    else if from == |whole| then Nil
    else Bytes(ReadOf(whole, from, length))
  }

  lemma ReadOfPrefix(stored: Basics.Bytes, whole: Basics.Bytes, from: nat, length: nat)
    requires stored <= whole && from <= |stored| && (length <= |stored| - from || stored == whole)
    ensures ReadOf(whole, from, length) == ReadOf(stored, from, length)
  {
    if stored != whole {
      assert stored[from..from + length] == whole[from..from + length];
    }
  }

  /** Full pieces but for a shorter last one, that are together the bytes. */
  predicate Pieces(pieces: seq<Basics.Bytes>, bytes: Basics.Bytes) {
    && Flatten(pieces) == bytes
    && (forall i :: 0 <= i < |pieces| ==> 0 < |pieces[i]| <= READ_SIZE)
    && (forall i :: 0 <= i < |pieces| - 1 ==> |pieces[i]| == READ_SIZE)
  }

  /** One window of the search: overlapping the next by all but one byte of a separator, it misses none. */
  lemma WindowSearched(s: Basics.Bytes, separator: Basics.Bytes, from: nat, found: Option<nat>)
    requires from < |s|
    requires var window := ReadOf(s, from, READ_SIZE + |separator| - 1);
             && (found != None ==> FirstAt(window, separator, 0, found.value))
             && (found == None ==> NowhereIn(window, separator, 0, |window| + 1))
    ensures found != None ==> FirstAt(s, separator, from, from + found.value)
    ensures found == None ==> NowhereIn(s, separator, from, Min(from + READ_SIZE, |s|))
  {
    var to := from + Min(READ_SIZE + |separator| - 1, |s| - from);
    forall j: nat | from <= j <= to
      ensures At(s[from..to], separator, j - from) <==> j + |separator| <= to && At(s, separator, j)
    {
      WindowAt(s, separator, from, to, j - from);
    }
  }

  /** Nothing found among the first bytes: a later search may start where a separator could still begin. */
  lemma SearchedPrefix(s: Basics.Bytes, t: Basics.Bytes, separator: Basics.Bytes, position: nat, from: nat)
    requires s <= t && Searched(s, separator, position, from)
    ensures Searched(t, separator, position, from)
  {
    forall j | position <= j < from ensures !At(t, separator, j) {
      PrefixAt(s, t, separator, j);
    }
  }

  /** The places before `from` were searched and hold no separator; one could still begin at `from`. */
  predicate Searched(s: Basics.Bytes, separator: Basics.Bytes, position: nat, from: nat) {
    NowhereIn(s, separator, position, from) && (from > position ==> from + |separator| <= |s| + 1)
  }

  predicate SearchResult(s: Basics.Bytes, separator: Basics.Bytes, position: nat, found: Option<nat>) {
    if found == None then NowhereIn(s, separator, position, |s|)
    else FirstAt(s, separator, position, found.value)
  }

  /** What `gets` promises: nil at the end and a line before it. */
  ghost predicate GetsAnswer(whole: Basics.Bytes, position: nat, separator: Basics.Bytes, answer: Answer)
    requires position <= |whole|
  {
    match answer
    case HandedOver => false
    case Nil => position == |whole|
    case Bytes(line) => position < |whole| && IsLine(whole, position, separator, line)
  }

  lemma LineAnswer(stored: Basics.Bytes, whole: Basics.Bytes, separator: Basics.Bytes,
                   position: nat, found: Option<nat>)
    requires separator != [] && stored <= whole && position <= |stored|
    requires SearchResult(stored, separator, position, found) && (found == None ==> stored == whole)
    ensures found != None ==>
              var length := found.value + |separator| - position;
              0 < length <= |stored| - position && IsLine(whole, position, separator, ReadOf(whole, position, length))
    ensures found == None ==> IsLine(whole, position, separator, ReadOf(whole, position, |stored| - position))
  {
    if found != None {
      FoundInPrefix(stored, whole, separator, position, found.value);
    }
  }

  lemma FoundInPrefix(s: Basics.Bytes, whole: Basics.Bytes, separator: Basics.Bytes, position: nat, i: nat)
    requires s <= whole && FirstAt(s, separator, position, i)
    ensures FirstAt(whole, separator, position, i)
    ensures IsLine(whole, position, separator, whole[position..i + |separator|])
  {
    forall j: nat | position <= j <= i ensures At(s, separator, j) <==> At(whole, separator, j) {
      PrefixAt(s, whole, separator, j);
    }
  }

  predicate PiecesUpTo(pieces: seq<Basics.Bytes>, whole: Basics.Bytes, from: nat, at: nat)
    requires from <= at <= |whole|
  {
    Pieces(pieces, whole[from..at]) && (at < |whole| && pieces != [] ==> |Last(pieces)| == READ_SIZE)
  }

  lemma NextPiece(pieces: seq<Basics.Bytes>, whole: Basics.Bytes, from: nat, at: nat)
    requires from <= at <= |whole| && PiecesUpTo(pieces, whole, from, at)
    ensures var piece := ReadOf(whole, at, READ_SIZE);
            at < |whole| ==>
              (|piece| > 0 && at + |piece| <= |whole| && PiecesUpTo(pieces + [piece], whole, from, at + |piece|))
  {
    var piece := ReadOf(whole, at, READ_SIZE);
    FlattenSnoc(pieces, piece);
    assert whole[from..at] + piece == whole[from..at + |piece|];
  }

  /** What an answer makes of the pieces so far, and of the position. */
  function Yielded(pieces: seq<Basics.Bytes>, answer: Answer): seq<Basics.Bytes> {
    if answer.Bytes? then pieces + [answer.bytes] else pieces
  }

  lemma AnswerExtends(pieces: seq<Basics.Bytes>, whole: Basics.Bytes, from: nat, at: nat, answer: Answer, now: nat)
    requires from <= at <= |whole| && PiecesUpTo(pieces, whole, from, at)
    requires answer == AnswerTo(whole, at, READ_SIZE, false)
    requires now == at + if answer.Bytes? then |answer.bytes| else 0
    ensures from <= now <= |whole| && PiecesUpTo(Yielded(pieces, answer), whole, from, now)
    ensures if answer.Bytes? then at < now else now == |whole|
  {
    NextPiece(pieces, whole, from, at);
  }

  lemma NoPieces(whole: Basics.Bytes, from: nat)
    requires from <= |whole|
    ensures PiecesUpTo([], whole, from, from)
  {
  }

  lemma AllPieces(pieces: seq<Basics.Bytes>, whole: Basics.Bytes, from: nat)
    requires from <= |whole| && PiecesUpTo(pieces, whole, from, |whole|)
    ensures Pieces(pieces, whole[from..])
  {
    assert whole[from..|whole|] == whole[from..];
  }

  // ---------------------------------------------------------------- the object

  class Input {
    /** The chunks still to come; nil once handed over. */
    var chunks: ChunkSource?
    var kept: Basics.Bytes
    /** The temporary file, append-only, once there is one. */
    var file: Option<Basics.Bytes>
    var size: nat
    var position: nat

    ghost predicate Valid()
      reads this, chunks
    {
      && (chunks != null ==> chunks.Valid() && chunks.Unraised() == None)
      && size == |Stored()| && position <= size
      && (file == None <==> size <= KEPT_IN_MEMORY)
    }

    /** What has been pulled from the client so far. */
    function Stored(): Basics.Bytes
      reads this
    {
      if file == None then kept else file.value
    }

    /** The whole body: what has been pulled and what will be. */
    function Whole(): Basics.Bytes
      reads this, chunks
    {
      Stored() + if chunks == null then [] else chunks.Rest()
    }

    constructor (chunks: ChunkSource)
      requires chunks.Valid() && chunks.Unraised() == None
      ensures Valid() && this.chunks == chunks && Whole() == chunks.Rest() && position == 0
    {
      this.chunks := chunks;
      kept, file, size, position := [], None, 0, 0;
    }

    function Unread(): nat
      reads this
      requires position <= size
    {
      size - position
    }

    method Keep(chunk: Basics.Bytes)
      requires size == |Stored()| && (file == None <==> size <= KEPT_IN_MEMORY)
      modifies this`kept, this`file, this`size
      ensures Stored() == old(Stored()) + chunk && size == |Stored()|
      ensures file == None <==> size <= KEPT_IN_MEMORY
    {
      if file == None && size + |chunk| > KEPT_IN_MEMORY {
        file := Some(kept);
        kept := [];
      }
      if file != None {
        file := Some(file.value + chunk);
      } else {
        kept := kept + chunk;
      }
      size := size + |chunk|;
    }

    /** Keeps the next chunk, if one is there. */
    method PullOne() returns (pulled: bool)
      requires Valid() && chunks != null
      modifies this`kept, this`file, this`size, chunks
      ensures Valid() && chunks == old(chunks) && Whole() == old(Whole()) && old(Stored()) <= Stored()
      ensures chunks.Size() <= old(chunks.Size())
      ensures pulled ==> chunks.Size() < old(chunks.Size())
      ensures !pulled ==> chunks.Size() < old(chunks.Size()) || chunks.queue.Finished()
    {
      var pull := chunks.NextChunk();
      if pull.Got? {
        Keep(pull.bytes);
        assert old(Stored()) + (pull.bytes + chunks.Rest()) == Stored() + chunks.Rest();
      }
      pulled := pull.Got?;
    }

    /** The inner loop of `fill`: pulls every chunk that is there. */
    method PullReady()
      requires Valid() && chunks != null
      modifies this`kept, this`file, this`size, chunks
      ensures Valid() && chunks == old(chunks) && Whole() == old(Whole()) && old(Stored()) <= Stored()
      ensures chunks.Size() < old(chunks.Size()) || chunks.queue.Finished()
    {
      var pulled := PullOne();
      while pulled
        invariant Valid() && chunks == old(chunks) && Whole() == old(Whole()) && old(Stored()) <= Stored()
        invariant pulled || chunks.Size() < old(chunks.Size()) || chunks.queue.Finished()
        invariant pulled ==> chunks.Size() < old(chunks.Size())
        invariant chunks.Size() <= old(chunks.Size())
        decreases chunks.Size(), pulled
      {
        pulled := PullOne();
      }
    }

    function Peeked(offset: nat, length: nat): Basics.Bytes
      reads this
    {
      if offset <= |Stored()| then Stored()[offset..offset + Min(length, |Stored()| - offset)] else []
    }

    /** Reads from the file or from memory, wherever the bytes are. */
    method Peek(offset: nat, length: nat) returns (result: Basics.Bytes)
      requires size == |Stored()| && offset <= size
      ensures result == Peeked(offset, length)
    {
      var count := Min(length, size - offset);
      if count == 0 {
        return [];
      }
      result := if file != None then file.value[offset..offset + count] else kept[offset..offset + count];
    }

    /** Takes what is there; what was not pulled yet is none of it, or there is nothing to pull. */
    method Take(length: nat) returns (result: Basics.Bytes)
      requires Valid() && (length <= Unread() || Stored() == Whole())
      modifies this`position
      ensures Valid() && Whole() == old(Whole()) && Unread() == old(Unread()) - |result|
      ensures result == ReadOf(Whole(), old(position), length) && position == old(position) + |result|
    {
      result := Peek(position, length);
      ReadOfPrefix(Stored(), Whole(), position, length);
      position := position + |result|;
    }

    /** The end of a round of `fill`: gives up once the chunks are finished, and waits otherwise. */
    method AwaitMore() returns (more: bool)
      requires Valid() && chunks != null
      modifies chunks
      ensures Valid() && Whole() == old(Whole()) && chunks.Size() <= old(chunks.Size())
      ensures !more ==> Stored() == Whole()
      ensures old(chunks.queue.Finished()) ==> !more
    {
      var finished := chunks.Finished();
      if !finished {
        chunks.Park();
      }
      more := !finished;
    }

    /** `fill { unread >= length || @chunks.finished? }`. */
    method FillUntil(enough: nat)
      requires Valid() && chunks != null
      modifies this`kept, this`file, this`size, chunks
      ensures Valid() && chunks == old(chunks) && Whole() == old(Whole())
      ensures Unread() >= enough || Stored() == Whole()
    {
      while true
        invariant Valid() && chunks == old(chunks) && Whole() == old(Whole())
        decreases chunks.Size()
      {
        PullReady();
        if Unread() >= enough {
          break;
        }
        var more := AwaitMore();
        if !more {
          break;
        }
      }
    }

    /** `fill { @chunks.finished? }`. */
    method FillAll()
      requires Valid() && chunks != null
      modifies this`kept, this`file, this`size, chunks
      ensures Valid() && chunks == old(chunks) && Stored() == Whole() == old(Whole())
    {
      while true
        invariant Valid() && chunks == old(chunks) && Whole() == old(Whole())
        decreases chunks.Size()
      {
        PullReady();
        var more := AwaitMore();
        if !more {
          break;
        }
      }
    }

    /** `read` without a length: the whole unread rest, "" at the end. */
    method ReadAll() returns (answer: Answer)
      requires Valid()
      modifies this, chunks
      ensures Valid() && chunks == old(chunks) && Whole() == old(Whole())
      ensures chunks == null ==> answer == HandedOver && position == old(position)
      ensures chunks != null ==> answer == Bytes(Whole()[old(position)..]) && position == |Whole()|
    {
      if chunks == null {
        return HandedOver;
      }
      FillAll();
      var result := Take(Unread());
      return Bytes(result);
    }

    /** `read(length)`: exactly `length` bytes, fewer only at the end of the body, and nil past it. */
    method Read(length: nat) returns (answer: Answer)
      requires Valid()
      modifies this, chunks
      ensures Valid() && chunks == old(chunks) && Whole() == old(Whole())
      ensures answer == AnswerTo(Whole(), old(position), length, chunks == null)
      ensures answer == HandedOver <==> length > 0 && chunks == null
      ensures answer == Nil <==> length > 0 && chunks != null && old(position) == |Whole()|
      ensures answer.Bytes? ==>
                old(position) <= position <= |Whole()| && answer.bytes == Whole()[old(position)..position]
      ensures answer.Bytes? ==> |answer.bytes| == Min(length, |Whole()| - old(position))
      ensures position == old(position) + if answer.Bytes? then |answer.bytes| else 0
    {
      if length == 0 {
        return Bytes([]);
      }
      if chunks == null {
        return HandedOver;
      }
      FillUntil(length);
      if Unread() == 0 {
        return Nil;
      }
      var result := Take(Min(length, Unread()));
      return Bytes(result);
    }

    /** The least place from `start` on, found window by window; the places before `from` hold none. */
    method Search(separator: Basics.Bytes, start: nat) returns (found: Option<nat>)
      requires size == |Stored()|
      ensures found != None ==> FirstAt(Stored(), separator, start, found.value)
      ensures found == None ==> NowhereIn(Stored(), separator, start, size)
    {
      var from := start;
      while from < size
        invariant start <= from && NowhereIn(Stored(), separator, start, Min(from, size))
      {
        var window := Peek(from, READ_SIZE + |separator| - 1);
        var index := IndexOf(window, separator);
        WindowSearched(Stored(), separator, from, index);
        if index != None {
          return Some(from + index.value);
        }
        from := from + READ_SIZE;
      }
      return None;
    }

    /** One round of the `fill` of `gets`: what arrived, and the search from where it has to start again. */
    method PullAndSearch(separator: Basics.Bytes, from: nat) returns (found: Option<nat>)
      requires Valid() && chunks != null && position <= from
      requires separator != [] ==> Searched(Stored(), separator, position, from)
      modifies this`kept, this`file, this`size, chunks
      ensures Valid() && chunks == old(chunks) && Whole() == old(Whole())
      ensures chunks.Size() < old(chunks.Size()) || chunks.queue.Finished()
      ensures found != None ==> FirstAt(Stored(), separator, from, found.value)
      ensures separator != [] ==> SearchResult(Stored(), separator, position, found)
    {
      ghost var before := Stored();
      PullReady();
      found := Search(separator, from);
      if separator != [] {
        SearchedPrefix(before, Stored(), separator, position, from);
      }
    }

    /** The `fill` of `gets`: until the separator is among the bytes kept or no more will come. */
    method FillUntilFound(separator: Basics.Bytes) returns (found: Option<nat>)
      requires Valid() && chunks != null
      modifies this`kept, this`file, this`size, chunks
      ensures Valid() && chunks == old(chunks) && Whole() == old(Whole())
      ensures found != None ==> position <= found.value && At(Stored(), separator, found.value)
      ensures found == None ==> Stored() == Whole()
      ensures separator != [] ==> SearchResult(Stored(), separator, position, found)
    {
      var from := position;
      while true
        invariant Valid() && chunks == old(chunks) && Whole() == old(Whole()) && position <= from
        invariant separator != [] ==> Searched(Stored(), separator, position, from)
        decreases chunks.Size()
      {
        found := PullAndSearch(separator, from);
        from := Max(size - |separator| + 1, position);
        if found != None {
          break;
        }
        var more := AwaitMore();
        if !more {
          break;
        }
      }
    }

    /** `gets(nil)`: the rest of the body, nil at the end. */
    method GetsRest() returns (answer: Answer)
      requires Valid()
      modifies this, chunks
      ensures Valid() && chunks == old(chunks) && Whole() == old(Whole())
      ensures chunks == null ==> answer == HandedOver && position == old(position)
      ensures chunks != null ==> position == |Whole()|
      ensures chunks != null ==> answer == if old(position) == |Whole()| then Nil else Bytes(Whole()[old(position)..])
    {
      if chunks == null {
        return HandedOver;
      }
      FillAll();
      if Unread() == 0 {
        return Nil;
      }
      var rest := Take(Unread());
      return Bytes(rest);
    }

    /** `gets(separator)`: through the first separator at or after the position, or the rest; nil at the end. */
    method Gets(separator: Basics.Bytes) returns (answer: Answer)
      requires Valid()
      modifies this, chunks
      ensures Valid() && chunks == old(chunks) && Whole() == old(Whole())
      ensures position == old(position) + if answer.Bytes? then |answer.bytes| else 0
      ensures chunks == null <==> answer == HandedOver
      ensures chunks != null && separator != [] ==> GetsAnswer(Whole(), old(position), separator, answer)
    {
      if chunks == null {
        return HandedOver;
      }
      var found := FillUntilFound(separator);
      ghost var from, whole, stored := position, Whole(), Stored();
      if separator != [] {
        LineAnswer(stored, whole, separator, from, found);
      }
      if Unread() == 0 {
        return Nil;
      }
      var line := Take(if found != None then found.value + |separator| - position else Unread());
      return Bytes(line);
    }

    /** The unread rest: what was pulled of it, then what was not. */
    lemma UnreadRest()
      requires Valid()
      ensures position <= |Stored()|
      ensures Stored()[position..] + (if chunks == null then [] else chunks.Rest()) == Whole()[position..]
    {
    }

    /** Splits the unread rest at what was pulled; the input keeps no way to the second half. */
    method Detach() returns (leftover: Basics.Bytes, rest: ChunkSource?)
      requires Valid()
      modifies this
      ensures Valid() && chunks == null && rest == old(chunks)
      ensures leftover + (if rest == null then [] else rest.Rest()) == old(Whole()[position..])
      ensures rest != null ==> rest.Valid() && rest.Rest() == old(chunks.Rest())
    {
      UnreadRest();
      leftover := [];
      if Unread() > 0 {
        leftover := Peek(position, Unread());
        position := position + |leftover|;
      }
      rest := chunks;
      chunks := null;
    }

    method Rewind()
      requires Valid()
      modifies this`position
      ensures Valid() && position == 0 && Whole() == old(Whole())
    {
      position := 0;
    }

    /** One round of `each`: the next piece, yielded after those before it. */
    method YieldPiece(pieces: seq<Basics.Bytes>, ghost whole: Basics.Bytes, ghost from: nat)
      returns (yielded: seq<Basics.Bytes>, ended: bool)
      requires Valid() && chunks != null && whole == Whole()
      requires from <= position <= |whole| && PiecesUpTo(pieces, whole, from, position)
      modifies this, chunks
      ensures Valid() && chunks == old(chunks) && Whole() == whole && from <= position <= |whole|
      ensures PiecesUpTo(yielded, whole, from, position)
      ensures if ended then position == |whole| else old(position) < position
    {
      ghost var at := position;
      var answer := Read(READ_SIZE);
      AnswerExtends(pieces, whole, from, at, answer, position);
      ended := !answer.Bytes?;
      yielded := Yielded(pieces, answer);
    }

    /** The rounds of `each` on an input that was not handed over. */
    method YieldAll() returns (pieces: seq<Basics.Bytes>)
      requires Valid() && chunks != null
      modifies this, chunks
      ensures Valid() && chunks == old(chunks) && Whole() == old(Whole()) && position == |Whole()|
      ensures Pieces(pieces, Whole()[old(position)..])
    {
      ghost var whole, from := Whole(), position;
      NoPieces(whole, from);
      var ended := false;
      pieces := [];
      while !ended
        invariant Valid() && chunks == old(chunks) && Whole() == whole && from <= position <= |whole|
        invariant PiecesUpTo(pieces, whole, from, position)
        invariant ended ==> position == |whole|
        decreases |whole| - position, !ended
      {
        pieces, ended := YieldPiece(pieces, whole, from);
      }
      AllPieces(pieces, whole, from);
    }

    /**
     `each`: pieces of `READ_SIZE` bytes, the last one shorter, that are together
     the unread rest; an input that was handed over raises before the first.
     */
    method Each() returns (pieces: seq<Basics.Bytes>, raised: bool)
      requires Valid()
      modifies this, chunks
      ensures Valid() && chunks == old(chunks) && Whole() == old(Whole()) && (raised <==> chunks == null)
      ensures raised ==> pieces == [] && position == old(position)
      ensures !raised ==> position == |Whole()| && Pieces(pieces, Whole()[old(position)..])
    {
      if chunks == null {
        var answer := Read(READ_SIZE);
        return [], answer.HandedOver?;
      }
      pieces := YieldAll();
      raised := false;
    }
  }
}
