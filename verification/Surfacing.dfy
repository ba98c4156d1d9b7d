/**
 Whether a failure surfaces. A reader takes chunks until it finds none, asks
 `finished?`, and then gives up or waits: `each` of a streamed response, which
 yields what it takes at once (ruby/upstream.rb), and the reads of a duplex
 stream, which keep it in a buffer and record a failure until the buffer is empty
 (ruby/stream.rb). The take and the question lock the queue separately
 (src/stream.rs), so what is pushed in between is seen by the question alone. A
 run is any sequence of steps; the head of a response was taken before.
 */
module Surfacing {
  import opened Basics
  import opened Streams

  datatype ReaderPc =
    /** About to call `next_chunk`. */
    | Taking
    /** It gave nil: about to call `finished?`. */
    | Asking
    /** Parked until something arrives. */
    | Waiting
    /** A failure was taken with bytes before it, which are given first. */
    | Recorded(error: BridgeError)
    /** Done: the end was reported, or the failure raised. */
    | GaveUp
    | Raised(error: BridgeError)

  datatype State = State(
    queue: Queue,
    reader: ReaderPc,
    /** Taken and not yet given, and all that was given. */
    buffer: Bytes,
    given: Bytes,
    /** Every item accepted, and every one handed to the reader. */
    accepted: seq<Item>,
    handed: seq<Item>,
    /** What has been accepted since the last take. */
    sinceTake: seq<Item>)

  datatype Step =
    | Push(item: Item)
    | Take
    /** Gives bytes of the buffer: the yield of `each`, or the return of a read that has enough. */
    | Give(n: nat)
    | Ask
    | Wake

  // ---------------------------------------------------------------- invariant

  /** The reader asks with nothing queued but what came since its take. */
  predicate Logged(s: State) {
    && Accounted(s.queue) && !s.queue.cancelled && !s.queue.paused
    && s.handed + s.queue.items == s.accepted
    && (s.queue.ended <==> s.accepted != [] && Last(s.accepted).Terminal())
    && OneTerminal(s.accepted) && (forall i :: 0 <= i < |s.accepted| ==> !s.accepted[i].Head?)
    && (s.reader in {Asking, GaveUp} ==> s.queue.items == s.sinceTake)
    && s.given + s.buffer == ChunkBytes(s.handed)
  }

  predicate HandedFailure(s: State, error: BridgeError) {
    s.sinceTake == [] && s.handed == s.accepted && s.accepted != [] && Last(s.accepted) == Failed(error)
  }

  /** The reader gave up with no bytes before it, and raises only what ended the stream, with none left. */
  predicate Sound(s: State) {
    && (s.reader == GaveUp ==> s.queue.ended && s.buffer == [] && ChunkBytes(s.sinceTake) == [])
    && (s.reader.Recorded? ==> HandedFailure(s, s.reader.error) && s.buffer != [])
    && (s.reader.Raised? ==> HandedFailure(s, s.reader.error) && s.buffer == [])
    && (!s.reader.Recorded? && !s.reader.Raised? ==> forall i :: 0 <= i < |s.handed| ==> !s.handed[i].Failed?)
  }

  predicate Inv(s: State) {
    Logged(s) && Sound(s)
  }

  // --------------------------------------------------------------------- steps

  function Pushes(s: State, item: Item): State {
    var (q, accepted) := s.queue.Push(item);
    if item.Head? || !accepted then s
    else s.(queue := q, accepted := s.accepted + [item], sinceTake := s.sinceTake + [item])
  }

  /** What a taken item makes of the reader. */
  function After(item: Item, buffer: Bytes): ReaderPc {
    match item
    case Chunk(_) => Taking
    case Failed(error) => if buffer == [] then Raised(error) else Recorded(error)
    case _ => Asking
  }

  function Takes(s: State): State {
    if s.reader != Taking then s
    else
      var (q, item) := s.queue.TakeNext();
      if item == None then s.(queue := q, reader := Asking, sinceTake := [])
      else
        s.(queue := q, handed := s.handed + [item.value], sinceTake := [],
           buffer := s.buffer + BytesOf(item.value), reader := After(item.value, s.buffer))
  }

  /** The next read or round begins with a take; a recorded failure is raised instead, once nothing is before it. */
  function Gives(s: State, n: nat): State {
    if n == 0 || s.buffer == [] || !(s.reader in {Taking, Asking} || s.reader.Recorded?) then s
    else
      var count := Min(n, |s.buffer|);
      s.(given := s.given + s.buffer[..count], buffer := s.buffer[count..],
         reader := if !s.reader.Recorded? then Taking
                   else if count == |s.buffer| then Raised(s.reader.error)
                   else s.reader)
  }

  /** With bytes in the buffer there is something to give, so nobody gives up. */
  function Asks(s: State): State {
    if s.reader != Asking then s
    else if !s.queue.Finished() then s.(reader := Waiting)
    else if s.buffer == [] then s.(reader := GaveUp)
    else s
  }

  function Apply(s: State, step: Step): State {
    match step
    case Push(item) => Pushes(s, item)
    case Take => Takes(s)
    case Give(n) => Gives(s, n)
    case Ask => Asks(s)
    case Wake => if s.reader != Waiting then s else s.(reader := Taking)
  }

  function Init(budget: nat): State {
    State(NewQueue(budget), Taking, [], [], [], [], [])
  }

  function Run(budget: nat, steps: seq<Step>): State {
    if steps == [] then Init(budget) else Apply(Run(budget, Front(steps)), Last(steps))
  }

  // ------------------------------------------------------- every step keeps it

  lemma PushKeeps(s: State, item: Item)
    requires Inv(s)
    ensures Inv(Pushes(s, item))
  {
    if !s.queue.ended && !item.Head? {
      AppendKeepsAccounts(s.queue, item);
      ConcatIsAssociative(s.handed, s.queue.items, [item]);
      OneTerminalSnoc(s.accepted, [item]);
    }
  }

  lemma TakeKeeps(s: State)
    requires Inv(s)
    ensures Inv(Takes(s))
  {
    if s.reader == Taking && s.queue.items != [] {
      TakeKeepsAccounts(s.queue);
      var item, rest := s.queue.items[0], s.queue.items[1..];
      assert s.queue.items == [item] + rest;
      ConcatIsAssociative(s.handed, [item], rest);
      ChunkBytesSnoc(s.handed, item);
      ConcatIsAssociative(s.given, s.buffer, BytesOf(item));
      assert s.accepted[|s.handed|] == item;
      TakeIsSound(s, item, rest);
    }
  }

  lemma TakeIsSound(s: State, item: Item, rest: seq<Item>)
    requires Inv(s) && s.reader == Taking && s.queue.items == [item] + rest
    ensures item.Terminal() ==> rest == [] && s.handed + [item] == s.accepted
    ensures !item.Head?
  {
    assert s.accepted[|s.handed|] == item;
  }

  lemma GiveKeeps(s: State, n: nat)
    requires Inv(s)
    ensures Inv(Gives(s, n))
  {
    var count := Min(n, |s.buffer|);
    assert s.buffer == s.buffer[..count] + s.buffer[count..];
    ConcatIsAssociative(s.given, s.buffer[..count], s.buffer[count..]);
  }

  lemma AskKeeps(s: State)
    requires Inv(s)
    ensures Inv(Asks(s))
  {
    if s.reader == Asking && s.queue.Finished() {
      assert |ChunkBytes(s.queue.items)| == 0;
    }
  }

  lemma StepKeepsInv(s: State, step: Step)
    requires Inv(s)
    ensures Inv(Apply(s, step))
  {
    match step
    case Push(item) => PushKeeps(s, item);
    case Take => TakeKeeps(s);
    case Give(n) => GiveKeeps(s, n);
    case Ask => AskKeeps(s);
    case Wake =>
  }

  lemma {:induction false} Invariant(budget: nat, steps: seq<Step>)
    ensures Inv(Run(budget, steps))
  {
    if steps != [] {
      Invariant(budget, Front(steps));
      StepKeepsInv(Run(budget, Front(steps)), Last(steps));
    }
  }

  // ----------------------------------------------------------------- theorems

  predicate Done(r: ReaderPc) {
    r.GaveUp? || r.Raised?
  }

  /** The producer ended the stream with this failure. */
  predicate FailedWith(s: State, error: BridgeError) {
    s.accepted != [] && Last(s.accepted) == Failed(error)
  }

  /** Whether or not a failure surfaces, every byte before it was given. */
  lemma NoByteIsLost(budget: nat, steps: seq<Step>)
    ensures var s := Run(budget, steps);
            Done(s.reader) ==> s.given == ChunkBytes(s.accepted)
  {
    Invariant(budget, steps);
    var s := Run(budget, steps);
    if Done(s.reader) {
      assert s.given + [] == s.given;
      ChunkBytesConcat(s.handed, s.queue.items);
    }
  }

  /**
   A reader done with a stream that failed raised that failure, unless and only
   unless the failure was queued between the take that found nothing and the
   question, with no byte before it, queued or buffered: then the question alone
   saw it.
   */
  lemma UnraisedExactlyWhenQueuedInBetween(budget: nat, steps: seq<Step>, error: BridgeError)
    ensures var s := Run(budget, steps);
            Done(s.reader) && FailedWith(s, error) ==>
              && (s.reader == Raised(error) <==> Failed(error) !in s.sinceTake)
              && (s.reader == GaveUp <==> Failed(error) in s.sinceTake)
              && (s.reader == GaveUp ==> ChunkBytes(s.sinceTake) == [])
  {
    Invariant(budget, steps);
    var s := Run(budget, steps);
    if Done(s.reader) && FailedWith(s, error) {
      GaveUpOnIt(s, error);
    }
  }

  lemma GaveUpOnIt(s: State, error: BridgeError)
    requires Inv(s) && Done(s.reader) && FailedWith(s, error)
    ensures s.reader == GaveUp ==> Failed(error) in s.sinceTake
    ensures s.reader.Raised? ==> s.reader.error == error && Failed(error) !in s.sinceTake
  {
  }

  /**
   Bytes in the buffer save a failure: while there are any, the reader cannot give
   up, and what it does next is to give them and take again, or raise.
   */
  lemma BufferedBytesComeFirst(budget: nat, steps: seq<Step>)
    ensures var s := Run(budget, steps);
            s.buffer != [] ==>
              && !Done(s.reader) && !Done(Apply(s, Ask).reader)
              && (s.reader == Asking ==> Apply(s, Give(|s.buffer|)).reader == Taking)
              && (s.reader.Recorded? ==> Apply(s, Give(|s.buffer|)).reader == Raised(s.reader.error))
  {
    Invariant(budget, steps);
  }

  lemma Extend(budget: nat, steps: seq<Step>, step: Step) returns (longer: seq<Step>, t: State)
    ensures longer == steps + [step] && t == Run(budget, longer) == Apply(Run(budget, steps), step)
  {
    longer := steps + [step];
    assert Front(longer) == steps;
    t := Run(budget, longer);
  }

  /** Such a run exists: the stream fails between the two, and its reader takes the end for a clean one. */
  lemma FailureGoesUnraised(budget: nat, error: BridgeError) returns (steps: seq<Step>)
    ensures var s := Run(budget, steps);
            s.reader == GaveUp && FailedWith(s, error) && s.queue.items == [Failed(error)]
  {
    var s: State;
    steps, s := Extend(budget, [], Take);
    assert s.reader == Asking && s.queue == NewQueue(budget) && s.buffer == [];
    steps, s := Extend(budget, steps, Push(Failed(error)));
    assert s.queue.items == [Failed(error)] && s.queue.Finished();
    steps, s := Extend(budget, steps, Ask);
  }

  // ----------------------------------------------------------------- progress

  function RunFrom(s: State, steps: seq<Step>): State
    decreases |steps|
  {
    if steps == [] then s else RunFrom(Apply(s, steps[0]), steps[1..])
  }

  /** What the reader of a stream that has ended does next. */
  function Next(s: State): Step {
    match s.reader
    case Taking => Take
    case Asking => if s.queue.Finished() && s.buffer != [] then Give(|s.buffer|) else Ask
    case Waiting => Wake
    case _ => Give(|s.buffer|)
  }

  /** How far it is from being done. */
  function Distance(s: State): nat {
    8 * |s.queue.items| + (if s.buffer != [] then 4 else 0)
    + match s.reader
      case Taking => 3
      case Asking => if s.queue.Finished() then 1 else 5
      case Waiting => 4
      case _ => 0
  }

  predicate Closer(s: State, t: State) {
    t.queue.ended && t.accepted == s.accepted && (Done(t.reader) || Distance(t) < Distance(s))
  }

  lemma AskComesCloser(s: State)
    requires Inv(s) && s.queue.ended && s.reader == Asking && (s.buffer == [] || !s.queue.Finished())
    ensures Closer(s, Asks(s))
  {
  }

  lemma GiveComesCloser(s: State)
    requires Inv(s) && s.queue.ended && s.buffer != []
    requires s.reader.Recorded? || (s.reader == Asking && s.queue.Finished())
    ensures Closer(s, Gives(s, |s.buffer|))
  {
    assert s.buffer[|s.buffer|..] == [];
  }

  lemma NextComesCloser(s: State)
    requires Inv(s) && s.queue.ended && !Done(s.reader)
    ensures Inv(Apply(s, Next(s))) && Closer(s, Apply(s, Next(s)))
  {
    StepKeepsInv(s, Next(s));
    match s.reader
    case Taking => TakeComesCloser(s);
    case Asking =>
      if s.queue.Finished() && s.buffer != [] {
        GiveComesCloser(s);
      } else {
        AskComesCloser(s);
      }
    case Waiting =>
    case Recorded(_) => GiveComesCloser(s);
  }

  lemma TakeComesCloser(s: State)
    requires Inv(s) && s.queue.ended && s.reader == Taking
    ensures Closer(s, Takes(s))
  {
    if s.queue.items != [] {
      TakeIsSound(s, s.queue.items[0], s.queue.items[1..]);
      StepKeepsInv(s, Take);
    }
  }

  lemma {:induction false} DoneFrom(s: State) returns (steps: seq<Step>)
    requires Inv(s) && s.queue.ended
    ensures Done(RunFrom(s, steps).reader) && RunFrom(s, steps).accepted == s.accepted
    decreases !Done(s.reader), Distance(s)
  {
    if Done(s.reader) {
      steps := [];
    } else {
      NextComesCloser(s);
      var rest := DoneFrom(Apply(s, Next(s)));
      steps := [Next(s)] + rest;
    }
  }

  /** Progress: once its stream has ended the reader is done by its own steps, with the end or with the failure. */
  lemma EndedReaderIsDone(budget: nat, steps: seq<Step>) returns (more: seq<Step>)
    requires Run(budget, steps).queue.ended
    ensures var t := RunFrom(Run(budget, steps), more);
            Done(t.reader) && t.accepted == Run(budget, steps).accepted
  {
    Invariant(budget, steps);
    more := DoneFrom(Run(budget, steps));
  }
}
