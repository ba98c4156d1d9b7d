/**
 The bounded hand-off between the Ruby thread and one Envoy worker stream
 (src/stream.rs).

 `Queue` is the value behind the lock, with one function per lock acquisition.
 `ResponseStream` is the object that changes it in place. Its ghost history
 records every lock acquisition, so what is proved here of every history holds
 of every object, whatever the threads sharing it do.
 */
module Streams {
  import opened Basics

  datatype BridgeError =
    | Upstream
    | UpstreamTooLarge
    | UpstreamOverflow
    | Ruby

  datatype ResponseHead = ResponseHead(status: nat, headers: seq<(string, string)>)

  datatype Item =
    | Head(head: ResponseHead)
    | Chunk(bytes: Bytes)
    | End
    | Failed(error: BridgeError)
  {
    predicate Terminal() {
      End? || Failed?
    }
  }

  /** The fiber variable a waiter is parked on. */
  type Waiter = nat

  datatype Queue = Queue(
    items: seq<Item>,
    buffered: nat,
    cancelled: bool,
    ended: bool,
    paused: bool,
    waiter: Option<Waiter>,
    capacity: nat)
  {
    predicate Full() {
      paused || buffered >= capacity
    }

    predicate Finished() {
      cancelled || (ended && buffered == 0)
    }

    predicate WriterOwed() {
      waiter.Some? && (cancelled || !Full())
    }

    /** A reader need not wait. */
    predicate ReadReady() {
      buffered > 0 || ended || cancelled
    }

    function Spare(): nat {
      SaturatingSub(capacity, buffered)
    }

    function Cancel(): Queue {
      this.(cancelled := true, items := [], buffered := 0)
    }

    function Park(w: Waiter): (Queue, bool) {
      if ReadReady() then (this, false) else (this.(waiter := Some(w)), true)
    }

    function ParkWriter(w: Waiter): (Queue, bool) {
      if cancelled || !Full() then (this, false) else (this.(waiter := Some(w)), true)
    }

    function Unpark(): (Queue, Option<Waiter>) {
      (this.(waiter := None), waiter)
    }

    function SetPaused(p: bool): Queue {
      this.(paused := p)
    }

    /** `item` behind what is queued, its bytes charged to the budget. */
    function Append(item: Item): Queue {
      this.(items := items + [item], buffered := buffered + |BytesOf(item)|, ended := item.Terminal())
    }

    function Push(item: Item): (Queue, bool) {
      if cancelled || ended then (this, false) else (Append(item), true)
    }

    function PushWithinBudget(bytes: Bytes): (Queue, Option<nat>) {
      if cancelled || ended then (this, None)
      else
        var taken := Min(|bytes|, Spare());
        if taken == 0 then (this, Some(0))
        else (Append(Chunk(bytes[..taken])), Some(taken))
    }

    function PushIfRoom(bytes: Bytes): (Queue, Option<bool>) {
      if cancelled || ended then (this, None)
      else if buffered > 0 && |bytes| > Spare() then (this, Some(false))
      else (Append(Chunk(bytes)), Some(true))
    }

    function TakeNext(): (Queue, Option<Item>) {
      if paused || items == [] then (this, None)
      else
        (this.(items := items[1..], buffered := SaturatingSub(buffered, |BytesOf(items[0])|)), Some(items[0]))
    }
  }

  function NewQueue(budget: nat): Queue {
    Queue([], 0, false, false, false, None, if budget == 0 then 1 else budget)
  }

  function BytesOf(item: Item): Bytes {
    if item.Chunk? then item.bytes else []
  }

  /** The body bytes the items carry, in order. */
  function ChunkBytes(items: seq<Item>): Bytes {
    if items == [] then [] else BytesOf(items[0]) + ChunkBytes(items[1..])
  }

  lemma ChunkBytesCons(item: Item, items: seq<Item>)
    ensures ChunkBytes([item] + items) == BytesOf(item) + ChunkBytes(items)
  {
    assert ([item] + items)[1..] == items;
  }

  lemma {:induction false} ChunkBytesConcat(a: seq<Item>, b: seq<Item>)
    ensures ChunkBytes(a + b) == ChunkBytes(a) + ChunkBytes(b)
  {
    if a == [] {
      assert a + b == b;
    } else {
      ChunkBytesConcat(a[1..], b);
      assert a + b == [a[0]] + (a[1..] + b);
      ChunkBytesCons(a[0], a[1..] + b);
      ConcatIsAssociative(BytesOf(a[0]), ChunkBytes(a[1..]), ChunkBytes(b));
    }
  }

  lemma ChunkBytesSnoc(a: seq<Item>, item: Item)
    ensures ChunkBytes(a + [item]) == ChunkBytes(a) + BytesOf(item)
  {
    ChunkBytesConcat(a, [item]);
    assert ChunkBytes([item]) == BytesOf(item) + ChunkBytes([]);
  }

  // ---------------------------------------------------------------- histories

  /** One lock acquisition. */
  datatype Op =
    | OpCancel
    | OpPark(w: Waiter)
    | OpParkWriter(w: Waiter)
    | OpUnpark
    | OpSetPaused(p: bool)
    | OpPush(item: Item)
    | OpPushWithinBudget(bytes: Bytes)
    | OpPushIfRoom(bytes: Bytes)
    | OpTakeNext

  function Apply(q: Queue, op: Op): Queue {
    match op
    case OpCancel => q.Cancel()
    case OpPark(w) => q.Park(w).0
    case OpParkWriter(w) => q.ParkWriter(w).0
    case OpUnpark => q.Unpark().0
    case OpSetPaused(p) => q.SetPaused(p)
    case OpPush(item) => q.Push(item).0
    case OpPushWithinBudget(bytes) => q.PushWithinBudget(bytes).0
    case OpPushIfRoom(bytes) => q.PushIfRoom(bytes).0
    case OpTakeNext => q.TakeNext().0
  }

  /** The items the operation added to the queue. */
  function Accepted(q: Queue, op: Op): seq<Item> {
    match op
    case OpPush(item) => if q.Push(item).1 then [item] else []
    case OpPushWithinBudget(bytes) =>
      var taken := q.PushWithinBudget(bytes).1;
      if taken.Some? && 0 < taken.value <= |bytes| then [Chunk(bytes[..taken.value])] else []
    case OpPushIfRoom(bytes) => if q.PushIfRoom(bytes).1 == Some(true) then [Chunk(bytes)] else []
    case _ => []
  }

  /** The item the operation handed out. */
  function Handed(q: Queue, op: Op): seq<Item> {
    if op.OpTakeNext? && q.TakeNext().1.Some? then [q.TakeNext().1.value] else []
  }

  function Run(budget: nat, ops: seq<Op>): Queue {
    if ops == [] then NewQueue(budget) else Apply(Run(budget, Front(ops)), Last(ops))
  }

  function AllAccepted(budget: nat, ops: seq<Op>): seq<Item> {
    if ops == [] then []
    else AllAccepted(budget, Front(ops)) + Accepted(Run(budget, Front(ops)), Last(ops))
  }

  function AllHanded(budget: nat, ops: seq<Op>): seq<Item> {
    if ops == [] then []
    else AllHanded(budget, Front(ops)) + Handed(Run(budget, Front(ops)), Last(ops))
  }

  // --------------------------------------------------------------- accounting

  /** At most one terminal item, with nothing after it. */
  predicate OneTerminal(items: seq<Item>) {
    forall i :: 0 <= i < |items| - 1 ==> !items[i].Terminal()
  }

  /** What every reachable queue keeps. */
  predicate Accounted(q: Queue) {
    && q.capacity > 0
    && q.buffered == |ChunkBytes(q.items)|
    && OneTerminal(q.items)
    && (q.items != [] && Last(q.items).Terminal() ==> q.ended)
    && (q.cancelled ==> q.items == [])
  }

  lemma AppendKeepsAccounts(q: Queue, item: Item)
    requires Accounted(q) && !q.cancelled && !q.ended
    ensures Accounted(q.Append(item))
  {
    ChunkBytesSnoc(q.items, item);
  }

  lemma TakeKeepsAccounts(q: Queue)
    requires Accounted(q)
    ensures Accounted(q.TakeNext().0)
    ensures q.TakeNext().1.Some? && q.TakeNext().1.value.Terminal() ==> q.ended
  {
  }

  /** One operation keeps the books, whoever performs it. */
  lemma ApplyKeepsAccounts(q: Queue, op: Op)
    requires Accounted(q)
    ensures Accounted(Apply(q, op)) && Apply(q, op).capacity == q.capacity
  {
    match op
    case OpPush(item) =>
      if !q.cancelled && !q.ended {
        AppendKeepsAccounts(q, item);
      }
    case OpPushWithinBudget(bytes) =>
      if !q.cancelled && !q.ended {
        AppendKeepsAccounts(q, Chunk(bytes[..Min(|bytes|, q.Spare())]));
      }
    case OpPushIfRoom(bytes) =>
      if !q.cancelled && !q.ended {
        AppendKeepsAccounts(q, Chunk(bytes));
      }
    case OpTakeNext => TakeKeepsAccounts(q);
    case _ =>
  }

  /** So do the two ways a writer pushes. */
  lemma PushKeepsAccounts(q: Queue, item: Item, bytes: Bytes)
    requires Accounted(q)
    ensures Accounted(q.Push(item).0) && Accounted(q.PushWithinBudget(bytes).0)
  {
    if !q.cancelled && !q.ended {
      AppendKeepsAccounts(q, item);
      AppendKeepsAccounts(q, Chunk(bytes[..Min(|bytes|, q.Spare())]));
    }
  }

  /** Operations that neither push nor take, but a cancel, leave the items alone. */
  lemma FlagsKeepAccounts(q: Queue, w: Waiter, p: bool)
    requires Accounted(q)
    ensures Accounted(q.Cancel()) && Accounted(q.Unpark().0) && Accounted(q.SetPaused(p))
    ensures Accounted(q.Park(w).0) && Accounted(q.ParkWriter(w).0)
  {
  }

  /** Queue accounting after any sequence of operations. */
  lemma {:induction false} QueueAccounting(budget: nat, ops: seq<Op>)
    ensures Accounted(Run(budget, ops))
    ensures Run(budget, ops).capacity == Max(budget, 1)
    ensures var q := Run(budget, ops);
            q.Finished() && !q.cancelled ==> ChunkBytes(q.items) == []
  {
    if ops != [] {
      QueueAccounting(budget, Front(ops));
      ApplyKeepsAccounts(Run(budget, Front(ops)), Last(ops));
    }
  }

  /** The saturating subtraction in `take_next` never saturates. */
  lemma TakeNeverSaturates(budget: nat, ops: seq<Op>)
    ensures var q := Run(budget, ops);
            forall chunk :: q.TakeNext().1 == Some(Chunk(chunk)) ==>
              q.buffered >= |chunk| && q.TakeNext().0.buffered == q.buffered - |chunk|
  {
    QueueAccounting(budget, ops);
    var q := Run(budget, ops);
    if q.items != [] {
      assert ChunkBytes(q.items) == BytesOf(q.items[0]) + ChunkBytes(q.items[1..]);
    }
  }

  /**
   First in, first out: until a cancel, what was handed out followed by what is
   queued is what was accepted, item for item. A cancel only loses the tail.
   What was accepted ends at the first terminal item.
   */
  predicate Fifo(q: Queue, handed: seq<Item>, accepted: seq<Item>) {
    && handed <= accepted
    && (!q.cancelled ==> handed + q.items == accepted)
    && OneTerminal(accepted)
    && (q.ended <==> accepted != [] && Last(accepted).Terminal())
  }

  lemma ShiftSplit<T>(handed: seq<T>, items: seq<T>, h: seq<T>, a: seq<T>)
    requires h <= items
    ensures handed + h + (items[|h|..] + a) == handed + items + a
  {
    assert items == h + items[|h|..];
  }

  lemma OneTerminalSnoc(accepted: seq<Item>, a: seq<Item>)
    requires OneTerminal(accepted) && |a| <= 1
    requires a != [] ==> accepted == [] || !Last(accepted).Terminal()
    ensures OneTerminal(accepted + a)
  {
  }

  /** `q'` is `q` with `h` taken from its front and `a` added at its back. */
  predicate Moved(q: Queue, q': Queue, h: seq<Item>, a: seq<Item>) {
    && h <= q.items
    && (!q'.cancelled ==> !q.cancelled && q'.items == q.items[|h|..] + a)
    && (q.cancelled ==> h == [])
    && |a| <= 1
    && (a != [] ==> !q.ended && q'.ended == a[0].Terminal())
    && (a == [] ==> q'.ended == q.ended)
    && (q'.cancelled ==> a == [])
  }

  /** One operation takes from the front, adds at the back, and adds nothing after the end. */
  lemma ApplyMoves(q: Queue, op: Op)
    requires Accounted(q)
    ensures Moved(q, Apply(q, op), Handed(q, op), Accepted(q, op))
  {
  }

  lemma FifoStep(q: Queue, q': Queue, handed: seq<Item>, accepted: seq<Item>, h: seq<Item>, a: seq<Item>)
    requires Fifo(q, handed, accepted) && Moved(q, q', h, a)
    ensures Fifo(q', handed + h, accepted + a)
  {
    ShiftSplit(handed, q.items, h, a);
    OneTerminalSnoc(accepted, a);
    if !q.cancelled {
      assert handed + h <= accepted + a;
    }
  }

  lemma {:induction false} FirstInFirstOut(budget: nat, ops: seq<Op>)
    ensures Fifo(Run(budget, ops), AllHanded(budget, ops), AllAccepted(budget, ops))
  {
    if ops != [] {
      FirstInFirstOut(budget, Front(ops));
      QueueAccounting(budget, Front(ops));
      var q := Run(budget, Front(ops));
      ApplyMoves(q, Last(ops));
      FifoStep(q, Run(budget, ops), AllHanded(budget, Front(ops)), AllAccepted(budget, Front(ops)),
               Handed(q, Last(ops)), Accepted(q, Last(ops)));
    }
  }

  /** The same in bytes: what a reader was handed is a prefix of what was accepted. */
  lemma BytesInOrder(budget: nat, ops: seq<Op>)
    ensures var q := Run(budget, ops);
            var handed, accepted := ChunkBytes(AllHanded(budget, ops)), ChunkBytes(AllAccepted(budget, ops));
            && handed <= accepted
            && (!q.cancelled ==> handed + ChunkBytes(q.items) == accepted)
  {
    FirstInFirstOut(budget, ops);
    FifoBytes(Run(budget, ops), AllHanded(budget, ops), AllAccepted(budget, ops));
  }

  lemma FifoBytes(q: Queue, handed: seq<Item>, accepted: seq<Item>)
    requires Fifo(q, handed, accepted)
    ensures ChunkBytes(handed) <= ChunkBytes(accepted)
    ensures !q.cancelled ==> ChunkBytes(handed) + ChunkBytes(q.items) == ChunkBytes(accepted)
  {
    var rest := accepted[|handed|..];
    assert accepted == handed + rest;
    ChunkBytesConcat(handed, rest);
    ChunkBytesConcat(handed, q.items);
  }

  // -------------------------------------------------- answers, by the history alone

  /** What was accepted ends with the item that ends the stream. */
  predicate EndAccepted(accepted: seq<Item>) {
    accepted != [] && Last(accepted).Terminal()
  }

  /** The stream still takes what is pushed: nobody has cancelled it, and no end or failure was accepted. */
  predicate StillOpen(budget: nat, ops: seq<Op>) {
    OpCancel !in ops && !EndAccepted(AllAccepted(budget, ops))
  }

  /** The last word on pausing. */
  function PausedLast(ops: seq<Op>): bool {
    if ops == [] then false
    else if Last(ops).OpSetPaused? then Last(ops).p
    else PausedLast(Front(ops))
  }

  lemma SetsFlags(q: Queue, op: Op)
    ensures Apply(q, op).cancelled <==> q.cancelled || op == OpCancel
    ensures Apply(q, op).paused == if op.OpSetPaused? then op.p else q.paused
  {
  }

  lemma InSnoc<T>(s: seq<T>, x: T)
    requires s != []
    ensures x in s <==> x in Front(s) || x == Last(s)
  {
    assert s == Front(s) + [Last(s)];
  }

  lemma {:induction false} FlagsOf(budget: nat, ops: seq<Op>)
    ensures Run(budget, ops).cancelled <==> OpCancel in ops
    ensures Run(budget, ops).paused == PausedLast(ops)
  {
    if ops != [] {
      FlagsOf(budget, Front(ops));
      InSnoc(ops, OpCancel);
      SetsFlags(Run(budget, Front(ops)), Last(ops));
    }
  }

  /** A stream is finished exactly when it was cancelled, or its end was accepted and no byte of it is queued. */
  lemma FinishedExactly(budget: nat, ops: seq<Op>)
    ensures var q := Run(budget, ops);
            q.Finished() <==>
              OpCancel in ops || (EndAccepted(AllAccepted(budget, ops)) && ChunkBytes(q.items) == [])
  {
    FlagsOf(budget, ops);
    QueueAccounting(budget, ops);
    FirstInFirstOut(budget, ops);
  }

  /** How many bytes are accepted and not handed out, and how many more the budget allows. */
  function Outstanding(budget: nat, ops: seq<Op>): nat {
    |ChunkBytes(Run(budget, ops).items)|
  }

  function Room(budget: nat, ops: seq<Op>): nat {
    SaturatingSub(Max(budget, 1), Outstanding(budget, ops))
  }

  /** What the history says of the fields. */
  lemma FieldsSay(budget: nat, ops: seq<Op>)
    ensures var q, accepted, handed := Run(budget, ops), AllAccepted(budget, ops), AllHanded(budget, ops);
            && (StillOpen(budget, ops) <==> !q.cancelled && !q.ended)
            && (OpCancel in ops <==> q.cancelled) && q.paused == PausedLast(ops)
            && q.buffered == Outstanding(budget, ops) && q.Spare() == Room(budget, ops)
            && handed <= accepted && (q.cancelled ==> q.items == []) && (!q.cancelled ==> handed + q.items == accepted)
  {
    FlagsOf(budget, ops);
    QueueAccounting(budget, ops);
    FirstInFirstOut(budget, ops);
  }

  lemma OneMore(budget: nat, ops: seq<Op>, op: Op)
    ensures Run(budget, ops + [op]) == Apply(Run(budget, ops), op)
    ensures AllAccepted(budget, ops + [op]) == AllAccepted(budget, ops) + Accepted(Run(budget, ops), op)
    ensures AllHanded(budget, ops + [op]) == AllHanded(budget, ops) + Handed(Run(budget, ops), op)
  {
    assert Front(ops + [op]) == ops;
  }

  /** An open stream accepts any item pushed, and a closed one none. */
  lemma PushAccepts(budget: nat, ops: seq<Op>, item: Item)
    ensures var accepted := AllAccepted(budget, ops);
            AllAccepted(budget, ops + [OpPush(item)])
            == if StillOpen(budget, ops) then accepted + [item] else accepted
    ensures Run(budget, ops).Push(item).1 <==> StillOpen(budget, ops)
  {
    FieldsSay(budget, ops);
    OneMore(budget, ops, OpPush(item));
  }

  /** Of a slice an open stream accepts all that the budget allows. */
  lemma SliceAccepts(budget: nat, ops: seq<Op>, bytes: Bytes)
    ensures var accepted, n := AllAccepted(budget, ops), Min(|bytes|, Room(budget, ops));
            AllAccepted(budget, ops + [OpPushWithinBudget(bytes)])
            == if StillOpen(budget, ops) && n > 0 then accepted + [Chunk(bytes[..n])] else accepted
    ensures Run(budget, ops).PushWithinBudget(bytes).1
         == if StillOpen(budget, ops) then Some(Min(|bytes|, Room(budget, ops))) else None
  {
    FieldsSay(budget, ops);
    OneMore(budget, ops, OpPushWithinBudget(bytes));
  }

  /** A whole chunk an open stream accepts if and only if it is within the budget, or no byte is queued. */
  lemma WholeAccepts(budget: nat, ops: seq<Op>, bytes: Bytes)
    ensures var accepted := AllAccepted(budget, ops);
            AllAccepted(budget, ops + [OpPushIfRoom(bytes)])
            == if StillOpen(budget, ops) && (Outstanding(budget, ops) == 0 || |bytes| <= Room(budget, ops))
               then accepted + [Chunk(bytes)] else accepted
    ensures Run(budget, ops).PushIfRoom(bytes).1
         == if StillOpen(budget, ops) then Some(Outstanding(budget, ops) == 0 || |bytes| <= Room(budget, ops)) else None
  {
    FieldsSay(budget, ops);
    OneMore(budget, ops, OpPushIfRoom(bytes));
  }

  /**
   What is handed out, exactly: the first item accepted and not handed out yet,
   unless the stream is paused, and none once it is cancelled.
   */
  lemma HandedExactly(budget: nat, ops: seq<Op>)
    ensures var accepted, handed := AllAccepted(budget, ops), AllHanded(budget, ops);
            AllHanded(budget, ops + [OpTakeNext])
            == if !PausedLast(ops) && OpCancel !in ops && |handed| < |accepted| then handed + [accepted[|handed|]]
               else handed
  {
    FieldsSay(budget, ops);
    OneMore(budget, ops, OpTakeNext);
    assert AllHanded(budget, ops) + [] == AllHanded(budget, ops);
  }

  /** Who may wait, exactly: a reader with nothing to hear, and a writer who has no room. */
  lemma ParksExactly(budget: nat, ops: seq<Op>, w: Waiter)
    ensures var q := Run(budget, ops);
            && (q.Park(w).1 <==> StillOpen(budget, ops) && Outstanding(budget, ops) == 0)
            && (q.ParkWriter(w).1 <==> OpCancel !in ops && (PausedLast(ops) || Room(budget, ops) == 0))
            && q.Park(w).0 == (if q.Park(w).1 then q.(waiter := Some(w)) else q)
            && q.ParkWriter(w).0 == (if q.ParkWriter(w).1 then q.(waiter := Some(w)) else q)
            && (q.WriterOwed() <==> q.waiter != None && !q.ParkWriter(w).1)
  {
    FieldsSay(budget, ops);
  }

  // ------------------------------------------------------------------- budget

  function Chunks(items: seq<Item>): nat {
    if items == [] then 0 else (if items[0].Chunk? then 1 else 0) + Chunks(items[1..])
  }

  lemma {:induction false} ChunksConcat(a: seq<Item>, b: seq<Item>)
    ensures Chunks(a + b) == Chunks(a) + Chunks(b)
  {
    if a == [] {
      assert a + b == b;
    } else {
      ChunksConcat(a[1..], b);
      assert (a + b)[1..] == a[1..] + b;
    }
  }

  /** With non-empty chunks only, no buffered bytes means no chunk. */
  predicate NoEmptyChunk(items: seq<Item>) {
    forall i :: 0 <= i < |items| && items[i].Chunk? ==> items[i].bytes != []
  }

  lemma {:induction false} NoBytesNoChunks(items: seq<Item>)
    requires NoEmptyChunk(items) && ChunkBytes(items) == []
    ensures Chunks(items) == 0
  {
    if items != [] {
      assert |ChunkBytes(items)| == |BytesOf(items[0])| + |ChunkBytes(items[1..])|;
      assert NoEmptyChunk(items[1..]);
      NoBytesNoChunks(items[1..]);
    }
  }

  /** The operation does not add a chunk but by taking what the budget allows. */
  predicate WithinBudgetOnly(op: Op) {
    !op.OpPushIfRoom? && !(op.OpPush? && op.item.Chunk?)
  }

  lemma {:induction false} SlicedQueueWithinBudget(budget: nat, ops: seq<Op>)
    requires forall i :: 0 <= i < |ops| ==> WithinBudgetOnly(ops[i])
    ensures Run(budget, ops).buffered <= Run(budget, ops).capacity
  {
    if ops != [] {
      SlicedQueueWithinBudget(budget, Front(ops));
      assert WithinBudgetOnly(Last(ops));
      var q := Run(budget, Front(ops));
      match Last(ops)
      case OpPush(item) => assert BytesOf(item) == [];
      case OpPushWithinBudget(bytes) => assert q.PushWithinBudget(bytes).0.buffered <= q.capacity;
      case _ =>
    }
  }

  /** The operation adds chunks only whole, non-empty and by `push_chunk_if_room`. */
  predicate WholeDeliveriesOnly(op: Op) {
    && !op.OpPushWithinBudget?
    && !(op.OpPush? && op.item.Chunk?)
    && (op.OpPushIfRoom? ==> op.bytes != [])
  }

  /** Within budget, or holding exactly one delivery that alone exceeds it. */
  predicate BudgetOrOneOversize(q: Queue) {
    q.buffered <= q.capacity || Chunks(q.items) == 1
  }

  lemma {:induction false} WholeDeliveriesWithinBudget(budget: nat, ops: seq<Op>)
    requires forall i :: 0 <= i < |ops| ==> WholeDeliveriesOnly(ops[i])
    ensures BudgetOrOneOversize(Run(budget, ops)) && NoEmptyChunk(Run(budget, ops).items)
  {
    if ops != [] {
      WholeDeliveriesWithinBudget(budget, Front(ops));
      assert WholeDeliveriesOnly(Last(ops));
      var q := Run(budget, Front(ops));
      QueueAccounting(budget, Front(ops));
      WholeDeliveryKeepsBudget(q, Last(ops));
    }
  }

  lemma TakeKeepsBudget(q: Queue)
    requires Accounted(q) && BudgetOrOneOversize(q) && q.items != []
    ensures BudgetOrOneOversize(q.TakeNext().0)
  {
    var rest := q.items[1..];
    assert Chunks(q.items) == (if q.items[0].Chunk? then 1 else 0) + Chunks(rest);
    assert ChunkBytes(q.items) == BytesOf(q.items[0]) + ChunkBytes(rest);
    if q.items[0].Chunk? && Chunks(q.items) == 1 {
      NoChunksNoBytes(rest);
    }
  }

  lemma WholeDeliveryKeepsBudget(q: Queue, op: Op)
    requires Accounted(q) && BudgetOrOneOversize(q) && NoEmptyChunk(q.items) && WholeDeliveriesOnly(op)
    ensures BudgetOrOneOversize(Apply(q, op)) && NoEmptyChunk(Apply(q, op).items)
  {
    match op
    case OpPush(item) => ChunksConcat(q.items, [item]);
    case OpPushIfRoom(bytes) =>
      if q.buffered == 0 {
        NoBytesNoChunks(q.items);
      }
      ChunksConcat(q.items, [Chunk(bytes)]);
      assert Chunks([Chunk(bytes)]) == 1 + Chunks([]);
    case OpTakeNext =>
      if q.items != [] {
        TakeKeepsBudget(q);
      }
    case _ =>
  }

  lemma {:induction false} NoChunksNoBytes(items: seq<Item>)
    requires Chunks(items) == 0
    ensures ChunkBytes(items) == []
  {
    if items != [] {
      NoChunksNoBytes(items[1..]);
    }
  }

  // ---------------------------------------------------------------- the object

  class ResponseStream {
    var items: seq<Item>
    var bufferedBytes: nat
    var isCancelled: bool
    var ended: bool
    var paused: bool
    var waiter: Option<Waiter>
    const maxBufferedBytes: nat

    ghost const budget: nat
    ghost var history: seq<Op>

    ghost function State(): Queue
      reads this
    {
      Queue(items, bufferedBytes, isCancelled, ended, paused, waiter, maxBufferedBytes)
    }

    /** The fields hold what the recorded lock acquisitions leave behind. */
    ghost predicate Valid()
      reads this
    {
      State() == Run(budget, history)
    }

    constructor (budget: nat)
      ensures Valid() && State() == NewQueue(budget) && history == []
    {
      items, bufferedBytes := [], 0;
      isCancelled, ended, paused := false, false, false;
      waiter := None;
      maxBufferedBytes := if budget == 0 then 1 else budget;
      this.budget := budget;
      history := [];
    }

    lemma RunOneMore(op: Op)
      ensures Run(budget, history + [op]) == Apply(Run(budget, history), op)
    {
      assert Front(history + [op]) == history;
    }

    ghost method Record(op: Op)
      requires State() == Apply(Run(budget, history), op)
      modifies this`history
      ensures Valid() && history == old(history) + [op]
    {
      RunOneMore(op);
      history := history + [op];
    }

    method Cancel()
      requires Valid()
      modifies this
      ensures Valid() && State() == old(State()).Cancel() && history == old(history) + [OpCancel]
    {
      isCancelled := true;
      items := [];
      bufferedBytes := 0;
      Record(OpCancel);
    }

    method Park(w: Waiter) returns (parked: bool)
      requires Valid()
      modifies this
      ensures Valid() && (State(), parked) == old(State()).Park(w) && history == old(history) + [OpPark(w)]
    {
      if bufferedBytes > 0 || ended || isCancelled {
        parked := false;
      } else {
        waiter := Some(w);
        parked := true;
      }
      Record(OpPark(w));
    }

    method Unpark() returns (taken: Option<Waiter>)
      requires Valid()
      modifies this
      ensures Valid() && (State(), taken) == old(State()).Unpark() && history == old(history) + [OpUnpark]
    {
      taken := waiter;
      waiter := None;
      Record(OpUnpark);
    }

    method ParkWriter(w: Waiter) returns (parked: bool)
      requires Valid()
      modifies this
      ensures Valid() && (State(), parked) == old(State()).ParkWriter(w) && history == old(history) + [OpParkWriter(w)]
    {
      if isCancelled || !(paused || bufferedBytes >= maxBufferedBytes) {
        parked := false;
      } else {
        waiter := Some(w);
        parked := true;
      }
      Record(OpParkWriter(w));
    }

    method WriterOwedWakeup() returns (owed: bool)
      ensures owed == State().WriterOwed()
    {
      owed := waiter.Some? && (isCancelled || !(paused || bufferedBytes >= maxBufferedBytes));
    }

    /** By the history of the stream: it was cancelled, or its end was accepted and no byte is left of it. */
    method IsFinished() returns (finished: bool)
      requires Valid()
      ensures finished == State().Finished()
      ensures finished <==> OpCancel in history || (EndAccepted(AllAccepted(budget, history)) && ChunkBytes(items) == [])
    {
      FinishedExactly(budget, history);
      finished := isCancelled || (ended && bufferedBytes == 0);
    }

    method SpareCapacity() returns (spare: nat)
      ensures spare == State().Spare()
    {
      spare := SaturatingSub(maxBufferedBytes, bufferedBytes);
    }

    method SetPaused(p: bool)
      requires Valid()
      modifies this
      ensures Valid() && State() == old(State()).SetPaused(p) && history == old(history) + [OpSetPaused(p)]
    {
      paused := p;
      Record(OpSetPaused(p));
    }

    method Push(item: Item) returns (accepted: bool)
      requires Valid()
      modifies this
      ensures Valid() && (State(), accepted) == old(State()).Push(item) && history == old(history) + [OpPush(item)]
    {
      if isCancelled || ended {
        accepted := false;
      } else {
        match item {
          case Chunk(bytes) => bufferedBytes := bufferedBytes + |bytes|;
          case End => ended := true;
          case Failed(_) => ended := true;
          case Head(_) =>
        }
        items := items + [item];
        accepted := true;
      }
      Record(OpPush(item));
    }

    method PushChunkWithinBudget(bytes: Bytes) returns (taken: Option<nat>)
      requires Valid()
      modifies this
      ensures Valid() && (State(), taken) == old(State()).PushWithinBudget(bytes)
      ensures history == old(history) + [OpPushWithinBudget(bytes)]
    {
      if isCancelled || ended {
        taken := None;
      } else {
        var n := Min(|bytes|, SaturatingSub(maxBufferedBytes, bufferedBytes));
        if n > 0 {
          bufferedBytes := bufferedBytes + n;
          items := items + [Chunk(bytes[..n])];
        }
        taken := Some(n);
      }
      Record(OpPushWithinBudget(bytes));
    }

    method PushChunkIfRoom(bytes: Bytes) returns (fits: Option<bool>)
      requires Valid()
      modifies this
      ensures Valid() && (State(), fits) == old(State()).PushIfRoom(bytes)
      ensures history == old(history) + [OpPushIfRoom(bytes)]
    {
      if isCancelled || ended {
        fits := None;
      } else {
        var room := SaturatingSub(maxBufferedBytes, bufferedBytes);
        if bufferedBytes > 0 && |bytes| > room {
          fits := Some(false);
        } else {
          bufferedBytes := bufferedBytes + |bytes|;
          items := items + [Chunk(bytes)];
          fits := Some(true);
        }
      }
      Record(OpPushIfRoom(bytes));
    }

    method TakeNext() returns (item: Option<Item>)
      requires Valid()
      modifies this
      ensures Valid() && (State(), item) == old(State()).TakeNext() && history == old(history) + [OpTakeNext]
    {
      if paused || items == [] {
        item := None;
      } else {
        item := Some(items[0]);
        items := items[1..];
        if item.value.Chunk? {
          bufferedBytes := SaturatingSub(bufferedBytes, |item.value.bytes|);
        }
      }
      Record(OpTakeNext);
    }
  }
}
