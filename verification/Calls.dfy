/**
 A buffered upstream call: how the worker turns Envoy's answer into items
 (crates/ruvoy-envoy-fiber/src/upstream.rs), and how the fiber puts the answer
 together again (`UpstreamCall`, src/extensions.rs), whatever of it has arrived
 when it looks; and the body of a streamed response (`UpstreamBody`,
 ruby/upstream.rb).
 */
module Calls {
  import opened Basics
  import opened Streams
  import opened Chunks
  import opened Decimals

  type Fields = seq<(string, string)>

  datatype CalloutResult = Success | WasReset | OverEnvoyLimit

  datatype Outcome = Completed | Overflow | TooLarge | Reset

  /** What comes of a call: a whole response, or a failure. */
  datatype Answer =
    | Answered(head: ResponseHead, body: Bytes)
    | Refused(error: BridgeError)

  // ------------------------------------------------------------------ the worker

  predicate IsDigits(s: string) {
    s != "" && forall i :: 0 <= i < |s| ==> '0' <= s[i] <= '9'
  }

  /** `str::parse::<u16>`. */
  function ParseU16(s: string): Option<nat> {
    var digits := if "+" <= s then s[1..] else s;
    if IsDigits(digits) && 0 <= Number(digits) < 0x1_0000 then Some(Number(digits)) else None
  }

  /** The last `:status` decides, even when it does not parse. */
  function StatusOf(headers: Fields): Option<nat> {
    if headers == [] then None
    else if Last(headers).0 == ":status" then ParseU16(Last(headers).1)
    else StatusOf(Front(headers))
  }

  /** The fields that are no pseudo-headers, in order. */
  function PlainFields(headers: Fields): Fields {
    if headers == [] then []
    else PlainFields(Front(headers)) + if ":" <= Last(headers).0 then [] else [Last(headers)]
  }

  /** A status says its number in at most sixteen bits, and says nothing else. */
  lemma StatusParses(s: string, n: nat)
    ensures ParseU16(s) == Some(n) ==>
              var digits := if "+" <= s then s[1..] else s; IsDigits(digits) && Number(digits) == n < 0x1_0000
    ensures s == Decimal(n) && n < 0x1_0000 ==> ParseU16(s) == Some(n)
  {
    DecimalSaysItsNumber(n);
    DecimalIsDigits(n);
  }

  lemma {:induction false} DecimalIsDigits(n: nat)
    ensures IsDigits(Decimal(n)) && !("+" <= Decimal(n))
    decreases n
  {
    if n >= 10 {
      DecimalIsDigits(n / 10);
    }
    assert '0' <= Digit(n % 10) <= '9';
    assert '0' <= Decimal(n)[0];
  }

  /** The field at `i` is the last of its name. */
  predicate LastNamed(headers: Fields, i: nat, name: string) {
    i < |headers| && headers[i].0 == name && forall j :: i < j < |headers| ==> headers[j].0 != name
  }

  /** The last `:status` decides alone; without one there is none. */
  lemma {:induction false} LastStatusDecides(headers: Fields, i: nat)
    ensures LastNamed(headers, i, ":status") ==> StatusOf(headers) == ParseU16(headers[i].1)
    ensures (forall j :: 0 <= j < |headers| ==> headers[j].0 != ":status") ==> StatusOf(headers) == None
  {
    if headers != [] {
      LastStatusDecides(Front(headers), i);
    }
  }

  /** Field by field, in order: a pseudo-header is left out and any other field kept. */
  lemma {:induction false} PlainFieldsInOrder(a: Fields, b: Fields, field: (string, string))
    ensures PlainFields(a + b) == PlainFields(a) + PlainFields(b)
    ensures PlainFields([field]) == if field.0 != "" && field.0[0] == ':' then [] else [field]
  {
    assert Front([field]) == [];
    if b == [] {
      assert a + b == a;
    } else {
      PlainFieldsInOrder(a, Front(b), field);
      FrontOfConcat(a, b);
      ConcatIsAssociative(PlainFields(a), PlainFields(Front(b)), if ":" <= Last(b).0 then [] else [Last(b)]);
    }
  }

  method HeadOf(headers: Fields) returns (head: Option<ResponseHead>)
    ensures head == if StatusOf(headers) == None then None
                    else Some(ResponseHead(StatusOf(headers).value, PlainFields(headers)))
  {
    var status: Option<nat> := None;
    var fields: Fields := [];
    for i := 0 to |headers|
      invariant status == StatusOf(headers[..i]) && fields == PlainFields(headers[..i])
    {
      assert Front(headers[..i + 1]) == headers[..i];
      if headers[i].0 == ":status" {
        status := ParseU16(headers[i].1);
      } else if !(":" <= headers[i].0) {
        fields := fields + [headers[i]];
      }
    }
    assert headers[..|headers|] == headers;
    head := if status == None then None else Some(ResponseHead(status.value, fields));
  }

  method Concatenate(pieces: seq<Bytes>) returns (bytes: Bytes)
    ensures bytes == Flatten(pieces)
  {
    bytes := [];
    for i := 0 to |pieces|
      invariant bytes == Flatten(pieces[..i])
    {
      assert pieces[..i + 1] == pieces[..i] + [pieces[i]];
      FlattenSnoc(pieces[..i], pieces[i]);
      bytes := bytes + pieces[i];
    }
    assert pieces[..|pieces|] == pieces;
  }

  function AnswerOf(result: CalloutResult, headers: Fields, pieces: seq<Bytes>, limit: nat): Answer {
    match result
    case WasReset => Refused(Upstream)
    case OverEnvoyLimit => Refused(UpstreamTooLarge)
    case Success =>
      if |Flatten(pieces)| > limit then Refused(UpstreamTooLarge)
      else if StatusOf(headers) == None then Refused(Upstream)
      else Answered(ResponseHead(StatusOf(headers).value, PlainFields(headers)), Flatten(pieces))
  }

  /** The items an answer goes through a queue as. */
  function ItemsOf(answer: Answer): seq<Item> {
    match answer
    case Answered(head, body) => [Head(head)] + (if body == [] then [] else [Chunk(body)]) + [End]
    case Refused(error) => [Failed(error)]
  }

  function OutcomeOf(answer: Answer): Outcome {
    match answer
    case Answered(_, _) => Completed
    case Refused(UpstreamOverflow) => Overflow
    case Refused(UpstreamTooLarge) => TooLarge
    case Refused(_) => Reset
  }

  lemma {:induction false} BytesOfWhole(head: ResponseHead, body: Bytes)
    ensures ChunkBytes(ItemsOf(Answered(head, body))) == body
  {
    var tail := (if body == [] then [] else [Chunk(body)]) + [End];
    assert ItemsOf(Answered(head, body)) == [Head(head)] + tail;
    ChunkBytesCons(Head(head), tail);
    ChunkBytesSnoc(if body == [] then [] else [Chunk(body)], End);
    ChunkBytesSnoc([], Chunk(body));
    assert [] + [Chunk(body)] == [Chunk(body)];
  }

  /** A whole answer is its head, its body and an end. */
  lemma ItemsSay(before: seq<Item>, answer: Answer)
    requires answer.Answered?
    ensures var items := before + ItemsOf(answer);
            && items[..|before| + 1] == before + [Head(answer.head)]
            && ChunkBytes(items) == ChunkBytes(before) + answer.body && Last(items) == End
  {
    var items := ItemsOf(answer);
    ChunkBytesConcat(before, items);
    BytesOfWhole(answer.head, answer.body);
    Joined(before, items);
  }

  lemma Joined(before: seq<Item>, items: seq<Item>)
    requires items != []
    ensures (before + items)[..|before| + 1] == before + [items[0]] && Last(before + items) == Last(items)
  {
  }

  /** The queue after the items of an answer were pushed, each under a lock of its own. */
  ghost predicate Delivered(was: Queue, q: Queue, answer: Answer) {
    if was.cancelled || was.ended then q == was
    else q.items == was.items + ItemsOf(answer) && q.ended && !q.cancelled
  }

  method PushAnswer(response: ResponseStream, answer: Answer)
    requires response.Valid()
    modifies response
    ensures response.Valid() && Delivered(old(response.State()), response.State(), answer)
  {
    var accepted;
    match answer {
      case Answered(head, body) =>
        accepted := response.Push(Head(head));
        if body != [] {
          accepted := response.Push(Chunk(body));
        }
        accepted := response.Push(End);
      case Refused(error) =>
        accepted := response.Push(Failed(error));
    }
  }

  /** `deliver`: the answer goes into the response queue, and its outcome to the counters. */
  method Deliver(response: ResponseStream, result: CalloutResult, headers: Fields, pieces: seq<Bytes>, limit: nat)
    returns (outcome: Outcome)
    requires response.Valid()
    modifies response
    ensures response.Valid()
    ensures outcome == OutcomeOf(AnswerOf(result, headers, pieces, limit))
    ensures Delivered(old(response.State()), response.State(), AnswerOf(result, headers, pieces, limit))
    ensures outcome == Completed <==> result == Success && |Flatten(pieces)| <= limit && StatusOf(headers) != None
    ensures outcome == TooLarge <==> result == OverEnvoyLimit || (result == Success && |Flatten(pieces)| > limit)
    ensures outcome != Overflow
    ensures var was, q := old(response.State()), response.State();
            !was.cancelled && !was.ended ==>
              if outcome == Completed then
                && q.items[..|was.items| + 1] == was.items + [Head(ResponseHead(StatusOf(headers).value, PlainFields(headers)))]
                && ChunkBytes(q.items) == ChunkBytes(was.items) + Flatten(pieces) && Last(q.items) == End
              else
                q.items == was.items + [Failed(if outcome == TooLarge then UpstreamTooLarge else Upstream)]
  {
    var answer := Refused(if result == OverEnvoyLimit then UpstreamTooLarge else Upstream);
    if result == Success {
      var body := Concatenate(pieces);
      var head := HeadOf(headers);
      answer := if |body| > limit then Refused(UpstreamTooLarge)
                else if head == None then Refused(Upstream)
                else Answered(head.value, body);
    }
    if answer.Answered? {
      ItemsSay(response.items, answer);
    }
    PushAnswer(response, answer);
    outcome := OutcomeOf(answer);
  }

  // ------------------------------------------------------------------- the fiber

  datatype Reply =
    | NotYet
    | Response(head: ResponseHead, body: Bytes)
    | CallFailed(error: BridgeError)
    | AlreadyTaken
    | EndedBeforeHead

  function ReplyOf(answer: Answer): Reply {
    match answer
    case Answered(head, body) => Response(head, body)
    case Refused(error) => CallFailed(error)
  }

  /** What was put together so far, and what is left of the answer. */
  predicate Partly(answer: Answer, head: Option<ResponseHead>, body: Bytes, left: seq<Item>) {
    match answer
    case Refused(_) => left == ItemsOf(answer) && head == None && body == []
    case Answered(h, b) =>
      || (left == ItemsOf(answer) && head == None && body == [])
      || (left == ItemsOf(answer)[1..] && head == Some(h) && body == [])
      || (left == [End] && head == Some(h) && body == b)
  }

  /** What the fiber makes of the next item. */
  function Took(head: Option<ResponseHead>, body: Bytes, item: Item): (Option<ResponseHead>, Bytes) {
    match item
    case Head(h) => (Some(h), body)
    case Chunk(bytes) => (head, body + bytes)
    case _ => (head, body)
  }

  lemma TakesOn(answer: Answer, head: Option<ResponseHead>, body: Bytes, left: seq<Item>, item: Item, rest: seq<Item>)
    requires Partly(answer, head, body, left) && left == [item] + rest
    ensures !item.Terminal() ==> Partly(answer, Took(head, body, item).0, Took(head, body, item).1, rest)
    ensures item.End? ==> rest == [] && head != None && answer == Answered(head.value, body)
    ensures item.Failed? ==> rest == [] && answer == Refused(item.error)
  {
    assert rest == left[1..];
    assert item == left[0];
    if answer.Answered? && item.Chunk? {
      assert [] + answer.body == answer.body;
    }
  }

  /** The fiber's end of a call: the part of the answer assembled so far, which with `Left()` is all of it. */
  class UpstreamCall {
    const response: ChunkSource
    var head: Option<ResponseHead>
    var body: Bytes
    var taken: bool
    ghost const answer: Answer

    function Left(): seq<Item>
      reads response
    {
      response.queue.items + response.coming
    }

    ghost predicate Valid()
      reads this, response
    {
      response.Valid() && if taken then Left() == [] else Partly(answer, head, body, Left())
    }

    constructor (answer: Answer, pace: seq<nat>, budget: nat)
      ensures Valid() && this.answer == answer && !taken && fresh(response)
    {
      response := new ChunkSource(ItemsOf(answer), pace, budget);
      head, body, taken, this.answer := None, [], false, answer;
      new;
      assert Left() == ItemsOf(answer);
    }

    /** One item of the answer, if it has arrived. */
    method TakeOne() returns (more: bool, reply: Reply)
      requires Valid() && !taken
      modifies this`head, this`body, this`taken, response
      ensures Valid() && response.Size() <= old(response.Size())
      ensures more ==> !taken && response.Size() < old(response.Size())
      ensures !more && !taken ==> reply == NotYet && response.Size() < old(response.Size())
      ensures !more && taken ==> reply == ReplyOf(answer) && head == None && body == []
    {
      more, reply := false, NotYet;
      var item := response.TakeNext();
      if item == None {
        return;
      }
      TakesOn(answer, head, body, old(Left()), item.value, Left());
      match item.value {
        case Head(h) => head, more := Some(h), true;
        case Chunk(bytes) => body, more := body + bytes, true;
        case End =>
          taken := true;
          if head == None {
            reply := EndedBeforeHead;
          } else {
            reply := Reply.Response(head.value, body);
            head, body := None, [];
          }
        case Failed(error) =>
          taken := true;
          reply := CallFailed(error);
      }
    }

    /** `response`: the answer once all of it has arrived, nothing before, and an error once it was taken. */
    method Response() returns (reply: Reply)
      requires Valid()
      modifies this`head, this`body, this`taken, response
      ensures Valid() && response.Size() <= old(response.Size()) && (old(taken) ==> taken)
      ensures reply == if old(taken) then AlreadyTaken else if taken then ReplyOf(answer) else NotYet
      ensures !taken ==> response.Size() < old(response.Size())
    {
      if taken {
        return AlreadyTaken;
      }
      var more;
      more, reply := TakeOne();
      while more
        invariant Valid() && response.Size() <= old(response.Size())
        invariant more ==> !taken
        invariant !more ==> reply == if taken then ReplyOf(answer) else NotYet
        invariant !taken ==> response.Size() < old(response.Size())
        decreases response.Size(), more
      {
        more, reply := TakeOne();
      }
    }

    /** The loop of `call`: waits for the answer, which comes out as it went in. */
    method Await() returns (reply: Reply)
      requires Valid() && !taken
      modifies this`head, this`body, this`taken, response
      ensures Valid() && taken && reply == ReplyOf(answer)
    {
      reply := Response();
      while reply == NotYet
        invariant Valid()
        invariant reply == if taken then ReplyOf(answer) else NotYet
        decreases response.Size(), reply == NotYet
      {
        response.Park();
        reply := Response();
      }
    }
  }

  // -------------------------------------------------- the body of a streamed response

  /**
   `UpstreamBody#each`: every chunk of the response, until the stream is finished
   or its failure is raised; in either case all its bytes were yielded.
   */
  method EachChunk(reader: ChunkSource) returns (yielded: Bytes, failure: Option<BridgeError>)
    requires reader.Valid()
    modifies reader
    ensures reader.Valid() && yielded == old(reader.Rest()) && reader.Rest() == []
    ensures if failure == None then reader.Unraised() == old(reader.Unraised()) else old(reader.Unraised()) == failure
    ensures reader.queue.Finished()
  {
    yielded, failure := [], None;
    var finished := false;
    while !finished
      invariant reader.Valid() && yielded + reader.Rest() == old(reader.Rest())
      invariant reader.Unraised() == old(reader.Unraised())
      invariant finished ==> reader.Rest() == [] && reader.queue.Finished()
      decreases reader.Size(), !finished
    {
      var pull := reader.NextChunk();
      match pull {
        case Got(bytes) =>
          ConcatIsAssociative(yielded, bytes, reader.Rest());
          yielded := yielded + bytes;
        case Raised(error) =>
          return yielded, Some(error);
        case Nothing =>
          finished := reader.Finished();
          if !finished {
            reader.Park();
          }
      }
    }
  }
}
