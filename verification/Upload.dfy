/**
 The body of a streamed upstream call on its way up (ruby/upstream.rb): read ahead
 from an IO whose reads return what they like, sent with a length when it ends
 early, and written into the exchange's request queue; then what of it the worker
 sends (`Exchange`).
 */
module Upload {
  import opened Basics
  import opened Streams
  import opened Chunks
  import opened Decimals
  import E = Exchange

  const UPLOAD_BYTES: nat := 64 * 1024

  // ------------------------------------------------------------------------ IO

  datatype ReadResult = Piece(bytes: Bytes) | EndOfInput | Raised

  /** An IO is the pieces its reads return, however short, and then nil or an exception. */
  class IO {
    var pieces: seq<Bytes>
    const raises: bool

    constructor (pieces: seq<Bytes>, raises: bool)
      ensures this.pieces == pieces && this.raises == raises
    {
      this.pieces, this.raises := pieces, raises;
    }

    function Rest(): Bytes
      reads this
    {
      Flatten(pieces)
    }

    method Read() returns (result: ReadResult)
      modifies this
      ensures match result
              case Piece(bytes) => old(Rest()) == bytes + Rest() && |pieces| < |old(pieces)|
              case EndOfInput => pieces == old(pieces) && Rest() == [] && !raises
              case Raised => raises && Rest() == []
    {
      if pieces == [] {
        return if raises then ReadResult.Raised else EndOfInput;
      }
      result := Piece(pieces[0]);
      pieces := pieces[1..];
    }
  }

  // ------------------------------------------------------------------- preread

  datatype Prereading =
    | Preread(read: Option<Bytes>, more: bool)
    | ReadFailed

  /** What was read and what the input still holds are always its whole content; `more` says if there is a second half. */
  method PrereadBody(io: IO) returns (result: Prereading)
    modifies io
    ensures result.ReadFailed? ==> io.raises
    ensures result.Preread? && !result.more ==>
              && result.read == (if old(io.Rest()) == [] then None else Some(old(io.Rest())))
              && |old(io.Rest())| <= UPLOAD_BYTES
    ensures result.Preread? && result.more ==>
              && result.read != None && |result.read.value| > UPLOAD_BYTES
              && old(io.Rest()) == result.read.value + io.Rest()
  {
    var read: Bytes := [];
    while |read| <= UPLOAD_BYTES
      invariant old(io.Rest()) == read + io.Rest()
      decreases |io.pieces|
    {
      var piece := io.Read();
      match piece {
        case Piece(bytes) =>
          ConcatIsAssociative(read, bytes, io.Rest());
          read := read + bytes;
        case EndOfInput =>
          assert read + [] == read;
          return Preread(if read == [] then None else Some(read), false);
        case Raised => return ReadFailed;
      }
    }
    return Preread(Some(read), true);
  }

  // -------------------------------------------------------------------- upload

  /**
   The fiber's discipline on the request queue: what it offers is what comes next
   of the content, and it ends the queue only once all of it was accepted, unless
   the queue is over.
   */
  predicate Disciplined(call: Call, content: Bytes) {
    match call
    case Offered(before, bytes) => before + bytes <= content
    case Finished(before, over) => over || before == content
  }

  ghost predicate AllDisciplined(calls: seq<Call>, content: Bytes) {
    forall i :: 0 <= i < |calls| ==> Disciplined(calls[i], content)
  }

  lemma OffersAreDisciplined(was: seq<Call>, calls: seq<Call>, part: Bytes, content: Bytes)
    requires AllDisciplined(was, content) && OnlyOffered(was, calls, part) && part <= content
    ensures AllDisciplined(calls, content)
  {
  }

  /** Writes one piece, if what was accepted before is all that came before it. */
  method SendPiece(sink: ChunkSink, piece: Bytes, ghost rest: Bytes, ghost content: Bytes) returns (sent: bool)
    requires sink.Valid() && !sink.finished
    requires sink.accepted + (piece + rest) == content && AllDisciplined(sink.calls, content)
    modifies sink`queue, sink`turns, sink`accepted, sink`calls
    ensures sink.Valid() && !sink.finished && AllDisciplined(sink.calls, content)
    ensures sent ==> sink.accepted + rest == content
    ensures !sent ==> sink.queue.cancelled && sink.accepted <= content
  {
    ConcatIsAssociative(sink.accepted, piece, rest);
    sent := WriteWhole(sink, piece);
    OffersAreDisciplined(old(sink.calls), sink.calls, old(sink.accepted) + piece, content);
  }

  /** The loop of `upload` over what the input still holds. */
  method SendRest(sink: ChunkSink, io: IO, ghost content: Bytes) returns (sent: bool, raised: bool)
    requires sink.Valid() && !sink.finished
    requires sink.accepted + io.Rest() == content && AllDisciplined(sink.calls, content)
    modifies sink`queue, sink`turns, sink`accepted, sink`calls, io
    ensures sink.Valid() && !sink.finished && AllDisciplined(sink.calls, content)
    ensures sent && !raised ==> sink.accepted == content
    ensures !sent ==> sink.queue.cancelled
    ensures sink.accepted <= content && (raised ==> io.raises)
  {
    sent, raised := true, false;
    var ended := false;
    while sent && !ended
      invariant sink.Valid() && !sink.finished && AllDisciplined(sink.calls, content)
      invariant sent ==> sink.accepted + io.Rest() == content
      invariant !sent ==> sink.queue.cancelled && sink.accepted <= content
      invariant ended ==> io.Rest() == []
      decreases |io.pieces|, sent && !ended
    {
      var piece := io.Read();
      match piece {
        case Piece(bytes) => sent := SendPiece(sink, bytes, io.Rest(), content);
        case EndOfInput => ended := true;
        case Raised =>
          return true, true;
      }
    }
    if sent {
      assert sink.accepted + [] == sink.accepted;
    }
  }

  datatype Ending =
    /** The end was written, or the upstream was gone. */
    | Ended
    /** A read raised, and the channel was closed. */
    | ChannelClosed

  /**
   `upload`: `read` first, then whatever the input still holds. The end goes into
   the queue only behind the whole content, and not at all when a read raises.
   */
  method UploadBody(sink: ChunkSink, read: Bytes, rest: IO?, ghost content: Bytes) returns (ending: Ending)
    requires sink.Valid() && !sink.finished && sink.accepted == [] && sink.calls == []
    requires content == read + if rest == null then [] else rest.Rest()
    modifies sink, rest
    ensures sink.Valid() && AllDisciplined(sink.calls, content) && sink.accepted <= content
    ensures sink.finished ==> sink.accepted == content
    ensures ending == Ended ==> sink.finished || sink.queue.cancelled
    ensures ending == ChannelClosed ==> !sink.finished && rest != null && rest.raises
  {
    assert sink.accepted + content == content;
    var sent := SendPiece(sink, read, if rest == null then [] else rest.Rest(), content);
    if sent && rest != null {
      var raised;
      sent, raised := SendRest(sink, rest, content);
      if raised {
        return ChannelClosed;
      }
    }
    assert sent ==> sink.accepted == content by {
      assert sink.accepted + [] == sink.accepted;
    }
    sink.Finish();
    return Ended;
  }

  // -------------------------------------------------------------------- fields

  /** A header of a call: its name, its elements as `Array(value)` gives them, and `value.to_s`. */
  datatype Header = Header(name: string, elements: seq<string>, text: string)

  function Lower(s: string): string {
    seq(|s|, i requires 0 <= i < |s| => if 'A' <= s[i] <= 'Z' then s[i] - 'A' + 'a' else s[i])
  }

  function Upper(s: string): string {
    seq(|s|, i requires 0 <= i < |s| => if 'a' <= s[i] <= 'z' then s[i] - 'a' + 'A' else s[i])
  }

  function Named(name: string, values: seq<string>): E.Fields {
    seq(|values|, i requires 0 <= i < |values| => (name, values[i]))
  }

  /** The fields the headers give, `host` aside. */
  function Given(headers: seq<Header>): E.Fields {
    if headers == [] then []
    else
      var header := Last(headers);
      Given(Front(headers)) + if Lower(header.name) == "host" then [] else Named(Lower(header.name), header.elements)
  }

  function HostOf(headers: seq<Header>, cluster: string): string {
    if headers == [] then cluster
    else if Lower(Last(headers).name) == "host" then Last(headers).text
    else HostOf(Front(headers), cluster)
  }

  predicate IsPseudo(header: Header) {
    ":" <= Lower(header.name)
  }

  predicate Has(fields: E.Fields, name: string) {
    exists i :: 0 <= i < |fields| && fields[i].0 == name
  }

  /** The length `fields` adds to what the headers give, if it adds one. */
  function LengthOf(given: E.Fields, body: Option<Bytes>): E.Fields {
    if body == None || Has(given, "content-length") then [] else [("content-length", Decimal(|body.value|))]
  }

  function FieldsOf(cluster: string, verb: string, path: string, headers: seq<Header>, body: Option<Bytes>): E.Fields {
    [(":method", Upper(verb)), (":path", path)] + Given(headers) + LengthOf(Given(headers), body)
    + [("host", HostOf(headers, cluster))]
  }

  predicate Refused(verb: string, path: string, headers: seq<Header>) {
    verb == "" || !("/" <= path) || exists i :: 0 <= i < |headers| && IsPseudo(headers[i])
  }

  /** The loop of `fields` over the headers. */
  method CopyHeaders(start: E.Fields, cluster: string, headers: seq<Header>)
    returns (fields: E.Fields, host: string, ok: bool)
    ensures ok <==> forall i :: 0 <= i < |headers| ==> !IsPseudo(headers[i])
    ensures ok ==> fields == start + Given(headers) && host == HostOf(headers, cluster)
  {
    fields, host := start, cluster;
    for i := 0 to |headers|
      invariant fields == start + Given(headers[..i]) && host == HostOf(headers[..i], cluster)
      invariant forall j :: 0 <= j < i ==> !IsPseudo(headers[j])
    {
      assert Front(headers[..i + 1]) == headers[..i];
      var name := Lower(headers[i].name);
      if ":" <= name {
        assert IsPseudo(headers[i]);
        return fields, host, false;
      }
      if name == "host" {
        host := headers[i].text;
      } else {
        fields := fields + Named(name, headers[i].elements);
      }
    }
    assert headers[..|headers|] == headers;
    ok := true;
  }

  /** `fields`, with the ArgumentErrors it raises as nothing. */
  method MakeFields(cluster: string, verb: string, path: string, headers: seq<Header>, body: Option<Bytes>)
    returns (result: Option<E.Fields>)
    ensures result == if Refused(verb, path, headers) then None else Some(FieldsOf(cluster, verb, path, headers, body))
  {
    if verb == "" || !("/" <= path) {
      return None;
    }
    var start := [(":method", Upper(verb)), (":path", path)];
    var fields, host, ok := CopyHeaders(start, cluster, headers);
    if !ok {
      return None;
    }
    StartHasNoLength(start, Given(headers));
    var length :=
      if body != None && !Has(fields, "content-length") then [("content-length", Decimal(|body.value|))] else [];
    return Some(fields + length + [("host", host)]);
  }

  lemma StartHasNoLength(start: E.Fields, given: E.Fields)
    requires |start| == 2 && start[0].0 == ":method" && start[1].0 == ":path"
    ensures Has(start + given, "content-length") <==> Has(given, "content-length")
  {
    var all := start + given;
    if Has(given, "content-length") {
      var i :| 0 <= i < |given| && given[i].0 == "content-length";
      assert all[i + 2].0 == "content-length";
    }
    if Has(all, "content-length") {
      var i :| 0 <= i < |all| && all[i].0 == "content-length";
      assert ":method" != "content-length" && ":path" != "content-length";
      assert given[i - 2].0 == "content-length";
    }
  }

  lemma OnlyPlace(before: E.Fields, field: (string, string), after: E.Fields, i: nat)
    requires !Has(before, field.0) && !Has(after, field.0) && i < |before + [field] + after|
    ensures (before + [field] + after)[i].0 == field.0 ==> i == |before|
  {
    assert i < |before| ==> before[i].0 != field.0;
    assert i > |before| ==> after[i - |before| - 1].0 != field.0;
  }

  /** Where the headers give no length and the body is known, the one length sent is the body's. */
  lemma OnlyLength(cluster: string, verb: string, path: string, headers: seq<Header>, body: Bytes, i: nat)
    requires !Has(Given(headers), "content-length")
    requires var fields := FieldsOf(cluster, verb, path, headers, Some(body));
             i < |fields| && fields[i].0 == "content-length"
    ensures Number(FieldsOf(cluster, verb, path, headers, Some(body))[i].1) == |body|
  {
    var start, host := [(":method", Upper(verb)), (":path", path)], [("host", HostOf(headers, cluster))];
    StartHasNoLength(start, Given(headers));
    assert "host"[0] != "content-length"[0];
    OnlyPlace(start + Given(headers), ("content-length", Decimal(|body|)), host, i);
    DecimalSaysItsNumber(|body|);
  }

  /** Names are folded letter by letter, so two that differ in case alone are one. */
  lemma FoldsCase(s: string, i: nat)
    requires i < |s|
    ensures |Lower(s)| == |s| == |Upper(s)|
    ensures 'A' <= s[i] <= 'Z' ==> Lower(s)[i] as int == s[i] as int + 32 && Upper(s)[i] == s[i]
    ensures 'a' <= s[i] <= 'z' ==> Upper(s)[i] as int == s[i] as int - 32 && Lower(s)[i] == s[i]
    ensures !('A' <= s[i] <= 'Z') && !('a' <= s[i] <= 'z') ==> Lower(s)[i] == s[i] == Upper(s)[i]
  {
  }

  /** The fields given, exactly: every element of every header but `host`, under the folded name. */
  lemma {:induction false} GivenExactly(headers: seq<Header>, name: string, value: string)
    ensures (name, value) in Given(headers) <==>
              name != "host" && exists i :: 0 <= i < |headers| && Lower(headers[i].name) == name && value in headers[i].elements
  {
    if headers != [] {
      GivenExactly(Front(headers), name, value);
      var last := Last(headers);
      NamedExactly(Lower(last.name), last.elements, name, value);
      assert last == headers[|headers| - 1];
      assert forall i :: 0 <= i < |Front(headers)| ==> Front(headers)[i] == headers[i];
    }
  }

  lemma NamedExactly(name: string, values: seq<string>, n: string, value: string)
    ensures (n, value) in Named(name, values) <==> n == name && value in values
  {
    if n == name && value in values {
      var i :| 0 <= i < |values| && values[i] == value;
      assert Named(name, values)[i] == (n, value);
    }
  }

  /** And in the order of the headers, each element in its place. */
  lemma {:induction false} GivenInOrder(a: seq<Header>, b: seq<Header>, header: Header)
    ensures Given(a + b) == Given(a) + Given(b)
    ensures Given([header]) ==
              if Lower(header.name) == "host" then []
              else seq(|header.elements|, i requires 0 <= i < |header.elements| => (Lower(header.name), header.elements[i]))
  {
    assert Front([header]) == [];
    if b == [] {
      assert a + b == a;
    } else {
      GivenInOrder(a, Front(b), header);
      FrontOfConcat(a, b);
      var last := Last(b);
      ConcatIsAssociative(Given(a), Given(Front(b)),
                          if Lower(last.name) == "host" then [] else Named(Lower(last.name), last.elements));
    }
  }

  /** The last `host` header decides; without one it is the cluster. */
  lemma {:induction false} LastHostDecides(headers: seq<Header>, cluster: string, i: nat)
    ensures i < |headers| && Lower(headers[i].name) == "host"
            && (forall j :: i < j < |headers| ==> Lower(headers[j].name) != "host") ==>
              HostOf(headers, cluster) == headers[i].text
    ensures (forall j :: 0 <= j < |headers| ==> Lower(headers[j].name) != "host") ==> HostOf(headers, cluster) == cluster
  {
    if headers != [] {
      LastHostDecides(Front(headers), cluster, i);
    }
  }

  /**
   The shape of what is sent: method and path first, one host and it last, and in
   between neither a pseudo-header nor a host.
   */
  lemma FieldsInShape(cluster: string, verb: string, path: string, headers: seq<Header>, body: Option<Bytes>, k: nat)
    requires !Refused(verb, path, headers)
    ensures var fields := FieldsOf(cluster, verb, path, headers, body);
            && |fields| >= 3 && fields[0] == (":method", Upper(verb)) && fields[1] == (":path", path)
            && Last(fields) == ("host", HostOf(headers, cluster))
            && (2 <= k < |fields| - 1 ==> fields[k].0 != "host" && !(":" <= fields[k].0))
  {
    var fields := FieldsOf(cluster, verb, path, headers, body);
    if 2 <= k < |fields| - 1 {
      if k - 2 < |Given(headers)| {
        assert fields[k] == Given(headers)[k - 2];
        GivenExactly(headers, fields[k].0, fields[k].1);
        var i :| 0 <= i < |headers| && Lower(headers[i].name) == fields[k].0 && fields[k].1 in headers[i].elements;
        assert !IsPseudo(headers[i]);
      } else {
        assert fields[k].0 == "content-length";
        assert "content-length"[0] == 'c' && "host"[0] == 'h';
      }
    }
  }

  /** A length the headers give stands, and without a body none is added. */
  lemma NoLengthAdded(cluster: string, verb: string, path: string, headers: seq<Header>, body: Option<Bytes>)
    requires body == None || exists i :: 0 <= i < |Given(headers)| && Given(headers)[i].0 == "content-length"
    ensures FieldsOf(cluster, verb, path, headers, body)
         == [(":method", Upper(verb)), (":path", path)] + Given(headers) + [("host", HostOf(headers, cluster))]
  {
    var start := [(":method", Upper(verb)), (":path", path)] + Given(headers);
    assert start + [] == start;
  }

  // -------------------------------------------------- the body of a streamed call

  datatype Body =
    | NoBody
    | Text(bytes: Bytes)
    | Readable(io: IO)
  {
    /** Every byte of the body, before any of it is read. */
    function Content(): Bytes
      reads if Readable? then {io} else {}
    {
      match this
      case NoBody => []
      case Text(bytes) => bytes
      case Readable(io) => io.Rest()
    }
  }

  datatype Sent =
    | Sent(fields: E.Fields, ending: Ending)
    /** A read raised, or an argument was refused, before the stream was opened. */
    | NeverOpened

  /**
   What `stream` does with a body: reads ahead, opens the stream, whose request
   side is ended at once when there is no body, and uploads. `sized` is the body the fields were made with.
   */
  method StreamBody(cluster: string, verb: string, path: string, headers: seq<Header>, body: Body, sink: ChunkSink)
    returns (sent: Sent, sized: Option<Bytes>)
    requires sink.Valid() && !sink.finished && sink.accepted == [] && sink.calls == []
    modifies sink, if body.Readable? then {body.io} else {}
    ensures sink.Valid() && AllDisciplined(sink.calls, old(body.Content())) && sink.accepted <= old(body.Content())
    ensures sink.finished ==> sent.Sent? && sink.accepted == old(body.Content())
    ensures sent.Sent? && sent.ending == Ended ==> sink.finished || sink.queue.cancelled
    ensures sent.Sent? ==> sent.fields == FieldsOf(cluster, verb, path, headers, sized)
    ensures sized != None ==> sized.value == old(body.Content())
    ensures sent.Sent? && sized == None ==> old(body.Content()) == [] || |old(body.Content())| > UPLOAD_BYTES
    ensures sent == NeverOpened ==> sink.calls == [] && (Refused(verb, path, headers) || (body.Readable? && body.io.raises))
    ensures Refused(verb, path, headers) ==> sent == NeverOpened
    ensures sent.Sent? && sent.ending == ChannelClosed ==> body.Readable? && body.io.raises && !sink.finished
  {
    ghost var content := body.Content();
    sized := None;
    var read: Option<Bytes>, rest: IO? := None, null;
    match body {
      case NoBody =>
      case Text(bytes) => read := Some(bytes);
      case Readable(io) =>
        var result := PrereadBody(io);
        if result.ReadFailed? {
          return NeverOpened, None;
        }
        read := result.read;
        rest := if result.more then io else null;
    }
    sized := if rest == null then read else None;
    var fields := MakeFields(cluster, verb, path, headers, sized);
    if fields == None {
      return NeverOpened, sized;
    }
    if read == None {
      sink.Finish();
      return Sent(fields.value, Ended), sized;
    }
    var ending := UploadBody(sink, read.value, rest, content);
    return Sent(fields.value, ending), sized;
  }

  // ------------------------------------------------------- what the worker sends

  /** The fiber takes a step of the exchange as its discipline has it. */
  predicate Obeys(s: E.State, step: E.Step, content: Bytes) {
    var over := s.channel.request.cancelled || s.channel.request.ended;
    match step
    case Fiber(Write(bytes)) => Disciplined(Offered(s.written, bytes), content)
    case Fiber(FinishWriting) => Disciplined(Finished(s.written, over), content)
    case _ => true
  }

  predicate Uploading(budget: nat, steps: seq<E.Step>, content: Bytes) {
    steps == []
    || (Uploading(budget, Front(steps), content) && Obeys(E.Run(budget, Front(steps)), Last(steps), content))
  }

  /** The calls a fiber's step makes on the request side, with what it finds there. */
  function CallOf(s: E.State, step: E.Step): seq<Call> {
    var over := s.channel.request.cancelled || s.channel.request.ended;
    match step
    case Fiber(Write(bytes)) => [Offered(s.written, bytes)]
    case Fiber(FinishWriting) => [Finished(s.written, over)]
    case _ => []
  }

  /** All the calls of a run, in order. */
  function CallsOf(budget: nat, steps: seq<E.Step>): seq<Call> {
    if steps == [] then []
    else CallsOf(budget, Front(steps)) + CallOf(E.Run(budget, Front(steps)), Last(steps))
  }

  lemma DisciplinedStep(s: E.State, step: E.Step, content: Bytes)
    requires AllDisciplined(CallOf(s, step), content)
    ensures Obeys(s, step, content)
  {
    if CallOf(s, step) != [] {
      assert Disciplined(CallOf(s, step)[0], content);
    }
  }

  lemma AllOfBoth(a: seq<Call>, b: seq<Call>, calls: seq<Call>, content: Bytes)
    requires a + b <= calls && AllDisciplined(calls, content)
    ensures a <= calls && AllDisciplined(b, content)
  {
    forall i | 0 <= i < |b| ensures Disciplined(b[i], content) {
      assert calls[|a| + i] == b[i];
    }
  }

  /** A run whose calls on the request side are, so far, those of a disciplined fiber is an upload. */
  lemma {:induction false} CallsMakeAnUpload(budget: nat, steps: seq<E.Step>, calls: seq<Call>, content: Bytes)
    requires CallsOf(budget, steps) <= calls && AllDisciplined(calls, content)
    ensures Uploading(budget, steps, content)
  {
    if steps != [] {
      var s := E.Run(budget, Front(steps));
      AllOfBoth(CallsOf(budget, Front(steps)), CallOf(s, Last(steps)), calls, content);
      CallsMakeAnUpload(budget, Front(steps), calls, content);
      DisciplinedStep(s, Last(steps), content);
    }
  }

  predicate Uploaded(s: E.State, content: Bytes) {
    s.written <= content && (s.channel.request.ended ==> s.written == content)
  }

  lemma StepKeepsUpload(s: E.State, step: E.Step, content: Bytes)
    requires Uploaded(s, content) && Obeys(s, step, content)
    ensures Uploaded(E.Apply(s, step), content)
  {
    if step.Fiber? {
      if step.f.Write? {
        WriteKeepsUpload(s, step.f.bytes, content);
      }
    } else {
      WorkerKeepsUpload(s, step.w);
    }
  }

  lemma WriteKeepsUpload(s: E.State, bytes: Bytes, content: Bytes)
    requires Uploaded(s, content) && s.written + bytes <= content
    ensures Uploaded(E.FiberMoves(s, E.Write(bytes)), content)
  {
    var taken := s.channel.request.PushWithinBudget(bytes).1;
    if taken != None && taken.value <= |bytes| {
      assert s.written + bytes[..taken.value] <= s.written + bytes;
    }
  }

  /** The worker never ends the request side and writes nothing into it. */
  lemma WorkerKeepsUpload(s: E.State, step: E.WorkerStep)
    ensures var t := E.WorkerMoves(s, step);
            t.written == s.written && t.channel.request.ended == s.channel.request.ended
  {
    if step.CarryOn? {
      assert E.BodyUntouched(s, E.Proceed(s)) || E.Proceed(s).channel.request == s.channel.request.Cancel();
    }
  }

  lemma {:induction false} UploadInvariant(budget: nat, steps: seq<E.Step>, content: Bytes)
    requires Uploading(budget, steps, content)
    ensures Uploaded(E.Run(budget, steps), content)
  {
    if steps != [] {
      UploadInvariant(budget, Front(steps), content);
      StepKeepsUpload(E.Run(budget, Front(steps)), Last(steps), content);
    }
  }

  /**
   Upload exactness: in every run of the exchange in which the fiber makes the
   calls `StreamBody` leaves in `sink.calls`, or the first of them, what the
   worker sends is a prefix of the body, and all of it once it asks for the end.
   */
  lemma UploadIsExact(budget: nat, steps: seq<E.Step>, calls: seq<Call>, content: Bytes)
    requires AllDisciplined(calls, content) && CallsOf(budget, steps) <= calls
    ensures var asks := E.Run(budget, steps).asks;
            && E.SentBytes(asks) <= content
            && ((exists i :: 0 <= i < |asks| && E.Ends(asks[i])) ==> E.SentBytes(asks) == content)
  {
    CallsMakeAnUpload(budget, steps, calls, content);
    UploadInvariant(budget, steps, content);
    E.SendLanguage(budget, steps);
  }

  /** A content-length that `fields` added is the number of bytes sent before the end. */
  lemma LengthIsWhatIsSent(budget: nat, steps: seq<E.Step>, calls: seq<Call>, content: Bytes,
                           cluster: string, verb: string, path: string, headers: seq<Header>, i: nat)
    requires AllDisciplined(calls, content) && CallsOf(budget, steps) <= calls
    requires !Has(Given(headers), "content-length")
    requires var fields := FieldsOf(cluster, verb, path, headers, Some(content));
             i < |fields| && fields[i].0 == "content-length"
    ensures var asks := E.Run(budget, steps).asks;
            (exists j :: 0 <= j < |asks| && E.Ends(asks[j])) ==>
              Number(FieldsOf(cluster, verb, path, headers, Some(content))[i].1) == |E.SentBytes(asks)|
  {
    UploadIsExact(budget, steps, calls, content);
    OnlyLength(cluster, verb, path, headers, content, i);
  }

  /**
   The two together: whatever the peer does meanwhile, the calls `stream` makes
   are such that any run of the exchange that makes them sends the body exactly,
   with its length when that was given.
   */
  method UploadOnce(cluster: string, verb: string, path: string, headers: seq<Header>, body: Body, sink: ChunkSink)
    returns (sent: Sent, sized: Option<Bytes>)
    requires sink.Valid() && !sink.finished && sink.accepted == [] && sink.calls == []
    modifies sink, if body.Readable? then {body.io} else {}
    ensures forall budget: nat, steps: seq<E.Step> :: CallsOf(budget, steps) <= sink.calls ==>
              var asks := E.Run(budget, steps).asks;
              && E.SentBytes(asks) <= old(body.Content())
              && ((exists i :: 0 <= i < |asks| && E.Ends(asks[i])) ==> E.SentBytes(asks) == old(body.Content()))
    ensures sent.Sent? ==> sent.fields == FieldsOf(cluster, verb, path, headers, sized)
    ensures sized != None ==> sized.value == old(body.Content())
  {
    ghost var content := body.Content();
    sent, sized := StreamBody(cluster, verb, path, headers, body, sink);
    forall budget: nat, steps: seq<E.Step> | CallsOf(budget, steps) <= sink.calls
      ensures var asks := E.Run(budget, steps).asks;
              && E.SentBytes(asks) <= content
              && ((exists i :: 0 <= i < |asks| && E.Ends(asks[i])) ==> E.SentBytes(asks) == content)
    {
      UploadIsExact(budget, steps, sink.calls, content);
    }
  }
}
