/**
 How a Rack response body is fed to the client
 (ruby/rack_streaming_body_reader.rb): an enumerable body chunk by chunk, a
 streaming body through a duplex stream over what is unread of the request.
 */
module Serving {
  import opened Basics
  import opened Chunks
  import Duplex
  import RackInput

  /** An enumerable body: its chunks, each written whole before the next, until the client is gone. */
  method FeedChunks(chunks: seq<Bytes>, sink: ChunkSink) returns (fed: bool)
    requires sink.Valid()
    modifies sink
    ensures sink.Valid() && sink.finished == old(sink.finished)
    ensures fed ==> sink.accepted == old(sink.accepted) + Flatten(chunks)
    ensures !fed ==> sink.Over() && old(sink.accepted) <= sink.accepted <= old(sink.accepted) + Flatten(chunks)
  {
    for i := 0 to |chunks|
      invariant sink.Valid() && sink.finished == old(sink.finished)
      invariant sink.accepted == old(sink.accepted) + Flatten(chunks[..i])
    {
      Duplex.NextString(chunks, i);
      Duplex.SomeStrings(chunks, i + 1);
      var ok := WriteWhole(sink, chunks[i]);
      if !ok {
        return false;
      }
    }
    assert chunks[..|chunks|] == chunks;
    return true;
  }

  /**
   A streaming body: the stream it is called with reads exactly what the
   application had not read of the request, which nobody else reads from then on.
   */
  method OpenStream(input: RackInput.Input, sink: ChunkSink) returns (stream: Duplex.Stream)
    requires input.Valid() && input.chunks != null && sink.Valid()
    modifies input
    ensures stream.Valid() && fresh(stream) && stream.sink == sink && !stream.readClosed && !stream.writeClosed
    ensures stream.Unread() == old(input.Whole()[input.position..])
    ensures input.chunks == null
  {
    var leftover, source := input.Detach();
    stream := new Duplex.Stream(source, sink, leftover);
  }
}
