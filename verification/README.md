# Ruvoy: the byte-stream hand-off, modelled and proved

Ruvoy runs a Rack application inside Envoy. Ruby fibers share one thread with a
reactor; Envoy's workers own the connections. Bytes move between them through
bounded queues, and a fiber with nothing to do parks until the other side wakes
it. This project models that hand-off and the state machines built on it, and
proves what must hold of every run.

Two styles are used, and tied together:

* **Objects** are classes with the fields of the source and methods that change
  them in place, proved against a value: `ResponseStream` against `Queue`,
  `FiberRackFilter` against `Filter`, `UpstreamTables` against `Ledger`,
  `OpenStream` and `StreamChannel` against `Exchange`, `FiberBridge` against
  `Wake`; the Ruby readers and writers against a byte sequence and a position.
* **Machines** are functions from a state and a step to a state, one step for each lock
  acquisition, atomic operation or callback. A run is any sequence of steps, a
  step that is not enabled does nothing, and the theorems quantify over every
  run. The machines use the same `Queue` functions as the objects.

| file | what it models |
|---|---|
| `Streams.dfy` | the bounded queue: accounting, order, budget |
| `WriterPark.dfy` | a writer parked on a full queue, the worker, the reactor, a closing fiber |
| `RequestFlow.dfy`, `Forwarding.dfy` | the request body from Envoy's two buffers to the reading fiber |
| `RequestProgress.dfy` | that all of it, and its end, gets through |
| `ReaderPark.dfy` | a fiber waiting for an upstream's head and body |
| `Surfacing.dfy` | whether a reader raises the failure that ended its stream |
| `Wake.dfy` | the command channel, the wake bytes, the wakeups and the reactor's pass |
| `Budget.dfy` | the admission ceiling under any number of threads |
| `Downstream.dfy`, `Fidelity.dfy` | the worker filter, what it says to the client and counts, and the bytes from Rack body to Envoy |
| `UpstreamWork.dfy` | where every upstream call and stream of a request is |
| `Exchange.dfy`, `ExchangeObjects.dfy` | one streamed upstream exchange |
| `Requests.dfy`, `Responses.dfy` | what must go out of it, and what its fiber is told, why, and what is counted |
| `Chunks.dfy` | the two ends of a queue that Ruby holds, against a peer that moves at any pace |
| `RackInput.dfy` | the rewindable Rack input |
| `Duplex.dfy`, `Serving.dfy` | the duplex stream and the relay, and how a Rack body is fed to the client |
| `Upload.dfy`, `Decimals.dfy` | the body of an upstream call on its way up, and its length |
| `Calls.dfy` | the answer of a buffered call, and the body of a streamed response |
| `Basics.dfy` | bytes, options, sequence facts |

## What is assumed

* Scheduled events run later on the worker, as long as the filter lives; resolving
  a variable makes its fiber runnable; a full socket has unread bytes; the spill
  file is an append-only byte sequence. Envoy hands out fresh ids and makes no
  callback for one before it is in the table, and none of its buffer slices is
  empty (`copy_body` stops at the first empty one).
* One fiber is parked on a queue at a time: the queue has a single waiter slot.
* Fibers and the reactor share a thread, so a look at a queue and the park that
  follows it are not separated by `resolve_wakeups`. `ReaderPark.OtherThreadLosesHead`
  shows that the head wait needs this.
* Clocks are left to chance: a time-out, a heartbeat or an idle limit is a step
  that may come at any moment.

## Where the code does less than one might hope

Each of these has a concrete run and an exact condition.

* An application that fails before the head of its response is answered with a
  local reply, which lets go of the request queue without cancelling it or waking
  its reader. A fiber parked on it, such as one uploading `rack.input`, is never
  woken, not even by the drop of the filter, and what Envoy holds stays there:
  `RequestFlow.LocalReplyStrandsReader` is such a run. A reader at rest is lost if
  and only if the filter has let go (`RequestFlow.LostExactlyWhenLetGo`), bytes
  before a queue with room are stuck if and only if it has
  (`RequestFlow.StuckExactlyWhenLetGo`), and it lets go if and only if it replies
  locally (`Downstream.LetsGoExactlyWhenItReplies`). The claims that the body never
  deadlocks and that a reader at rest is caught up hold of every other filter.
* `Started::Skipped` wakes nobody: an exchange closed before it started leaves the
  fibers parked on it. The runs are `WriterPark.SkippedStreamStrandsItsWriter` and
  `ReaderPark.SkippedStreamStrandsItsReader`; at rest it is the only case
  (`WriterPark.StrandedExactlyWhenSkipped`, `ReaderPark.LeftWaitingExactlyWhenSkipped`).
* A streaming body that closes its stream, in an `ensure` for instance, and then
  raises looks complete to the client (`Fidelity.RaisedBodyEndsCleanly`): the end is
  queued first, and `push` refuses the failure behind it. So does one that returns
  and whose `close` then raises. A body that raised ends cleanly if and only if its
  stream had been closed (`Fidelity.RaisedEndsCleanlyExactlyWhenClosed`). The
  repository's README (`README.md:151-153`) and the comment at
  `ruby/rack_streaming_body_reader.rb:12` promise a reset of every body that fails
  after its headers; this model follows the code. All the bytes arrive either way.
* The bytes are read after the wakeups are taken, so an owed wakeup may have no
  byte behind it (`Wake.OwedWithoutAByte`): exactly when the bytes of all owed
  wakeups were written while the reactor was reading, and none, of a command
  either, since or about to be
  (`Wake.OnlyTheHeartbeatExactlyWhenReadTooEarly`). The next pass takes it
  (`Wake.OwedTakenByNextPass`), but only the heartbeat brings that pass.
* `take_next` and `is_finished` lock separately, so a failure may go unraised
  (`Surfacing.FailureGoesUnraised`): exactly when it was queued between the take
  that found nothing and the question, with no byte before it, queued or buffered
  (`Surfacing.UnraisedExactlyWhenQueuedInBetween`). No byte is lost either way. What
  a reader takes it raises, once nothing is left before it (`Chunks`, `Duplex`).

## Main results

The rows of the table below come in this order: first the main results, which
quantify over every run or every input; then the methods, which
change the fields as those results speak of; then the steps the proofs go by.

## Model

| member | source | states |
|---|---|---|
| `Streams.QueueAccounting` | src/stream.rs:174-247 | After any operations in any order the buffered count is the sum of the queued chunks, at most one terminal item exists and it is last, a cancelled queue holds nothing, and a finished uncancelled one holds no chunk bytes. |
| `Streams.TakeNeverSaturates` | src/stream.rs:237-247 | The saturating subtraction of `take_next` never saturates in a reachable queue. |
| `Streams.FirstInFirstOut` | src/stream.rs:174-247 | What was handed out is a prefix of what was accepted, and followed by the queue it is all of it until a cancel; nothing is accepted after a terminal item. |
| `Streams.BytesInOrder` | src/stream.rs:174-247 | The same of the bytes. |
| `Streams.SlicedQueueWithinBudget` | src/stream.rs:174-189 | A queue whose chunks come by `push_chunk_within_budget` never exceeds its budget. |
| `Streams.WholeDeliveriesWithinBudget` | src/stream.rs:195-207 | A queue fed non-empty chunks by `push_chunk_if_room` is within budget or holds exactly one chunk, the oversize one. |
| `Streams.FinishedExactly` | src/stream.rs:121-124 | For every history: finished if and only if there was a cancel, or the end was accepted and none of its bytes is queued. |
| `Streams.PushAccepts` | src/stream.rs:219-233 | For every history an item is accepted if and only if nobody has cancelled and no end was accepted. |
| `Streams.SliceAccepts` | src/stream.rs:174-189 | Of a slice an open stream accepts exactly the first bytes that the budget allows. |
| `Streams.WholeAccepts` | src/stream.rs:195-207 | A whole chunk is accepted by an open stream if and only if it is within the budget or no byte is queued; told apart are no room and a stream that is over. |
| `Streams.HandedExactly` | src/stream.rs:237-247 | Handed out is the first item accepted and not handed out, unless the last word was to pause, or there was a cancel. |
| `Streams.ParksExactly` | src/stream.rs:81-117 | A reader may wait if and only if the stream is open with no byte queued, a writer if and only if it is paused or has no room and is not cancelled; a writer is owed a wakeup if it need not wait. |
| `WriterPark.NoStrandedWriter` | crates/ruvoy-envoy-fiber/src/worker.rs:448-509 | In every interleaving of one writer, the worker, a closing fiber and the reactor, a writer parked on a queue with room, or on a cancelled one, is on `Wakeups`, or a check of the worker is due: an event, a drain, the low-watermark callback, a drop, or a close about to schedule one. |
| `WriterPark.AtRestOnlyPausedWaits` | crates/ruvoy-envoy-fiber/src/worker.rs:780-799 | Once everything has come to rest, only a paused downstream keeps a writer waiting. |
| `WriterPark.StrandedExactlyWhenSkipped` | crates/ruvoy-envoy-fiber/src/worker.rs:552-554 | At rest a parked writer that should move exists if and only if its stream was skipped. |
| `WriterPark.SkippedStreamStrandsItsWriter` | crates/ruvoy-envoy-fiber/src/upstream.rs:470-472 | A concrete run in which the skipped stream strands it. |
| `WriterPark.Rescued` | crates/ruvoy-envoy-fiber/src/worker.rs:562-602 | Progress: from every such state the worker, the closing fiber and the reactor resume the writer by themselves, unless its stream is to be skipped. |
| `WriterPark.ParkedWriterIsRescued` | crates/ruvoy-envoy-fiber/src/worker.rs:448-602 | The same of every run. |
| `RequestFlow.BodyForwardedExactly` | crates/ruvoy-envoy-fiber/src/worker.rs:242-287 | For any split between retained bytes and the frame in hand, aliased or not, any slicing and any reader pace: taken, queued and still held are together what the client sent; after a cancel what was pushed is a prefix of it; the queue stays within budget. |
| `RequestFlow.EndFollowsLastByte` | crates/ruvoy-envoy-fiber/src/worker.rs:242-287 | The end is queued only behind the last byte of a finished body, once. |
| `RequestFlow.NothingPushedAfterEnd` | crates/ruvoy-envoy-fiber/src/worker.rs:242-287 | No run pushes a byte after the end. |
| `RequestFlow.ParkedReaderHears` | src/stream.rs:81-88 | A reader parked on a queue that has data, an end or a cancel is on `Wakeups` or about to be put there. |
| `RequestFlow.NoRequestDeadlock` | crates/ruvoy-envoy-fiber/src/worker.rs:242-287 | As long as the filter has the queue: whenever Envoy holds unforwarded bytes or an unforwarded end and the queue has room, forwarding runs, an event is scheduled, or the reader is between its take and its wake. |
| `RequestFlow.AtRestReaderIsCaughtUp` | ruby/request_body.rb:125-136 | Once everything has come to rest, a parked reader has read all the client sent and the client has more to say, unless the filter has let go. |
| `RequestFlow.LocalReplyStrandsReader` | crates/ruvoy-envoy-fiber/src/worker.rs:378-397 | A concrete run: after a local reply bytes stay with Envoy before a queue with room, nothing is scheduled, and the reader stays parked, also after the drop. |
| `RequestFlow.LostExactlyWhenLetGo` | crates/ruvoy-envoy-fiber/src/worker.rs:107-125 | No continuation resumes a reader at rest, unless it is stopped, if and only if the filter has let go of its queue. |
| `RequestFlow.StuckExactlyWhenLetGo` | crates/ruvoy-envoy-fiber/src/worker.rs:242-245 | No continuation forwards the bytes Envoy holds before a queue with room if and only if the filter has let go of it. |
| `RequestProgress.WholeBodyGetsThrough` | crates/ruvoy-envoy-fiber/src/worker.rs:242-287 | Progress: after every run of a filter that has its queue, all the client has sent reaches the reader, and the end of a finished body, without a further word from client or application. |
| `ReaderPark.HeadWaitLosesNothing` | ruby/upstream.rb:159-166 | Although `park` ignores a queued head, a fiber parked with anything queued is on `Wakeups`, or the callback that queued it is about to put it there. |
| `ReaderPark.OtherThreadLosesHead` | src/fiber.rs:281-289 | A concrete run without the shared thread in which the head arrives and nobody wakes the fiber. |
| `ReaderPark.AtRestNothingToHear` | crates/ruvoy-envoy-fiber/src/worker.rs:705-778 | At rest, a parked reader of a started stream waits only for what has not happened. |
| `ReaderPark.WaiterHears` | crates/ruvoy-envoy-fiber/src/worker.rs:705-778 | Of a stream that was not skipped: a reader parked although it delivered, ended or was closed is owed a wakeup, or the close is on its way. |
| `ReaderPark.LeftWaitingExactlyWhenSkipped` | crates/ruvoy-envoy-fiber/src/upstream.rs:470-472 | At rest, a parked reader has been told something if and only if its stream was skipped. |
| `ReaderPark.ParkedReaderIsResumed` | crates/ruvoy-envoy-fiber/src/worker.rs:705-778 | Progress: after every run, the worker, Envoy and the reactor resume by themselves a parked reader that has been told something, unless its stream is skipped or about to be. |
| `ReaderPark.SkippedStreamStrandsItsReader` | ruby/upstream.rb:108-110 | A concrete run: another fiber closes the exchange before it starts, and the reader of its head is left parked at rest. |
| `ReaderPark.AskingReaderIsAnswered` | ruby/upstream.rb:168-178 | In every run a reader that asks gives up if and only if the queue is cancelled, or has ended with nothing left; otherwise it goes on to park. |
| `Surfacing.UnraisedExactlyWhenQueuedInBetween` | src/stream.rs:121-124 | A reader, with a buffer or without, done with a stream that failed raised that failure if and only if it was not queued between the take that found nothing and the question; it gave up if and only if it was, with no byte before it, queued or buffered. |
| `Surfacing.BufferedBytesComeFirst` | ruby/stream.rb:182-207 | While bytes are buffered the reader does not give up: it gives them and takes again, or then raises the failure it recorded. |
| `Surfacing.NoByteIsLost` | ruby/upstream.rb:168-178 | Either way it gave every byte the stream accepted. |
| `Surfacing.FailureGoesUnraised` | ruby/stream.rb:182-207 | A concrete run in which the failure is left queued and the end passes for a clean one. |
| `Surfacing.EndedReaderIsDone` | ruby/stream.rb:182-207 | Progress: once its stream has ended, a reader is done by its own steps. |
| `Wake.NoCommandSleeps` | src/wake.rs:30-65 | Whenever the reactor is at its wait, every command has an unread byte behind it or a sender yet to write one, however small the socket. |
| `Wake.CommandsInOrderOnce` | src/fiber.rs:189-239 | Commands are received in the order sent, each once. |
| `Wake.OwedTakenByNextPass` | src/fiber.rs:281-289 | Once the reactor has resolved wakeups again, all that was owed before is resolved, in order. |
| `Wake.OwedWithoutAByte` | ruby/fiber_runner.rb:12-20 | A concrete run in which a wakeup is owed with no byte behind it, for every socket size. |
| `Wake.OnlyTheHeartbeatExactlyWhenReadTooEarly` | src/fiber.rs:192-194 | At the wait, wakeups are owed and no byte is there or to come, of a signal or of a command, if and only if the byte of each one was written while the reactor was reading, and nobody has written or is about to write since. |
| `Wake.OtherWakeupsHaveAByte` | src/wake.rs:30-65 | A wakeup put on at any moment but while the reactor reads has a byte or a sender behind it at the wait. |
| `Budget.UsedIsWhatIsLent` | src/budget.rs:36-81 | For any number of threads the counter is the sum of the live leases and of those being made or dropped. |
| `Budget.CounterNeverWraps` | src/budget.rs:36-81 | The counter stays within capacity: no addition overflows, no subtraction goes below zero. |
| `Budget.AdmittedCallsWithinLimit` | src/fiber.rs:441-451 | With one permit a call, calls admitted and not yet finished never exceed the limit. |
| `Budget.CapacityReturns` | src/fiber.rs:241-274 | Once nobody holds any of it the whole capacity is back, and the next take that fits succeeds, refused before or not. |
| `Downstream.EmissionLanguage` | crates/ruvoy-envoy-fiber/src/worker.rs:289-509 | Over any callbacks and items a filter emits nothing, or one local reply, or headers, then data, then at most one end or reset. |
| `Downstream.NothingTakenBack` | crates/ruvoy-envoy-fiber/src/worker.rs:371-376 | No later callback takes back what was said or counted. |
| `Downstream.FinishedIsLast` | crates/ruvoy-envoy-fiber/src/worker.rs:448-509 | A finished reply is the last thing said. |
| `Downstream.RequestsAnsweredOnce` | crates/ruvoy-envoy-fiber/src/worker.rs:698-703 | Once the stream has completed, `requests_total` equals the sum of `responses_total`, and a request is either counted or rejected. |
| `Downstream.LetsGoExactlyWhenItReplies` | crates/ruvoy-envoy-fiber/src/worker.rs:378-397 | Over any callbacks, a filter past its headers has let go of the request body if and only if it replied locally. |
| `Downstream.SaidIsCounted` | crates/ruvoy-envoy-fiber/src/worker.rs:371-397 | As long as the client stays: rejected if and only if answered with a 400 or 503, failed if and only if reset or answered with a 500, completed if and only if ended otherwise. |
| `Downstream.GoneIsCounted` | crates/ruvoy-envoy-fiber/src/worker.rs:698-703 | A client that goes is counted as disconnected if and only if its response had not ended. |
| `Downstream.EndPendingExactly` | crates/ruvoy-envoy-fiber/src/worker.rs:628-645 | While the filter has the request queue, an end is pending if and only if it has come and no forwarding since could pass it on. |
| `Fidelity.ResponseFidelity` | src/rack.rs:124-170 | Under any slicing, pausing and dropping, the bytes given to Envoy are a prefix of the chunks the body wrote; a clean end comes only when they are all of them, and only of a body that came to its end or whose stream was closed; a reset comes only of a body that raised before its stream was closed. |
| `Fidelity.RaisedEndsCleanlyExactlyWhenClosed` | src/fiber.rs:265-270 | In every run, the response of a body that raised ends cleanly if and only if its stream had been closed before, and is reset or replaced by a local reply if and only if it had not. |
| `Fidelity.RaisedBodyEndsCleanly` | ruby/stream.rb:114-125 | A concrete run: a body closes its stream and then raises, and the client sees a response that looks complete. |
| `Fidelity.NothingHeldBack` | ruby/rack_streaming_body_reader.rb:5-20 | Once the queue of an uncancelled response is empty and the body done, or its stream closed, the client has all that was written. |
| `Fidelity.ConcludedBodyEndsItsResponse` | src/rack.rs:124-170 | In every run: a body that came to its end, raised or had its stream closed has ended its response once its uncancelled queue is empty, by an end behind every byte, or by a reset or a local reply if it failed. |
| `Fidelity.ConcludedBodyIsAnswered` | crates/ruvoy-envoy-fiber/src/worker.rs:448-509 | Progress: from every such run as many deliveries as there are items get there, once the client lets them. |
| `UpstreamWork.WorkIsConserved` | crates/ruvoy-envoy-fiber/src/worker.rs:513-558 | However queueing races with closing, every accepted call or stream is at each moment in exactly one place: queued, in hand, in flight, open, abandoned or counted. |
| `UpstreamWork.EverythingCountedOnce` | crates/ruvoy-envoy-fiber/src/worker.rs:698-703 | When `on_stream_complete` returns, everything accepted has been counted, once. |
| `UpstreamWork.NothingAfterwards` | src/upstream.rs:217-238 | Nothing is accepted, sent or counted afterwards. |
| `Exchange.OutcomesAreSound` | crates/ruvoy-envoy-fiber/src/upstream.rs:302-454 | For any callbacks in any order and any close, time-out or overflow between: a stream in the table has an outcome exactly when its response has ended; an overflow is what the fiber reads unless it cancelled; a completed one ended, was upgraded or was cancelled; a timed-out one was timed out by the fiber. |
| `Exchange.OutcomeIsFinal` | crates/ruvoy-envoy-fiber/src/upstream.rs:325-339 | An outcome, once set, never changes. |
| `Exchange.GoneIsOver` | crates/ruvoy-envoy-fiber/src/upstream.rs:393-437 | After complete, reset or abandon the request side is cancelled and the response ended or cancelled. |
| `Exchange.ResetMeansOver` | src/upstream.rs:96-121 | A reset is only wanted of an exchange both of whose directions are over. |
| `Exchange.SendLanguage` | crates/ruvoy-envoy-fiber/src/upstream.rs:280-299 | What is asked of Envoy is a start, then pieces, then at most one end, then at most one reset, then nothing; the bytes are a prefix of what the fiber wrote, and all of it once the end is out. |
| `Requests.EndIsPassedOn` | crates/ruvoy-envoy-fiber/src/upstream.rs:280-299 | In every run: once the queue of a body that the fiber ended is empty, the end was asked for, behind all that was written. |
| `Requests.EndedBodyIsSent` | crates/ruvoy-envoy-fiber/src/upstream.rs:280-299 | Progress: from every run that may send, as many looks as there are items send all of an ended body and its end. |
| `Requests.WantedResetIsAsked` | crates/ruvoy-envoy-fiber/src/upstream.rs:280-287 | In every run a reset that is wanted is the next thing asked for, once. |
| `Requests.ClosedBeforeStart` | crates/ruvoy-envoy-fiber/src/upstream.rs:470-472 | In every continuation nothing is ever asked of an exchange closed before the worker looked at it. |
| `Responses.ToldForAReason` | crates/ruvoy-envoy-fiber/src/upstream.rs:302-454 | In every run the fiber is told an end only if Envoy said that the response was complete or reset an upgraded session, a failure only if the stream was broken off, refused or unreadable, an overflow only if bytes arrived. |
| `Responses.OpenResponseIsAnswered` | crates/ruvoy-envoy-fiber/src/upstream.rs:302-454 | In every run, what each callback makes of a response still open: the item told, the outcome, the place; among them that a reset is a failure unless it ends an upgraded session. |
| `Responses.CountedIsTold` | crates/ruvoy-envoy-fiber/src/upstream.rs:325-339 | In every run the outcome counted agrees with what the fiber was told; a failed exchange is completed only if it was upgraded. |
| `Responses.ReadInFull` | crates/ruvoy-envoy-fiber/src/upstream.rs:343-371 | In every run the bytes taken are a prefix of those that arrived, and with those queued all of them, unless the fiber closed the exchange or a piece did not fit. |
| `Responses.EndMeansAllRead` | crates/ruvoy-envoy-fiber/src/upstream.rs:343-371 | A fiber that read a response to its end has read all that arrived. |
| `Responses.EndIsToldLast` | crates/ruvoy-envoy-fiber/src/upstream.rs:302-390 | No head or trailers come behind the end. |
| `ExchangeObjects.CarryingOnReaches` | crates/ruvoy-envoy-fiber/src/upstream.rs:302-454 | A callback left alone, also one that found the response cancelled, is carried out to exactly what the object methods do. |
| `RackInput.Input.Read` | ruby/request_body.rb:22-31 | The bytes a position in the whole body gives, exactly as many as asked unless the body ends, nil at its end, for every chunking and on both sides of the spill; after a detach an error. |
| `RackInput.Input.Gets` | ruby/request_body.rb:33-49 | With a non-empty separator: exactly the bytes through its first occurrence at or after the position, or the rest, and nil exactly at the end, though the search is incremental, windowed and restarts. |
| `RackInput.Input.Detach` | ruby/request_body.rb:70-76 | The leftover, followed by the chunks to come, is exactly the unread rest. |
| `RackInput.Input.Each` | ruby/request_body.rb:51-55 | Pieces of 64 KiB but for the last, together the unread rest; an input handed over raises before the first. |
| `Duplex.Relay` | ruby/stream.rb:138-171 | Each side was written a prefix of what the other had, all of it when that direction came to the end of the file; a failure is the one its source raised and closes nothing, an end of both closes both; no direction ends without a reason. |
| `Duplex.FailsForAReason` | ruby/stream.rb:138-171 | A relay fails only if a side it needed was closed when it began, or a source raised: of two open streams that raise nothing it ends both directions. |
| `Upload.UploadIsExact` | crates/ruvoy-envoy-fiber/src/upstream.rs:459-498 | In every run of the exchange whose writes and end are the calls the upload leaves behind, or the first of them, the worker sends a prefix of the body, and all of it once it asks for the end. |
| `Upload.UploadOnce` | ruby/upstream.rb:50-55 | The two together: after `stream` has made its calls, every run of the exchange that makes them sends exactly the body. |
| `Upload.LengthIsWhatIsSent` | src/extensions.rs:289-303 | A content-length that was added is the number of bytes sent before the end of such a run (section 8.6 of RFC 9110). |
| `Calls.UpstreamCall.Await` | ruby/upstream.rb:10-18 | The fiber gets the answer the worker delivered. |
| `Streams.ResponseStream.constructor` | src/stream.rs:52-57 | A new object is an empty queue of at least one byte of budget. |
| `Streams.ResponseStream.Cancel` | src/stream.rs:67-72 | Changes the fields in place exactly as the queue function of that name, returns its result, and extends the history every theorem above speaks of. |
| `Streams.ResponseStream.Park` | src/stream.rs:81-88 | Changes the fields in place exactly as the queue function of that name, returns its result, and extends the history every theorem above speaks of. |
| `Streams.ResponseStream.Unpark` | src/stream.rs:91-93 | Changes the fields in place exactly as the queue function of that name, returns its result, and extends the history every theorem above speaks of. |
| `Streams.ResponseStream.ParkWriter` | src/stream.rs:102-109 | Changes the fields in place exactly as the queue function of that name, returns its result, and extends the history every theorem above speaks of. |
| `Streams.ResponseStream.SetPaused` | src/stream.rs:133-135 | Changes the fields in place exactly as the queue function of that name, returns its result, and extends the history every theorem above speaks of. |
| `Streams.ResponseStream.PushChunkWithinBudget` | src/stream.rs:174-189 | Changes the fields in place exactly as the queue function of that name, returns its result, and extends the history every theorem above speaks of. |
| `Streams.ResponseStream.PushChunkIfRoom` | src/stream.rs:195-207 | Changes the fields in place exactly as the queue function of that name, returns its result, and extends the history every theorem above speaks of. |
| `Streams.ResponseStream.Push` | src/stream.rs:219-233 | Changes the fields in place exactly as the queue function of that name, returns its result, and extends the history every theorem above speaks of. |
| `Streams.ResponseStream.TakeNext` | src/stream.rs:237-247 | Changes the fields in place exactly as the queue function of that name, returns its result, and extends the history every theorem above speaks of. |
| `Streams.ResponseStream.WriterOwedWakeup` | src/stream.rs:114-117 | True exactly when a waiter is registered and it may write, or the queue was cancelled. |
| `Streams.ResponseStream.IsFinished` | src/stream.rs:121-124 | By the history of the object: true exactly when it was cancelled, or its end was accepted with no byte buffered. |
| `Streams.ResponseStream.SpareCapacity` | src/stream.rs:145-148 | The bytes still within budget. |
| `Forwarding.RequestBuffers.ForwardRequestBody` | crates/ruvoy-envoy-fiber/src/worker.rs:242-287 | One pass moves exactly the first bytes held that fit, in order, leaves the rest, and queues the end exactly when it is pending and nothing stays; a queue within budget stays so; the reader is woken when anything was queued; a pass behind the end changes nothing. |
| `Forwarding.RequestBuffers.PushEndOnceEmpty` | crates/ruvoy-envoy-fiber/src/worker.rs:271-280 | The end goes in exactly when it is pending and nothing is held, once. |
| `Forwarding.RequestBuffers.CopyBoth` | crates/ruvoy-envoy-fiber/src/worker.rs:242-287 | Retained bytes first and then the frame is a prefix of the two in a row. |
| `Forwarding.RequestBuffers.CopyBody` | crates/ruvoy-envoy-fiber/src/worker.rs:857-889 | Up to the limit, the first bytes of one buffer are pushed and drained. |
| `Forwarding.RequestBuffers.PushSlices` | crates/ruvoy-envoy-fiber/src/worker.rs:865-885 | The loop over slices pushes exactly the first bytes, up to the limit. |
| `Wake.WakeSocket.Signal` | src/wake.rs:30-47 | However often it is interrupted and whatever the reader takes meanwhile, afterwards a byte is there, whether or not this one fitted. |
| `Wake.WakeSocket.DrainBytes` | src/wake.rs:50-65 | Reads until nothing is left, however short or interrupted the reads. |
| `Wake.FiberBridge.DrainPass` | src/fiber.rs:189-239 | One pass resolves what was owed when it began, empties the socket, and hands over every command up to a shutdown, by kind and in order; what others put on meanwhile stays; it is a run of the machine. |
| `Wake.FiberBridge.ResolveAndRead` | src/fiber.rs:192-194 | The wakeups are taken before the bytes: those put on while the bytes are read stay on the list. |
| `Wake.FiberBridge.ReceiveOne` | src/fiber.rs:202-231 | One command joins the batch under its kind. |
| `Wake.FiberBridge.WaitReadable` | ruby/fiber_runner.rb:19 | The wait ends exactly when a byte is there or the heartbeat is due. |
| `Budget.Ceiling.Take` | src/budget.rs:49-66 | The compare-and-exchange loop: a success adds the amount to the value it last saw and stays within capacity, a failure changes nothing and saw too little room; alone, it succeeds exactly when the amount fits. |
| `Downstream.FiberRackFilter.DrainStream` | crates/ruvoy-envoy-fiber/src/worker.rs:448-509 | The loop over the real queue does exactly that, and asks for the owed wakeup except when the response ended. |
| `Downstream.FiberRackFilter.DeliverOne` | crates/ruvoy-envoy-fiber/src/worker.rs:448-509 | One turn of the loop changes the filter as the specification says. |
| `Downstream.FiberRackFilter.OnRequestHeaders` | crates/ruvoy-envoy-fiber/src/worker.rs:289-354 | Admission, the two refusals, and what is counted of each; the end of a request without a body is passed on at once. |
| `Downstream.FiberRackFilter.OnRequestBody` | crates/ruvoy-envoy-fiber/src/worker.rs:628-645 | A frame or trailers are forwarded while the filter has the queue; the end is pending until it is passed on. |
| `Downstream.FiberRackFilter.ForwardRequestBody` | crates/ruvoy-envoy-fiber/src/worker.rs:242-287 | A pass over the real queue changes of the filter only whether the end is pending, and nothing once it has let go. |
| `Downstream.FiberRackFilter.ReportOutcome` | crates/ruvoy-envoy-fiber/src/worker.rs:371-376 | The first outcome of a request wins. |
| `Downstream.FiberRackFilter.SendBridgeError` | crates/ruvoy-envoy-fiber/src/worker.rs:378-397 | A local reply releases what the request owns and ends the filter. |
| `Downstream.FiberRackFilter.OnStreamComplete` | crates/ruvoy-envoy-fiber/src/worker.rs:698-703 | A request without an outcome counts as disconnected. |
| `Downstream.FiberRackFilter.Submit` | crates/ruvoy-envoy-fiber/src/worker.rs:289-354 | A request admitted holds both its queues; one refused is answered, and holds neither. |
| `UpstreamWork.Upstreams.Push` | src/upstream.rs:226-238 | Queues behind what is queued; refuses exactly when closed. |
| `UpstreamWork.Upstreams.TakeQueued` | src/upstream.rs:207-209 | Takes every queued call. |
| `UpstreamWork.Upstreams.TakeQueuedStreams` | src/upstream.rs:212-214 | Takes every queued stream. |
| `UpstreamWork.Upstreams.Close` | src/upstream.rs:217-224 | Closes for good and hands back what was not taken. |
| `UpstreamWork.UpstreamTables.SendUpstreamCalls` | crates/ruvoy-envoy-fiber/src/worker.rs:513-558 | Offers everything queued to Envoy: what it declines is counted at once, in order; each other piece is in its table under a new handle, and not counted. |
| `UpstreamWork.UpstreamTables.OnCallDone` | crates/ruvoy-envoy-fiber/src/worker.rs:662-691 | The work of a known handle is counted and leaves the table; an unknown handle is ignored. |
| `UpstreamWork.UpstreamTables.OnStreamDone` | crates/ruvoy-envoy-fiber/src/worker.rs:757-778 | The same of a stream. |
| `UpstreamWork.UpstreamTables.AbandonUpstreams` | crates/ruvoy-envoy-fiber/src/worker.rs:133-175 | Closes the route and empties both tables. |
| `UpstreamWork.UpstreamTables.OnStreamComplete` | crates/ruvoy-envoy-fiber/src/worker.rs:698-703 | Afterwards all work ever accepted has been counted, each piece once. |
| `UpstreamWork.UpstreamTables.Queue` | src/upstream.rs:226-238 | Work goes behind its own list, the other list and the tables unchanged, unless the route is closed. |
| `UpstreamWork.UpstreamTables.SendOne` | crates/ruvoy-envoy-fiber/src/upstream.rs:90-131 | A call Envoy declines is counted; any other is in flight under a new handle. |
| `UpstreamWork.UpstreamTables.StartOne` | crates/ruvoy-envoy-fiber/src/worker.rs:543-558 | The same of a stream. |
| `ExchangeObjects.StreamChannel.Close` | src/upstream.rs:96-100 | Both directions are cancelled before the reset is wanted. |
| `ExchangeObjects.StreamChannel.TimeOut` | src/upstream.rs:104-107 | The same, recorded as a time-out. |
| `ExchangeObjects.StreamChannel.Fail` | src/upstream.rs:117-121 | The failure goes behind what was received, and a reset is wanted. |
| `ExchangeObjects.OpenStream.HeadersArrived` | crates/ruvoy-envoy-fiber/src/upstream.rs:302-322 | Changes stream and channel as `OnHeaders`; an open response gains the head, and the end if it has come, or a failure. |
| `ExchangeObjects.OpenStream.DataArrived` | crates/ruvoy-envoy-fiber/src/upstream.rs:343-371 | Changes stream and channel as `OnData`, and reports exactly an overflow; an open response gains the piece and the end, or that failure. |
| `ExchangeObjects.OpenStream.TrailersArrived` | crates/ruvoy-envoy-fiber/src/upstream.rs:374-390 | Changes stream and channel as `OnTrailers`; an open response gains its end. |
| `ExchangeObjects.OpenStream.Completed` | crates/ruvoy-envoy-fiber/src/upstream.rs:393-398 | Changes stream and channel as `OnCompleted`; an open response gains its end. |
| `ExchangeObjects.OpenStream.ResetByEnvoy` | crates/ruvoy-envoy-fiber/src/upstream.rs:401-421 | Changes stream and channel as `OnReset`; an open response gains a failure, or its end if it was upgraded and nobody asked for a reset. |
| `ExchangeObjects.OpenStream.Abandon` | crates/ruvoy-envoy-fiber/src/upstream.rs:424-437 | Changes stream and channel as `OnAbandon`; an open response gains a failure. |
| `ExchangeObjects.OpenStream.NextAction` | crates/ruvoy-envoy-fiber/src/upstream.rs:280-299 | Asks for what the two steps of the machine ask for. |
| `Chunks.ChunkSource.NextChunk` | src/chunks.rs:25-36 | Whatever arrives meanwhile, a chunk is the next bytes and nothing loses none; the failure that ends the stream is raised when it is taken and at no other time, with no bytes left; each item taken is one wake of the worker. |
| `Chunks.ChunkSource.Finished` | src/chunks.rs:39-41 | True exactly when the peer cancelled, or ended the stream with no byte left of it; then no byte is left to take, for good. |
| `Chunks.ChunkSource.Park` | src/chunks.rs:43-45 | Returns with something to read or the end, having lost nothing. |
| `Chunks.ChunkSink.Write` | src/chunks.rs:65-77 | A prefix of what is offered is accepted, in order; nil exactly when the stream is over. |
| `Chunks.ChunkSink.Finish` | src/chunks.rs:97-101 | The end is accepted unless the peer is gone, and nothing is accepted after it. |
| `Chunks.ChunkSink.Park` | src/chunks.rs:88-90 | Returns with room or with the peer gone. |
| `Chunks.WriteWhole` | ruby/stream.rb:33-43 | `Stream.write` puts the whole chunk into the queue in order, or a prefix of it and false once the other side has gone. |
| `RackInput.Input.ReadAll` | ruby/request_body.rb:84-87 | The whole unread rest, "" at the end. |
| `RackInput.Input.GetsRest` | ruby/request_body.rb:33-37 | With no separator: the rest, nil at the end. |
| `RackInput.Input.FillUntilFound` | ruby/request_body.rb:39-45 | Whatever arrives between the searches, the place found is the first, and nothing is missed when none is found. |
| `RackInput.Input.PullAndSearch` | ruby/request_body.rb:40-44 | One round: the search restarted at size - separator size + 1 overlooks nothing. |
| `RackInput.Input.Search` | ruby/request_body.rb:103-111 | The windowed search finds the first occurrence among the bytes kept. |
| `RackInput.Input.Rewind` | ruby/request_body.rb:57-59 | Back to the start of the same body, so every byte is read again as before. |
| `RackInput.Input.Keep` | ruby/request_body.rb:113-123 | The bytes kept grow by the chunk; they are in a file exactly when they are more than 128 KiB. |
| `RackInput.Input.Take` | ruby/request_body.rb:89-93 | The bytes at the position, which moves behind them. |
| `RackInput.Input.Peek` | ruby/request_body.rb:95-100 | The same bytes from file or memory. |
| `RackInput.Input.PullReady` | ruby/request_body.rb:128-131 | Pulling every chunk that is there changes where the bytes are, not what they are. |
| `RackInput.Input.FillUntil` | ruby/request_body.rb:125-136 | Waits until enough is unread or the body is over. |
| `RackInput.Input.FillAll` | ruby/request_body.rb:125-136 | Waits until the whole body is there. |
| `RackInput.Input.YieldAll` | ruby/request_body.rb:51-55 | The loop of it. |
| `Duplex.Stream.Read` | ruby/stream.rb:59-74 | The next bytes, exactly as many as asked but at the end; then the recorded failure, and nil only if none was taken and the source said it was finished. |
| `Duplex.Stream.ReadAll` | ruby/stream.rb:59-66 | Everything to the end; with nothing there, the recorded failure, and "" only if none was taken. |
| `Duplex.Stream.ReadPartial` | ruby/stream.rb:76-85 | What is there, once something is; with nothing left the recorded failure, and the end of file only if none was taken. |
| `Duplex.Stream.Drain` | ruby/stream.rb:201-207 | Taking chunks moves bytes into the buffer, in order; a failure taken is recorded, and one recorded stays. |
| `Duplex.Stream.Fill` | ruby/stream.rb:192-199 | Waits for enough or for the end and loses nothing. |
| `Duplex.Stream.Give` | ruby/stream.rb:209-214 | What is returned followed by the buffer is what the buffer was; the counter follows. |
| `Duplex.Stream.Write` | ruby/stream.rb:87-97 | All strings whole and in order, or a prefix of them and an error; after `close_write` nothing. |
| `Duplex.Stream.CloseWrite` | ruby/stream.rb:114-119 | The peer gets an end, once, behind what was written. |
| `Duplex.Stream.Close` | ruby/stream.rb:122-125 | Both directions are closed and no unread byte is lost. |
| `Duplex.CopyRound` | ruby/stream.rb:164-171 | One round of `copy`: what was read is written, or a prefix of it when the peer is gone; a clean end of one side, and no failure, closes the write side it fed. |
| `Duplex.CopyStopped` | ruby/stream.rb:158-160 | A direction stopped in the middle of a write has still written a prefix of what it read. |
| `Duplex.StopBoth` | ruby/stream.rb:156-160 | A failure stops the other direction and closes nothing more. |
| `Duplex.CopyData` | ruby/stream.rb:164-171 | A direction goes on if and only if all of a piece went into a side open for writing. |
| `Duplex.RunDirections` | ruby/stream.rb:138-160 | However the directions take turns, each has handed over a prefix of what it read, closed only its own sides, and ended for a reason. |
| `Serving.FeedChunks` | ruby/rack_streaming_body_reader.rb:6-7 | The chunks of an enumerable body are queued whole and in order, or a prefix of them once the client is gone. |
| `Serving.OpenStream` | ruby/rack_streaming_body_reader.rb:8-10 | The stream a streaming body gets reads exactly what was unread of the request. |
| `Upload.PrereadBody` | ruby/upstream.rb:140-147 | Short reads or not: all of the input when it ends within a piece, nil when it is empty, otherwise more than a piece and the input holding the rest. |
| `Upload.UploadBody` | ruby/upstream.rb:99-112 | What is written is a prefix of the body; the end goes in only behind all of it, and not when a read raised. |
| `Upload.SendRest` | ruby/upstream.rb:103-106 | The loop over the input writes it whole unless the upstream is gone or a read raises. |
| `Upload.MakeFields` | ruby/upstream.rb:77-95 | Refuses exactly an empty method, a path without a slash and pseudo-headers; otherwise the fields in order, the length only when known and not given, the host last. |
| `Upload.StreamBody` | ruby/upstream.rb:50-55 | Preread, fields and upload together: a body is sized only when it was read whole; the end is written only behind the whole body; nothing is opened exactly when an argument is refused or a read ahead raised. |
| `Calls.Deliver` | crates/ruvoy-envoy-fiber/src/upstream.rs:133-168 | A whole answer within the limit and with a status joins an open queue as its head, its body and an end, and is completed; an oversize one, or one the limit of Envoy cut, is too large, and any other a reset; a closed queue stays as it is. |
| `Calls.HeadOf` | crates/ruvoy-envoy-fiber/src/upstream.rs:199-216 | The last `:status` decides, and must parse; the other fields but pseudo-headers in order. |
| `Calls.Concatenate` | crates/ruvoy-envoy-fiber/src/upstream.rs:218-224 | The slices in a row. |
| `Calls.UpstreamCall.Response` | src/extensions.rs:341-369 | However the items arrive between calls: nil until all is in, then the answer as it was delivered, and an error when asked again. |
| `Calls.UpstreamCall.TakeOne` | src/extensions.rs:349-367 | One item joins what was put together so far, never an end before its head. |
| `Calls.EachChunk` | ruby/upstream.rb:168-178 | A streamed body yields all its bytes in order; without a failure raised none was taken. |
| `Streams.ApplyKeepsAccounts` | src/stream.rs:67-247 | Each lock acquisition keeps the accounts. |
| `WriterPark.WriterParksUnstarted` | src/stream.rs:102-109 | A concrete run in which a writer parks before its stream is started. |
| `WriterPark.RescueStep` | crates/ruvoy-envoy-fiber/src/worker.rs:448-509 | Each step of the rescue comes strictly closer. |
| `WriterPark.Invariant` | crates/ruvoy-envoy-fiber/src/worker.rs:448-602 | The invariant behind these holds after every run. |
| `WriterPark.WriterGetsOn` | ruby/stream.rb:33-43 | A writer free to write queues all there is room for and tells the worker, stops if the queue is cancelled, and asks again if there is no room. |
| `WriterPark.WriterAsks` | ruby/stream.rb:10-43 | It parks exactly when the queue is full and not cancelled, and lets go of its variable when resumed. |
| `WriterPark.LoopTakesInOrder` | crates/ruvoy-envoy-fiber/src/worker.rs:448-509 | The loop takes the items in order until none is handed out, and lets go behind the end of a response. |
| `WriterPark.PauseHolds` | crates/ruvoy-envoy-fiber/src/worker.rs:780-799 | Nothing is handed out above the high watermark. |
| `WriterPark.PauseEnds` | crates/ruvoy-envoy-fiber/src/worker.rs:780-799 | Below the low one the queue is as it was but for the pause. |
| `WriterPark.StoppedWriterLeaves` | ruby/stream.rb:10-20 | A writer stopped while parked leaves no variable behind. |
| `RequestFlow.Invariant` | crates/ruvoy-envoy-fiber/src/worker.rs:242-287 | The invariant behind these holds after every run. |
| `RequestFlow.EnvoyConserves` | crates/ruvoy-envoy-fiber/src/worker.rs:242-287 | Whatever a step of the worker pushes joins what the reader took and what is queued. |
| `RequestFlow.ReaderConserves` | src/chunks.rs:25-36 | What the reader takes leaves the queue from the front. |
| `RequestFlow.StepPushesOnlyOpen` | crates/ruvoy-envoy-fiber/src/worker.rs:242-287 | No step pushes behind the end, or once the filter has let go. |
| `RequestFlow.StepWakesNobody` | crates/ruvoy-envoy-fiber/src/worker.rs:107-125 | No step but a stop wakes a reader of a queue that the filter has let go of. |
| `RequestFlow.TakeKeeps` | src/chunks.rs:25-36 | Taking an item keeps the invariant and leaves the worker to be woken. |
| `RequestFlow.FrameIsReceived` | crates/ruvoy-envoy-fiber/src/worker.rs:606-640 | A frame goes behind all that Envoy holds, and a pass of forwarding begins unless the filter has let go. |
| `RequestFlow.ReaderLeaves` | ruby/stream.rb:10-20 | A reader that has enough leaves, and one stopped leaves no variable behind. |
| `RequestProgress.NextAdvances` | crates/ruvoy-envoy-fiber/src/worker.rs:242-287 | Each step of that comes strictly closer. |
| `Forwarding.CopiedInOrder` | crates/ruvoy-envoy-fiber/src/worker.rs:258-269 | A copy of the retained bytes and one of the frame, of what still fits, are one copy of the two in a row. |
| `Forwarding.Drained` | crates/ruvoy-envoy-fiber/src/worker.rs:886-889 | What is left after a drain are the bytes not drained, in non-empty slices. |
| `ReaderPark.AboutToParkOnNothing` | ruby/upstream.rb:159-166 | The run that leads there. |
| `ReaderPark.Invariant` | crates/ruvoy-envoy-fiber/src/worker.rs:705-778 | The invariant behind these holds after every run. |
| `ReaderPark.ResumeStep` | crates/ruvoy-envoy-fiber/src/worker.rs:705-778 | Each step of that comes strictly closer. |
| `ReaderPark.CancelledReaderLeaves` | ruby/upstream.rb:168-178 | Once resumed, the reader of a cancelled exchange leaves by its own next steps. |
| `ReaderPark.ItemsGoThrough` | crates/ruvoy-envoy-fiber/src/worker.rs:705-778 | What Envoy brings is queued and told, and what is queued is taken in order. |
| `ReaderPark.CloseGoesThrough` | src/upstream.rs:96-107 | A close cancels the queue, wants the reset and schedules the event. |
| `ReaderPark.StoppedReaderLeaves` | ruby/stream.rb:10-20 | A reader stopped while parked leaves no variable behind. |
| `Surfacing.Invariant` | src/stream.rs:237-247 | The invariant behind these holds after every run. |
| `Wake.SendIsHeard` | src/wake.rs:30-47 | A command that is sent is the last in the channel, with a byte unread. |
| `Wake.OweIsHeard` | src/fiber.rs:281-289 | A stream that is owed is the last on the list, with a byte unread. |
| `Wake.SortedByKind` | src/fiber.rs:202-231 | The calls of a batch are the ids of its `Call` commands in order, the admin requests those of its `Admin` commands. |
| `Budget.StepKeepsInv` | src/budget.rs:49-81 | Every atomic step, a spurious failure included, keeps counter and leases in step. |
| `Budget.LeaseGoesRound` | src/budget.rs:36-81 | What was won is held, and what is dropped goes back to the counter. |
| `Downstream.Pass` | crates/ruvoy-envoy-fiber/src/worker.rs:448-509 | Draining a queue delivers all of it up to the end, unless paused. |
| `Downstream.ItemsKeep` | crates/ruvoy-envoy-fiber/src/worker.rs:448-509 | Any items delivered keep language and accounts. |
| `Downstream.Invariant` | crates/ruvoy-envoy-fiber/src/worker.rs:289-703 | Language and accounts hold after any callbacks. |
| `Downstream.FirstAnswer` | crates/ruvoy-envoy-fiber/src/worker.rs:289-354 | Unreadable is a 400, turned away a 503; otherwise both queues are held. |
| `Downstream.FailureBeforeHead` | crates/ruvoy-envoy-fiber/src/worker.rs:378-397 | A failure before the head is a 500, which lets go of all the request owns. |
| `Fidelity.Invariant` | src/rack.rs:108-170 | Order, head first, and ending as the body or its stream did hold after every run. |
| `Fidelity.DeliverConcludes` | crates/ruvoy-envoy-fiber/src/worker.rs:448-509 | Delivering an item keeps it true that what was said last tells how the body ended. |
| `Fidelity.WholeResponse` | src/rack.rs:108-170 | A concrete run for every head and chunk, which reach the client with the end behind them. |
| `Fidelity.RaiseIsHeard` | src/fiber.rs:265-270 | A body may raise at any point, and its failure goes behind what is queued. |
| `UpstreamWork.StepConserves` | crates/ruvoy-envoy-fiber/src/worker.rs:513-703 | Each lock acquisition, request and callback moves work from one place to another. |
| `UpstreamWork.OfferedIsSortedOut` | crates/ruvoy-envoy-fiber/src/worker.rs:513-558 | Of all that was offered, what was declined is counted, in order, and the table gains exactly the rest. |
| `Exchange.Invariant` | crates/ruvoy-envoy-fiber/src/upstream.rs:302-454 | The invariant behind these holds after every run. |
| `Exchange.SendInvariant` | crates/ruvoy-envoy-fiber/src/upstream.rs:280-299 | What went out, followed by what is queued, is what was written. |
| `Requests.ClosedExchangeIsSkipped` | crates/ruvoy-envoy-fiber/src/upstream.rs:470-472 | It is dropped at the next look. |
| `Requests.OpenExchangeStarts` | crates/ruvoy-envoy-fiber/src/upstream.rs:459-498 | Any other starts with its first chunk, as ended exactly if its end comes first, or fails if refused. |
| `Requests.FiberIsHeard` | src/chunks.rs:65-101 | What the fiber writes is queued as far as there is room, and its end ends the queue. |
| `Requests.CloseGoesThrough` | src/upstream.rs:96-100 | A close cancels both queues and then wants the reset. |
| `Requests.TimeOutIsMarked` | src/upstream.rs:104-107 | A time-out marks the exchange before it closes it. |
| `Requests.Invariant` | crates/ruvoy-envoy-fiber/src/upstream.rs:280-299 | The invariant behind these holds after every run. |
| `Responses.UnsentIsAbandoned` | crates/ruvoy-envoy-fiber/src/worker.rs:133-175 | A stream never sent fails when its request is over. |
| `Chunks.TurnKeeps` | src/chunks.rs:54-101 | A turn of the peer never ends or revives a queue, and one that keeps up leaves room. |
| `RackInput.WindowSearched` | ruby/request_body.rb:103-111 | Windows that overlap by all but one byte of the separator miss no occurrence. |
| `RackInput.SearchedPrefix` | ruby/request_body.rb:39-45 | A later search may start where a separator could still begin. |
| `Upload.OnlyLength` | ruby/upstream.rb:93 | The one content-length sent is the length of the body. |
| `Upload.UploadInvariant` | ruby/upstream.rb:99-112 | The request side ends only with the whole body written, after every run. |
| `Upload.CallsMakeAnUpload` | ruby/upstream.rb:99-112 | A run whose calls, in order and as they found the queue, are those of a disciplined fiber writes what comes next and ends only behind the whole. |
| `Upload.GivenExactly` | ruby/upstream.rb:83-92 | The fields given are every element of every header but `host`, under the folded name. |
| `Upload.GivenInOrder` | ruby/upstream.rb:83-92 | And in their order. |
| `Upload.LastHostDecides` | ruby/upstream.rb:81-95 | The last `host` header decides; without one it is the cluster. |
| `Upload.FieldsInShape` | ruby/upstream.rb:77-95 | Method and path come first, the one host last, and no pseudo-header in between. |
| `Upload.NoLengthAdded` | ruby/upstream.rb:93 | A length the headers give stands, and without a body none is added. |
| `Decimals.DecimalSaysItsNumber` | ruby/upstream.rb:93 | Digits written by `to_s` say the number they came from. |
| `Calls.LastStatusDecides` | crates/ruvoy-envoy-fiber/src/upstream.rs:199-216 | The last `:status` decides alone, even when it does not parse. |
| `Calls.StatusParses` | crates/ruvoy-envoy-fiber/src/upstream.rs:199-216 | It says its decimal number, of at most sixteen bits, and nothing else. |
| `Calls.PlainFieldsInOrder` | crates/ruvoy-envoy-fiber/src/upstream.rs:199-216 | Pseudo-headers are left out, all other fields kept in order. |

## Left out

- Envoy, CRuby and its bindings, Async, sockets and temporary files: only the assumptions above are used.
- Integer width: sizes are unbounded; the counter of `Budget` is shown never to leave its range.
- A peer that goes on for ever: `ChunkSource` and `ChunkSink` give the peer any finite number of turns before it keeps up or ends, since each call that returns has seen finitely many.
- What a cancel drops: a `ChunkSource` may be cancelled by its peer, but the items dropped are left out of its script, so the readers' claims hold of the body that was taken before; the dropping itself is modelled in `Streams` and `RequestFlow`.
- UpstreamWork.UpstreamTables.SendUpstreamCalls: lets Envoy decline any piece; the reasons it gives, the headers and the trace fields are not modelled.
- A streaming body whose other fiber closes the stream in the middle of a write, or writes beside it: `Fidelity` has one fiber writing, and a close comes between its writes.
- Surfacing.UnraisedExactlyWhenQueuedInBetween: is about a stream nobody closes; a close drops what is queued, the failure with it.
- RackInput.Input.Gets: with an empty separator only the position and the body are accounted for, because what the code then returns depends on the chunking; the buffer argument of `read`, negative lengths and `close` are left out.
- Duplex.Stream.ReadPartial: leaves out a negative length, a buffer argument, and the idle time-out of a stream facing an upstream, which closes the exchange and drops what was queued.
- UpstreamBody#head, #close and #trailers, and `UpstreamStream#close`: one call each to what `Exchange` models as the fiber's reading and closing.
- Upload.MakeFields: names are folded as ASCII; the upgrade headers of `stream` and their tokens (section 7.8 of RFC 9110) are left out.
- Header name mapping, environment keys, trace header merging, authority splitting, metadata and `ruvoy.context`: small single-function members.
- Response head values, hop-by-hop filtering and stage timings: the head is opaque here.
- Wakes and waits in `Chunks`: wakes are counted for the reading end; that the right party is woken, and that a fiber parks rather than polls, is the subject of the park machines.
- The disconnected command channel, `ack_shutdown`, and the stopping of running fibers at shutdown.
- The serial runtime, offload threads, admin endpoints, lifecycle hooks, clocks and histograms, process start and stop, configuration.
