# A verified model of rediscoro

rediscoro is a RESP3 client: an incremental parser that appends to two flat vectors, a builder that
turns the vectors into messages, a request printer, a pipeline that matches replies to requests, and
a connection that runs reader, writer and control loop on one strand and reconnects. This project
models that core in Dafny and proves what it keeps on every input and on every run.

`dafny verify dfyconfig.toml` checks everything.

## The main results

- **Chunk independence** (`Streaming.ChunkIndependence`). For every byte stream, all ways of splitting
  it into reads show the same trees and the same error, if and only if the stream is not
  cut-sensitive. For streams of well-formed values that is: if and only if no line or length text in
  them has exactly `max_resp_line_bytes` bytes (`Cuts.ReadsMatterIffAtLimit`). The check made while
  no CRLF has been seen also counts a trailing CR: `Cuts.CutBetweenCrAndLf` shows `+OK` refused when
  the read ends between CR and LF and accepted otherwise.
- **Framing** (`Messages.FramingNeverSlips`). On any well-formed value, with any nesting, any
  attributes and any bytes after it, `parse_one` consumes exactly that value and lays its nodes out
  in wire order.
- **Refinement of recursive descent** (`Descent.StackRefinesDescent`,
  `Descent.AcceptsExactlyWellFormed`). On every input the resumable stack machine gives the same
  value, the same end and the same error as a plain recursive-descent reader; a root is produced
  exactly on the encodings of well-formed values.
- **Outcome of any bytes** (`Verdict.OutcomeByCounting`). Whether `parse_one` finds a value, waits or
  reports which error is decided by the bytes: tokens are judged by conditions on their bytes alone
  (one for waiting, one for each protocol error), and the parse stack is replaced by a single number,
  the values still missing.
- **Exact round trip** (`Messages.RoundTripExact`). Parsing and building gives a value back if and
  only if the value lies in an explicit fragment: after the first element (first pair) of a container
  nothing pushes links, and a value has at most one attribute pair. `Messages.NestedIsNotFaithful` and
  `Messages.TwoPairsAreNotFaithful` show one value outside each half of it: all containers share one
  `links` vector, and `[1, [2]]` comes back as `[1, 2]` (`Messages.NestedIsFlattened`).
- **Builder safety** (`Messages.EveryTreeIsBuildable`, `Builder.BuildMessage`). Whatever bytes
  arrive, every tree handed out can be built: the builder's loop terminates and no assertion,
  unreachable branch or index in it can fail; the parser never reports an internal error.
- **Views** (`Views.ViewsSpellTexts`). Nodes do not hold their text but a range of the read buffer.
  However reads, parses and reclaims are interleaved, every range in the tree spells its node's text,
  and goes on doing so until the next reclaim.
- **Printer and parser** (`Request.PrinterParserRoundTrip`). Commands with binary arguments come back
  as one array of bulk strings each, in order, with nothing left over.
- **Replies by generation** (`Runs.RepliesMatchGenerations`). In every reachable state of the
  connection and for every generation there is a `k` such that, of all the reply slots accepted in
  it, the first `k` hold messages 1 to `k` of that generation's own stream, and the others hold
  client-side errors or, in the open generation, still wait. Every slot has exactly one holder.
  `FirstReply.SomeRunGetsItsReply` is a run that connects, sends a request and gets its reply.
- **Opening** (`Runs.OpensIffGreeted`, `Runs.AttemptsHearTheirOwn`). In every run a handshake read
  opens the connection if and only if the server has sent the expected number of replies in this very
  attempt and none of them is an error; an error among them ends the attempt. Every attempt starts
  with a parser that has seen nothing, and has sent its request in full before it reads.
- **Reasons** (`Causes.AcceptedIffRoom`, `Causes.FallsTellWhy`, `Causes.ReadsTellWhy`). A request is
  accepted if and only if the connection is open and has room, and is told why otherwise; when the
  connection falls, every slot still open gets the cause of the fall. The phases follow the documented
  diagram (`Lifecycle.PhasesFollowTheDiagram`), with one arrow more: a reconnect that fails while the
  connection is closing goes back to FAILED.
- **Settled exactly once** (`Runs.SettledExactlyOnce`, `Runs.SettledForGood`), **write credit**
  (`Runs.WritesAreCredited`), **byte conservation within the configured limits** (`Runs.SentInOrder`,
  `Runs.LimitsHold`), **traces** (`Runs.TracesBalance`).
- **Deadlines** (`Runs.EarliestDeadline`). The two-front `next_deadline` is the minimum over all
  requests in every reachable state. For arbitrary pushes it is not
  (`Pipeline.NextDeadlineMissesUnsorted`); it never misses all the way through a line of requests if
  and only if their deadlines are sorted (`Pipeline.SortedIffNeverMisses`).
- **Closing** (`Shutdown.CloseCompletesIff`, `Shutdown.CloseIsInevitable`). `close` asserts at its
  end that the connection is CLOSED. That can happen if and only if an actor is running or the
  connection is closed already. With an actor it must: there is always a completion to wait for, and
  after at most five of them the connection is CLOSED, not having been open in between. `close` on a
  connection that was never connected leaves it in CLOSING for good
  (`Shutdown.CloseBeforeConnectSticks`).
- **Adapter** (`AdapterFits.AdaptsIffFits`, `AdapterPaths.ErrorPathsAreSound`,
  `AdapterPaths.ValuesMirror`). Adapting succeeds if and only if the message has the shape of the
  target; an error's path leads to a part of which the error is true; a value loses nothing.
- **Backoff** (`Backoff.DelayInBounds`, `Backoff.BaseStep`, `Backoff.JitterRange`,
  `Backoff.ReachesMaxIff`), **ring queue**, **read buffer**.

## How the model is laid out

Code that updates state in place is modelled by classes with loops (`ParserObject`, `Buffer`,
`RingQueue`, `PendingResponse`, `PipelineObject`, `Request`, the loops of the builder, the adapter and
the reader); each method is proved against a function on values, and the results are about those
functions. The pipeline object sits on two `RingQueue` objects. The connection is a step machine on
values (`Connection`): everything between two suspension points on the strand is one step. The loops
over parser and pipeline objects tie the two together: reading message by message has the effect of
the machine's read step (`ReadLoop.DoRead`), reading the handshake's reply that of its handshake step
(`ReadLoop.ShakeRead`), and writing is a run of its write steps (`WriteLoop.DoWrite`).

What the machine takes from its environment, all in `Connection.Enabled`:

- an IO operation in flight when its socket is closed completes with an error;
- a write takes at most what it was offered;
- `connect` is called before the first connection, while connecting or open (where it does nothing),
  after a stop was requested (where it is refused), or from CLOSED once the actor's completion handler
  has run and the previous `connect` has returned;
- handshake completion and the switch to OPEN are one step;
- the actor completes only when its loops are done, and throws only while no connection attempt is
  under way;
- a request expects at least one reply.

The failed reconnect that overwrites CLOSING with FAILED is kept as the code has it.

Two places where the code and its documentation differ, with the code followed: `close` on a fresh
connection (above), and the line limit, which depends on how the bytes were split.

## Model

| member | source | states |
|---|---|---|
| `Bytes.FindCrlf` | include/rediscoro/resp3/impl/parser.ipp:15-17 | the first CRLF, or none anywhere |
| `Bytes.DecimalRoundTrip` | include/rediscoro/resp3/impl/parser.ipp:19-30 | the integer parser reads every printed length back |
| `Bytes.ParsesIffDenotes` | include/rediscoro/resp3/impl/parser.ipp:19-30 | a text parses to an integer if and only if it is a decimal spelling of it and it fits in 64 bits |
| `Kinds.TypeBytes` | include/rediscoro/resp3/kind.hpp:35-76 | the fifteen type bytes, each with its kind, and no others |
| `Bytes.FindCrlfLocal` | include/rediscoro/resp3/impl/parser.ipp:15-17 | bytes after a CRLF do not change where it is found |
| `Lexer.LexTokLocal` | include/rediscoro/resp3/impl/parser.ipp:209-408 | a token depends only on the bytes it consumes |
| `Lexer.LexBadExtends` | include/rediscoro/resp3/impl/parser.ipp:93-117 | a rejection is final, except for a line of exactly the limit cut between CR and LF |
| `Parser.Run` | include/rediscoro/resp3/impl/parser.ipp:504-563 | the loop terminates, never grows the unread bytes, and consumes some for every root |
| `Parser.Attach` | include/rediscoro/resp3/impl/parser.ipp:410-502 | terminates on the stack depth and keeps every open container's node in range |
| `ParserObject.Parser.PushPending` | include/rediscoro/resp3/parser.hpp:119-125 | an attribute link starts or extends the pending run |
| `ParserObject.Parser.AddNode` | include/rediscoro/resp3/parser.hpp:127-135 | a new node takes the pending attributes, none stay pending |
| `ParserObject.Parser.StartContainer` | include/rediscoro/resp3/impl/parser.ipp:119-179 | rejects bad lengths, produces null and empty containers, opens the others |
| `ParserObject.Parser.StartAttribute` | include/rediscoro/resp3/impl/parser.ipp:181-207 | rejects bad lengths, skips empty attributes, opens the others; never produces a node |
| `ParserObject.Parser.ParseValue` | include/rediscoro/resp3/impl/parser.ipp:209-408 | one token: waits without consuming, fails without consuming, or applies it |
| `ParserObject.Parser.AttachToParent` | include/rediscoro/resp3/impl/parser.ipp:410-502 | the loop closes every container the node completes, as the recursive `Attach` |
| `ParserObject.Parser.ParseOne` | include/rediscoro/resp3/impl/parser.ipp:504-563 | root, need for bytes or error as `Parser.ParseOne`; a root comes with a buildable tree; no internal error; refusals while a tree is out or after a failure |
| `ParserObject.Parser.Reclaim` | include/rediscoro/resp3/impl/parser.ipp:565-572 | drops tree, stack and attributes, keeps unread bytes and the failed flag |
| `ParserObject.Parser.Reset` | include/rediscoro/resp3/parser.hpp:73-80 | back to the initial state |
| `Discipline.AttachKeeps` | include/rediscoro/resp3/impl/parser.ipp:410-502 | attaching keeps the stack and tree invariant and never fails |
| `Discipline.ConsumeKeeps` | include/rediscoro/resp3/impl/parser.ipp:209-408 | one token keeps the invariant; its only error is a bad length |
| `Discipline.RunKeeps` | include/rediscoro/resp3/impl/parser.ipp:504-563 | on every input: the invariant holds, no `invalid_state` or `invalid_map_pairs`, roots only with finished trees |
| `Streaming.ReadLater` | include/rediscoro/resp3/impl/parser.ipp:504-572 | stopping for bytes and going on shows the same as having had them at once |
| `Streaming.ChunkIndependence` | include/rediscoro/resp3/impl/parser.ipp:93-117 | reads do not matter if and only if the stream is not cut-sensitive |
| `Streaming.WhereToCut` | include/rediscoro/resp3/impl/parser.ipp:209-408 | a cut-sensitive stream has a split that shows something else |
| `Cuts.ReadsMatterIffAtLimit` | include/rediscoro/resp3/impl/parser.ipp:93-117 | for well-formed values: reads do not matter if and only if no line or length text has exactly the maximum length |
| `Cuts.SensitiveIffAtLimit` | include/rediscoro/resp3/impl/parser.ipp:209-408 | without errors, cut-sensitive means that some token starts with a line of the maximum length |
| `Cuts.CutBetweenCrAndLf` | include/rediscoro/resp3/impl/parser.ipp:93-117 | `+OK` with a limit of two: one read gives a value, a read ending at CR gives `invalid_length` |
| `Streaming.NoLineAtLimitSuffices` | include/rediscoro/resp3/impl/parser.ipp:93-117 | without a line of exactly the maximum length the stream is not cut-sensitive |
| `Framing.ParseWire` | include/rediscoro/resp3/impl/parser.ipp:209-563 | on any stack, parsing a well-formed value consumes its encoding and attaches its layout |
| `Layout.LayGrows` | include/rediscoro/resp3/impl/parser.ipp:410-502 | a value's nodes and links come after all earlier ones, which stay as they were; it pushes exactly `Links` of them |
| `Messages.FramingNeverSlips` | include/rediscoro/resp3/impl/parser.ipp:504-563 | exactly one value is consumed; nodes are its wire-order flattening with final child counts |
| `Descent.TokenSplit` | include/rediscoro/resp3/impl/parser.ipp:209-408 | the bytes a token consumes are exactly what it spells |
| `Descent.ScanSound` | include/rediscoro/resp3/impl/parser.ipp:209-502 | whatever the descent reads whole is well-formed, and the bytes read are its encoding |
| `Descent.WireStops` | include/rediscoro/resp3/impl/parser.ipp:209-563 | anywhere in a value, the machine stops as the descent stops: same error or same need for bytes |
| `Descent.StackRefinesDescent` | include/rediscoro/resp3/impl/parser.ipp:504-563 | `parse_one` gives the value, the remaining bytes or the error that recursive descent gives |
| `Descent.AcceptsExactlyWellFormed` | include/rediscoro/resp3/impl/parser.ipp:504-563 | a root is produced if and only if the input starts with the encoding of a well-formed value |
| `Descent.EncodingsArePrefixFree` | include/rediscoro/resp3/impl/parser.ipp:504-563 | where a value ends is decided by the bytes alone |
| `Verdict.DeclaredIsSpelled` | include/rediscoro/resp3/impl/parser.ipp:93-117 | the length a header declares is what its line spells in decimal, if the line is short enough |
| `Verdict.TokenAgrees` | include/rediscoro/resp3/impl/parser.ipp:93-408 | waiting, each protocol error and success of the first token, each if and only if its bytes meet a condition |
| `Verdict.TokenSays` | include/rediscoro/resp3/impl/parser.ipp:209-408 | a token's kind, text, number, flag or length is what its bytes spell |
| `Verdict.AttachCounts` | include/rediscoro/resp3/impl/parser.ipp:410-502 | attaching a finished value leaves the number of missing values as it is; none is missing exactly if the value was the root |
| `Verdict.RunCounts` | include/rediscoro/resp3/impl/parser.ipp:504-563 | from any stack, also in the middle of a value: root, need for bytes or error as counting missing values over the bytes gives |
| `Verdict.OutcomeByCounting` | include/rediscoro/resp3/impl/parser.ipp:504-563 | the same for a fresh parser, where one value is missing |
| `Verdict.FirstToken` | include/rediscoro/resp3/impl/parser.ipp:504-563 | an unfinished token leaves everything unread, a faulty one gives its error, one without parts is a root |
| `Verdict.ValueAlone` | include/rediscoro/resp3/builder.hpp:61-140 | a value without parts is parsed and built to what its bytes spell |
| `Messages.DrainValues` | include/rediscoro/resp3/impl/parser.ipp:504-572 | a stream of values is handed out value by value with nothing left over |
| `Messages.RoundTripExact` | include/rediscoro/resp3/builder.hpp:37-250 | building the parsed encoding gives the value if and only if it is faithful |
| `Messages.NestedIsNotFaithful` | include/rediscoro/resp3/impl/parser.ipp:422-428 | `[1, [2]]` is well-formed and not faithful |
| `Messages.NestedIsFlattened` | include/rediscoro/resp3/impl/parser.ipp:422-428 | parsing and building `[1, [2]]` gives `[1, 2]` |
| `Messages.TwoPairsAreNotFaithful` | include/rediscoro/resp3/parser.hpp:119-135 | an integer under an attribute of two pairs is well-formed and not faithful |
| `Messages.EveryTreeIsBuildable` | include/rediscoro/resp3/builder.hpp:61-247 | however any bytes arrive, every tree meets the builder's needs and no error is internal |
| `RoundTrip.BuildLay` | include/rediscoro/resp3/builder.hpp:37-250 | anywhere in a larger tree, a laid-out value is rebuilt if and only if it is faithful |
| `Builder.BuildMessage` | include/rediscoro/resp3/builder.hpp:37-250 | the explicit-stack loop terminates, meets none of its assertions, and builds the message the links describe |
| `Builder.ReceiveValue` | include/rediscoro/resp3/builder.hpp:61-247 | a child arriving extends the container's value by exactly that child; a key waits for its value |
| `Buffer.IsFifo` | include/rediscoro/resp3/buffer.hpp:30-79 | over any run, what is readable is what was committed, in order, less what was consumed |
| `Buffer.ViewsStay` | include/rediscoro/resp3/buffer.hpp:67-79 | views spell the same bytes until the next compaction |
| `Buffer.Buffer.Grow` | include/rediscoro/resp3/buffer.hpp:87-118 | the growth loop ends with enough room, less than doubled beyond need |
| `Buffer.Buffer.Prepare` | include/rediscoro/resp3/buffer.hpp:30-33 | at least the requested space, nothing written changes |
| `Buffer.Buffer.Commit` | include/rediscoro/resp3/buffer.hpp:36-40 | the first bytes of the prepared space become readable |
| `Buffer.Buffer.Consume` | include/rediscoro/resp3/buffer.hpp:54-57 | the read position moves, the bytes stay |
| `Buffer.Buffer.Compact` | include/rediscoro/resp3/buffer.hpp:67-79 | unread bytes move to the front in place, none lost |
| `Buffer.Buffer.Reset` | include/rediscoro/resp3/buffer.hpp:60-63 | back to nothing written and nothing read; the storage stays |
| `Views.TextAt` | include/rediscoro/resp3/impl/parser.ipp:209-408 | a scalar's text lies within the bytes its token consumes, after the type byte or the length header |
| `Views.ConsumeTexts` | include/rediscoro/resp3/impl/parser.ipp:209-502 | a token appends at most one node, with the token's text; no earlier text changes |
| `Views.TrackSpells` | include/rediscoro/resp3/impl/parser.ipp:504-563 | when the loop ends, on a root, a need for bytes or an error, every recorded view spells its node's text, and the unread bytes are the end of the buffer |
| `Views.PerformKeeps` | include/rediscoro/resp3/parser.hpp:28-69 | receiving, parsing and reclaiming keep all views right; only reclaiming changes a recorded one |
| `Views.ViewsSpellTexts` | include/rediscoro/resp3/parser.hpp:28-69 | over any sequence of these: every view spells its node's text, and stays until the next reclaim |
| `Views.NewSessionIsReadable` | include/rediscoro/resp3/parser.hpp:73-80 | a fresh parser and buffer meet what these results ask for |
| `RingQueue.Slot` | include/rediscoro/detail/ring_queue.hpp:129-133 | an index wraps at most once and stays in the array |
| `RingQueue.GrownCapacity` | include/rediscoro/detail/ring_queue.hpp:135-143 | doubling ends with room for all, below twice the need |
| `RingQueue.RingQueue.Front` | include/rediscoro/detail/ring_queue.hpp:83-91 | the first element of the represented sequence |
| `RingQueue.RingQueue.SetFront` | include/rediscoro/detail/ring_queue.hpp:83-86 | writing through the front reference changes the first element only |
| `RingQueue.RingQueue.PopFront` | include/rediscoro/detail/ring_queue.hpp:93-102 | the represented sequence loses its first element |
| `RingQueue.RingQueue.EnsureCapacity` | include/rediscoro/detail/ring_queue.hpp:135-171 | growing linearises without reordering or losing elements |
| `RingQueue.RingQueue.EmplaceBack` | include/rediscoro/detail/ring_queue.hpp:104-110 | the represented sequence gains the element at its end |
| `RingQueue.RingQueue.Clear` | include/rediscoro/detail/ring_queue.hpp:115-120 | the represented sequence is empty and the head is 0 |
| `Request.Request.AppendCommandHeader` | include/rediscoro/request.hpp:102-106 | appends an array header |
| `Request.Request.AppendBulkString` | include/rediscoro/request.hpp:108-114 | appends the encoding of one bulk string |
| `Request.Request.Push` | include/rediscoro/request.hpp:63-70 | appends the encoding of one command; wire and count stand for the commands pushed |
| `Request.Request.Clear` | include/rediscoro/request.hpp:49-52 | wire and count stand for no command |
| `Request.PrinterParserRoundTrip` | include/rediscoro/request.hpp:54-114 | reading the wire back gives one array of bulk strings per command, exactly the arguments pushed |
| `Adapter.NoTruncation` | include/rediscoro/adapter/detail/adapt_scalar.hpp:42-69 | an integer that passes the checks is not changed by the cast |
| `AdapterFits.AdaptsIffFits` | include/rediscoro/adapter/adapt.hpp:30-54 | adapting succeeds if and only if the message has the shape of the target: kinds, nulls, sizes, ranges, distinct keys, all the way down |
| `AdapterFits.ComplaintIsRaised` | include/rediscoro/adapter/detail/adapt_scalar.hpp:22-88 | what is wrong with the message itself is what is reported |
| `AdapterFits.FirstBadItem` | include/rediscoro/adapter/detail/adapt_sequence.hpp:22-55 | the error of a list is that of its first element that does not fit, under its index |
| `AdapterFits.FirstBadEntry` | include/rediscoro/adapter/detail/adapt_map.hpp:21-107 | the error of a map is that of its first bad entry: its key, then a repeated key, then its value |
| `AdapterFits.KindOfBuilt` | include/rediscoro/resp3/builder.hpp:61-140 | the kind an error names is the kind of the node the message was built from |
| `Adapter.AdaptScalar` | include/rediscoro/adapter/detail/adapt_scalar.hpp:22-88 | value or error as the reference check says |
| `Adapter.Adapt` | include/rediscoro/adapter/adapt.hpp:30-54 | the error of the first failing check in traversal order, or the value represented |
| `Adapter.AdaptArray` | include/rediscoro/adapter/detail/adapt_array.hpp:20-44 | kind, then size, then elements in order |
| `Adapter.AdaptSequence` | include/rediscoro/adapter/detail/adapt_sequence.hpp:22-55 | arrays, sets and pushes, elements in order |
| `Adapter.AdaptMap` | include/rediscoro/adapter/detail/adapt_map.hpp:21-107 | entries in order |
| `Adapter.AdaptEntry` | include/rediscoro/adapter/detail/adapt_map.hpp:59-106 | key, then duplicate, then value, each with its own path |
| `AdapterPaths.ErrorPathsAreSound` | include/rediscoro/adapter/detail/adapt_map.hpp:59-106 | the path leads to the first part that fails; the error is the one raised there and true of that part (its kind, what was expected, its size or range); a duplicate key means two sound, equal keys, and the path names the second |
| `AdapterPaths.ValuesMirror` | include/rediscoro/adapter/detail/adapt_sequence.hpp:45-54 | on success nothing is truncated, dropped or merged |
| `Sinks.SlotFromMessage` | include/rediscoro/detail/response_builder.hpp:20-38 | a server error with the message's text exactly for error replies, else the represented value or the first failing check's error; never a client-side error |
| `Sinks.CountOk` | include/rediscoro/detail/pending_response.hpp:92-115 | the number of slots that hold a value |
| `Sinks.FirstError` | include/rediscoro/detail/pending_response.hpp:92-115 | the error of the first slot that holds one, or none if all hold values |
| `Sinks.Summary` | include/rediscoro/detail/pending_response.hpp:92-115 | both counts and the first error, for the request's own number |
| `Sinks.PendingResponse.Deliver` | include/rediscoro/detail/pending_response.hpp:59-71 | fills the next slot from the message; the last one completes and reports once |
| `Sinks.PendingResponse.DeliverError` | include/rediscoro/detail/pending_response.hpp:73-85 | fills the next slot with the error; the last one completes and reports once |
| `Sinks.PendingResponse.FailRest` | include/rediscoro/detail/response_sink.hpp:69-73 | terminates with every open slot failed and filled slots unchanged |
| `Sinks.PendingResponse.Summarize` | include/rediscoro/detail/pending_response.hpp:174-202 | one pass gives the number of values, the number of errors and the first error |
| `Sinks.PendingResponse.EmitTraceFinish` | include/rediscoro/detail/response_sink.hpp:122-151 | at most one event, and one exactly if tracing with a finish hook |
| `Sinks.PendingResponse.SetTraceContext` | include/rediscoro/detail/response_sink.hpp:78-85 | tracing is on if either hook is set |
| `Pipeline.PushKeeps` | include/rediscoro/impl/pipeline.ipp:11-28 | within the limits the invariant is kept, the line and the owed bytes grow at the end |
| `Pipeline.WriteKeeps` | include/rediscoro/impl/pipeline.ipp:46-62 | the bytes taken are the next ones owed and nobody changes place |
| `Pipeline.FrontKeeps` | include/rediscoro/impl/pipeline.ipp:64-84 | a delivery concerns the front of the line only; it leaves exactly when complete |
| `Pipeline.NextDeadlineIsEarliest` | include/rediscoro/impl/pipeline.ipp:105-115 | with sorted deadlines the two fronts give the minimum over all |
| `Pipeline.NextDeadlineExact` | include/rediscoro/impl/pipeline.ipp:105-115 | in one pipeline: the minimum if and only if every request is no earlier than one of the two fronts |
| `Pipeline.SortedIffNeverMisses` | include/rediscoro/detail/pipeline.hpp:94-96 | right for every pipeline left over from a line of requests if and only if the deadlines are sorted |
| `Pipeline.NextDeadlineMissesUnsorted` | include/rediscoro/impl/pipeline.ipp:105-115 | it does not for arbitrary push orders |
| `PipelineObject.Pipeline.Push` | include/rediscoro/impl/pipeline.ipp:11-28 | accepts exactly within both limits; refusal changes nothing |
| `PipelineObject.Pipeline.HasPendingWrite` | include/rediscoro/impl/pipeline.ipp:30-32 | exactly if a request is not fully written |
| `PipelineObject.Pipeline.HasPendingRead` | include/rediscoro/impl/pipeline.ipp:34-36 | exactly if a written request waits for replies |
| `PipelineObject.Pipeline.NextWriteBuffer` | include/rediscoro/impl/pipeline.ipp:38-44 | the offered bytes are the beginning of all bytes owed |
| `PipelineObject.Pipeline.OnWriteDone` | include/rediscoro/impl/pipeline.ipp:46-62 | credits the front and moves it when it is done |
| `PipelineObject.Pipeline.OnMessage` | include/rediscoro/impl/pipeline.ipp:64-73 | the front sink takes the message and leaves when complete |
| `PipelineObject.Pipeline.OnError` | include/rediscoro/impl/pipeline.ipp:75-84 | the front sink takes the error and leaves when complete |
| `PipelineObject.Pipeline.ClearAll` | include/rediscoro/impl/pipeline.ipp:86-103 | both loops end; every request is failed in order, unwritten ones first |
| `PipelineObject.Pipeline.NextDeadline` | include/rediscoro/impl/pipeline.ipp:105-115 | the earlier of the two fronts, the minimum if deadlines are sorted |
| `PipelineObject.Pipeline.HasExpired` | include/rediscoro/impl/pipeline.ipp:117-121 | exactly if there is a next deadline and it has passed |
| `Epochs.AcceptKeeps` | include/rediscoro/impl/pipeline.ipp:11-28 | accepting keeps the generation's books: consecutive slots, owed bytes, matched replies |
| `Epochs.SentKeeps` | include/rediscoro/impl/pipeline.ipp:46-62 | sent plus owed bytes stay equal to all accepted bytes |
| `Epochs.HeardKeeps` | include/rediscoro/impl/pipeline.ipp:64-73 | the n-th message fills the n-th slot in acceptance order |
| `Epochs.ClearSettles` | include/rediscoro/impl/pipeline.ipp:86-103 | clearing completes every request; slots already filled keep their messages, the rest hold the error |
| `Ledger.AbortBalanced` | include/rediscoro/impl/connection/io.ipp:165-186 | in every phase, failing the connection settles every request once and empties the line |
| `Ledger.AdmitKeeps` | include/rediscoro/impl/connection/core.ipp:382-397 | an accepted request keeps the ledger balanced |
| `Ledger.RefuseKeeps` | include/rediscoro/impl/connection/core.ipp:330-380 | a refused request is settled with client errors and reported once |
| `Ledger.RefusalSummary` | include/rediscoro/impl/connection/core.ipp:340-357 | the event of a rejection is what the failed sink itself would have reported |
| `ReadLoop.DoRead` | include/rediscoro/impl/connection/io.ipp:52-87 | parsing and delivering message by message has the effect of draining the parser and then delivering; with no error the parser stands where draining leaves it |
| `ReadLoop.ReadStepIsDeliver` | include/rediscoro/impl/connection/io.ipp:52-90 | that effect, then failing the connection on an error, is the machine's read step |
| `ReadLoop.ShakeRead` | include/rediscoro/impl/connection/connect.ipp:178-224 | the handshake's loop has the effect of draining the parser and delivering until the request is complete; it ends finished, with the error, or for lack of bytes |
| `ReadLoop.ShakeStepIsGreet` | include/rediscoro/impl/connection/connect.ipp:178-224 | that effect, with the attempt then going on, failing or judged by the replies, is the machine's handshake step |
| `WriteLoop.DoWrite` | include/rediscoro/impl/connection/io.ipp:109-133 | for all answers of the socket: the pipeline, the bytes that went out and how the loop ends are as `Flush` says |
| `WriteLoop.FlushConserves` | include/rediscoro/impl/connection/io.ipp:109-133 | what goes out is the beginning of what was owed, the rest stays owed, the line keeps its order, and the loop ends only on an error, without answers or with nothing to write |
| `WriteLoop.WriteLoopIsARun` | include/rediscoro/impl/connection/io.ipp:109-133 | that effect, then failing the connection on an error, is a run of the machine's write steps, with the bytes entered as sent |
| `Safety.ControlKeeps` | include/rediscoro/impl/connection/actor_loops.ipp:37-122 | every step keeps which attempts, operations and actors a phase admits |
| `Safety.ErrorsOnlyAfterOpen` | include/rediscoro/impl/connection/io.ipp:138-163 | no runtime completion reaches `handle_error` in INIT or CONNECTING |
| `Safety.HearAllShape` | include/rediscoro/impl/connection/io.ipp:12-90 | a read changes only the ledger, or fails the connection |
| `Safety.LedgerKeeps` | include/rediscoro/impl/connection/core.ipp:196-397 | every step keeps the ledger balanced and the pipeline free of user requests outside OPEN |
| `Safety.OfferKeeps` | include/rediscoro/impl/connection/io.ipp:92-136 | every step leaves the request offered to the write in flight at the front |
| `Safety.WriteCredit` | include/rediscoro/impl/connection/io.ipp:109-133 | a completed write is credited to the request whose bytes were offered and fits its remainder |
| `Safety.ConfiguredKeeps` | include/rediscoro/impl/connection/core.ipp:91-94 | no step changes the pipeline's configured limits |
| `Replies.HearingKeeps` | include/rediscoro/impl/connection/io.ipp:52-87 | every step keeps: each generation heard a prefix of its own stream, and all of it while open |
| `Replies.StreamIsRebuilt` | include/rediscoro/impl/connection/io.ipp:80-86 | the messages of a stream are what the builder makes of each tree |
| `Replies.StreamIsWhole` | include/rediscoro/impl/connection/io.ipp:28-53 | they do not depend on how the bytes were split, without a line at the limit |
| `Replies.OpensEmpty` | include/rediscoro/impl/connection/connect.ipp:178-317 | a connection becomes open only by its handshake, with nothing in the pipeline |
| `Handshakes.AttemptKeeps` | include/rediscoro/impl/connection/connect.ipp:19-317 | every step keeps: an attempt starts with a fresh parser, and its request holds exactly what this attempt's reads spell |
| `Handshakes.ReplyJudged` | include/rediscoro/impl/connection/connect.ipp:178-317 | a read during the handshake opens, goes on or ends the attempt by all the server has said in it |
| `Replies.DuesKeep` | include/rediscoro/impl/connection/core.ipp:382-389 | every step keeps deadlines sorted along the line |
| `Runs.RunIsSafe` | include/rediscoro/impl/connection/actor_loops.ipp:16-122 | all of these invariants hold along every run |
| `FirstReply.SomeRunGetsItsReply` | include/rediscoro/impl/connection/connect.ipp:151-317 | for every configuration with room: some run connects, opens, accepts a request, sends it, and settles it with the reply it read |
| `Runs.SettledExactlyOnce` | include/rediscoro/detail/response_sink.hpp:37-73 | every request ever enqueued is in one place; settled ones have exactly their replies; outside OPEN all are settled |
| `Runs.SettledForGood` | include/rediscoro/detail/response_sink.hpp:37-61 | nothing is delivered to a settled request |
| `Runs.AttemptsHearTheirOwn` | include/rediscoro/impl/connection/connect.ipp:28-176 | in every run an attempt begins with nothing parsed, unread or sent, sends the handshake in full before it reads, and hears only its own server |
| `Runs.OpensIffGreeted` | include/rediscoro/impl/connection/connect.ipp:178-317 | in every run a handshake read opens the connection if and only if the expected replies are in and none is an error; an error reply or a malformed one ends the attempt |
| `Runs.RefusalsTellWhy` | include/rediscoro/impl/connection/core.ipp:360-380 | the error of a refusal is true of the connection; FAILED is never entered before it has been open |
| `Runs.RepliesMatchGenerations` | include/rediscoro/impl/connection/io.ipp:12-90 | each slot accepted in a generation has exactly one holder; slots below k hold messages 1 to k of its stream, the others client-side errors or, while open, nothing yet; k is at most the slots accepted |
| `Runs.LineWaitsForNext` | include/rediscoro/impl/pipeline.ipp:64-73 | requests still waiting belong to the current generation and wait for exactly the next messages |
| `Runs.SentInOrder` | include/rediscoro/impl/pipeline.ipp:38-62 | the bytes sent are a prefix of the accepted wires |
| `Runs.LimitsHold` | include/rediscoro/impl/pipeline.ipp:16-27 | the byte count is exact, both configured limits hold, only the front is partly written |
| `Runs.WritesAreCredited` | include/rediscoro/impl/connection/io.ipp:109-133 | in every run a completed write is credited to the request whose bytes were offered and fits its remainder |
| `Runs.EarliestDeadline` | include/rediscoro/impl/pipeline.ipp:105-121 | in every run the deadline waited for is the minimum over all pending requests |
| `Runs.TracesBalance` | include/rediscoro/impl/connection/core.ipp:307-397 | for each hook that is set: one start per request, one finish per settled request, counts adding up to the expected replies; a hook that is not set is never called |
| `Causes.AcceptedIffRoom` | include/rediscoro/impl/connection/core.ipp:360-397 | a request enters the line, with its deadline, if and only if the connection is open and both limits leave room; otherwise all its slots hold the reason for its phase, `queue_full` when open |
| `Causes.ExpiresIffOverdue` | include/rediscoro/impl/connection/actor_loops.ipp:91-97 | the timeout fires if and only if some request in line is overdue |
| `Causes.FallsTellWhy` | include/rediscoro/impl/connection/io.ipp:138-186 | for each way an open connection falls: the phase left behind, and the code every request in line gets in its open slots |
| `Causes.ReadsTellWhy` | include/rediscoro/impl/connection/io.ipp:52-90 | a read ends the connection if and only if it has a message nobody awaits or a protocol error, and that is what the open slots get |
| `Lifecycle.PhasesFollowTheDiagram` | include/rediscoro/detail/connection_state.hpp:13-49 | in every run a phase changes only along the documented arrows and one more, and only by the steps that cause them |
| `Lifecycle.CallsTakeEffect` | include/rediscoro/impl/connection/core.ipp:196-299 | what `connect`, `close`, giving up and reconnecting do at once |
| `Shutdown.StuckForever` | include/rediscoro/impl/connection/core.ipp:263-299 | once closed without an actor, no run leaves CLOSING |
| `Shutdown.CloseBeforeConnectSticks` | include/rediscoro/impl/connection/core.ipp:291-296 | CLOSED cannot be reached by closing a connection that was never connected |
| `Shutdown.ShutdownStep` | include/rediscoro/impl/connection/actor_loops.ipp:37-122 | while stopping, no step opens the connection and every completion lowers a measure |
| `Shutdown.ShutdownNeverHangs` | include/rediscoro/impl/connection/actor_loops.ipp:16-35 | while stopping, some completion is always due |
| `Shutdown.CloseIsInevitable` | include/rediscoro/impl/connection/core.ipp:263-299 | after `close` with an actor, every run with five completions passes CLOSED, not open before |
| `Shutdown.CloseCompletesIff` | include/rediscoro/impl/connection/core.ipp:291-298 | CLOSED can be reached after `close` if and only if an actor runs or it is closed already |
| `Backoff.Sanitize` | include/rediscoro/impl/connection/core.ipp:17-45 | any policy becomes sane; each field is kept if it can be, else replaced by its default or nearest bound |
| `Backoff.DelayInBounds` | include/rediscoro/impl/connection/reconnect.ipp:15-51 | for every policy and jitter sample, delayed attempts wait between initial and maximal delay |
| `Backoff.BaseStep` | include/rediscoro/impl/connection/reconnect.ipp:20-27 | the first delay is the initial one, each next is the previous times the factor, up to the maximum |
| `Backoff.UnjitteredWait` | include/rediscoro/impl/connection/reconnect.ipp:46-50 | without jitter the wait is that delay to the nearest millisecond |
| `Backoff.JitterRange` | include/rediscoro/impl/connection/reconnect.ipp:29-44 | every sample gives a wait within the ratio of the delay on either side, kept within the bounds; the middle sample changes nothing |
| `Backoff.JitterReaches` | include/rediscoro/impl/connection/reconnect.ipp:29-44 | every such wait is given by some sample |
| `Backoff.UnjitteredGrows` | include/rediscoro/impl/connection/reconnect.ipp:20-27 | without jitter the delay never decreases |
| `Backoff.ReachesMaxIff` | include/rediscoro/impl/connection/reconnect.ipp:20-27 | it reaches the maximum and stays there if and only if the initial delay is positive or the maximum is 0 |

## Left out

- Node and link indices are unbounded; the source keeps them in 32 bits, so a tree of more than 2^32 nodes is not covered.
- Configured limits are taken to fit in 63 bits; the source casts them to signed 64-bit integers.
- Views into the read buffer are offsets; the dangling of string views when the buffer is reallocated is not modelled.
- The parser object holds its unread bytes as a sequence and its nodes hold their text; that buffer and views stand for these is proved on values (`Buffer.IsFifo`, `Views.ViewsSpellTexts`).
- Doubles: which texts parse as a double is a parameter (`isDouble`), and an adapted double keeps its text.
- AdaptEntry: keys that are doubles are compared by their text, so two spellings of one double are not seen as a duplicate key, because the value of a double is not modelled.
- Map-like targets with neither `contains` nor `find`, for which the source makes no duplicate check.
- Adapter error messages as text, user-defined `append_arg` conversions of numbers, and the single-token and initializer-list forms of `push`, which only repeat the argv form.
- The pipeline holds its sinks as values; that the caller shares ownership of them is not modelled. `PendingResponse` shows the same updates on an object.
- Ring queue: allocators, move assignment and exception paths.
- The connection is a step machine on values, apart from the loops of `ReadLoop` and `WriteLoop`, which take what the socket answers as given and in which nothing else happens while the socket works: wake-up events, timers, the backoff sleep and coroutine scheduling are only the freedom to take a step later.
- How many reconnects have failed and the wait between attempts are not part of the step machine; `Backoff` gives the wait for each number of failures.
- iocoro, DNS, TCP endpoints and socket options: an attempt may fail at any time before the handshake.
- The contents of the handshake request: it is any byte string that expects at least one reply.
- `connect` while FAILED or RECONNECTING, or before the actor has been reaped; a close between handshake completion and OPEN; an actor that throws during the initial connect.
- After an unsolicited message the machine shows the parser as if the whole read had been parsed; it is reset before it is used again.
- Connection events, logging, assertions as output, the destructor and the atomic state snapshot.
- The client wrapper, the visitor, examples and benchmarks.
