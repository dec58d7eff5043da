# The publish-to-viewer pipeline, modelled and proved in Dafny

A publisher sends RTMP over TCP. The server completes a handshake, reassembles the messages from whatever pieces
the socket delivers, rewrites audio and video messages as FLV tags, frames each tag once as an HTTP chunk, and queues
it to every viewer of the room. This project models that pipeline and proves what a viewer's client gets to see,
starting from the publisher's bytes.

`dafny verify dfyconfig.toml` checks everything.

## How it is built

Each stateful component comes twice: as a pure state machine, about which the theorems are proved, and as classes in
the form of the source (fields updated in place, loops, shared objects), whose methods are proved to take exactly the
steps of the state machine.

| files | what they model |
|---|---|
| `Bytes` | big-endian fields, modular arithmetic, byte sequences |
| `Buffer` | utils/Buffer: a growable array with read and write index, refining a byte queue |
| `FlvCodec`, `FlvManager` | FLV tags with their serialised headers; the header block, its printer and the source's own parser |
| `RtmpCodec` | message headers in their four formats (sections 5.3.1.1 and 5.3.1.2 of the RTMP Specification 1.0), the unsigned remainder, the clock |
| `Dechunker`, `DechunkerRuns`, `Chunker` | the resumable de-chunker, its one-shot partner `Reference`, runs under every fragmentation, and the chunker that it inverts |
| `Timeline` | clock and PreviousTagSize chain from messages to tags |
| `Publisher`, `PublisherRuns` | ParseData as a whole: the three leading messages, then the de-chunker; whole runs |
| `Handshake`, `HandshakeClient`, `HandshakeReads` | ParseShakeHand and ShakeHand: states, replies, cuts, the receive window (section 5.2 of the RTMP Specification 1.0); the client at the other end; and the handshake as reads drive it, one call behind each |
| `RtmpManager`, `RtmpServerConnection` | the classes that refine `Publisher` and `Handshake`, down to the reads from the socket |
| `Format`, `HttpChunks` | hexadecimal sizes, room names, chunked coding and a client's decoder (section 4.1 of RFC 7230) |
| `FanOut`, `Viewers` | publishing, joining and leaving: state machine, and the classes with the shared last tag and the header cache |
| `SendPipeline`, `TcpConnection`, `EventLoop` | from Send to the wire: producers, the pending queue, batches, partial kernel writes, shutdown |
| `Server` | parser and room as one live stream |
| `Broadcast` | the live stream and the connections of its viewers in one state machine: from the publisher's bytes to every viewer's wire |
| `Sender`, `Player` | the two ends outside the server, in literals of the standards and with nothing taken from the server: an encoder that writes packets byte by byte (section 5.3.1 of the RTMP Specification 1.0), and a player that reads an FLV file field by field (sections E.2 to E.4.1 of the FLV specification 10.1) |
| `EndToEnd` | what the encoder wrote is what the players show |

## Main results

- **De-chunking is independent of the cuts** (`DechunkerRuns.DeliveredIsPrefix`, `CutsDoNotMatter`). For every byte
  stream, well-formed or not, and every way of cutting it into reads and calls, the delivered messages are a prefix of
  what a one-shot decoder finds in the bytes received, and all of it once a call changes nothing; by then the parser and
  its unread bytes are the same for every cutting. `Chunker.RoundTrip` closes the circle with a sender: exactly its messages
  come out, but for those of size 0, which leave no trace.
- **When one call is enough** (`DechunkerRuns.LoopDrainsIff`, `ReadDrainsIff`, `PublisherRuns.ReadDrainsIff`,
  `LeadingDrainsIff`). `ParseData` leaves its loop behind every full chunk that is not the last of its message, and behind every message of size 0, and is
  called only behind a read. A call leaves nothing waiting if and only if no round ends so with the next header there. For a
  printed stream that is: if and only if every message fits one chunk and none but the last is empty
  (`Chunker.PausesIffSplit`). `PauseLeavesMessage` is an input on which a complete message waits for the next read.
- **The remainder wraps exactly on streams that are not contiguous** (`ExactIffContiguous`): a drained run takes no header
  that announces less than was already received if and only if the stream has none. On contiguous streams the chunk
  invariant holds in every run (`RunKeepsUnwrapped`); on others the remainder does wrap (`SmallerHeaderWraps`).
- **The receive window never closes** (`RtmpServerConnection.OnReadableBody`): a read of 0 bytes is the end of the stream
  and nothing else. During the handshake a read leaves room if and only if the full window does not start with a longer
  message (`OnReadableShakeHand`, `Handshake.CallLeavesRoom`), which a client whose messages fit the window never causes
  (`HandshakeClients.HandshakeLeavesRoom`).
- **From an encoder's packets to the tags on the screen** (`EndToEnd.EveryPlayerShows`, `FromHandshakeToScreen`). Whatever
  the cuts, joins, leaves, losses, loops and partial writes: every player shows the beginning of one list of tags, and all of
  it once nothing is waiting. The list is the three leading packets and then, from the last tag before the viewer's join on,
  exactly the packets of types 8 and 9 that are not empty, in order, with their types, sizes and data, each announcing the size
  of the one before, at the sums of the publisher's times modulo 2^24. Encoder and player have the bytes of the standards as
  literals, so that every table and constant between them is held to account. Other types than 18, 8 or 9, and 8 or 9 are
  refused as leading packets, with a stated loss (`Senders.TakenIff`).
- **Who is there** (`FanOut.MembersAreThere`, `Server.MembersAreThere`, `Broadcast.MembersAreThere`): in every run, a viewer
  that joined and has not left since is in the map and is owed all tags from the last one before its join on; one that left and
  has not joined since is not; nobody else's coming or going matters.
- **The handshake as a conversation** (`HandshakeReads.PiecesAnswered`, `PoliteSucceeds`, `GoesOnIff`, `PoliteStalls`).
  As long as the publisher is not refused, no send fails and no read ends inside a C3 packet that is awaited: when exactly the
  first k pieces of a client are in, exactly the replies that belong to them have been sent. A client that sends each piece only
  when what comes before it is answered never gets stuck, unless one read brings the end of releaseStream and everything up to
  createStream; and when it has sent everything its handshake is complete.
- **The handshake** moves forward only, sends a fixed script of replies, asks for the authentication exactly once and never
  fails. ShakeHand is called once behind each read and leaves at releaseStream with whatever is behind it unread. So a
  client's handshake is complete behind a read if and only if all of it was received and releaseStream was complete before
  that read (`HandshakeReads.HandshakeSucceeds`); then the stream behind it is unread, and all eight replies are sent if and
  only if it was not refused and no send failed. A client that sends the rest of its messages in the read that completes
  releaseStream is not answered (`HandshakePauses`, `RestAtOnceStalls`); any further read goes on (`OneMoreRead`). The 0xc3
  branch drops up to 26 bytes, however many there are: the reads keep a client that uses it in line if and only if none of
  them ends inside its packet when that is awaited (`ReadsInLineIff`), and `ShortC3Derails` follows a handshake that such a
  read derails.
- **A refused publisher is served, but not answered** (`RefusedIsServedIff`, `SentIs`, `RefusedButServed`): Shutdown does not
  end the reads, so that OnBodyData takes the stream of a refused publisher as of any other (`RefusalStopsNoParsing`); but
  Send drops what comes behind Shutdown, so that for any bytes the replies sent are the first six, and the results of
  createStream and publish are not among them. A send that fails for good ends the replies in the same way.
- **The leading messages are taken at every cut if and only if they are within 1000 bytes**
  (`PublisherRuns.TakenAtEveryCutIff`). Where the first call with 1000 bytes finds longer ones, `LeadAt` says what it does.
- **Every viewer gets a playable FLV stream** (`FanOut.EveryViewerSeesFlv`, `Server.EveryViewerPlays`): in any run of
  publications, joins, closes and leaves, what a viewer was sent decodes to the header block and a gap-free,
  duplicate-free segment of tags, each announcing the size of the one before, although joins rewrite the shared last tag.
- **Nothing is lost, doubled or reordered on the way to the wire** (`SendPipeline.WireIsPrefix`), for any interleaving and
  any partial writes. A send from the loop's own thread keeps the order if and only if nothing is queued
  (`SendHereKeepsOrderIff`, `OutOfTurnOvertakes`); for viewers nothing ever is (`Broadcast.ViewersWatch`).
- **Who stays connected** (`SendPipeline.SendGivesUpIff`, `StaysConnected`, `GoneForGood`): a send gives a connection up if and
  only if the kernel takes nothing of a direct send and errno is EPIPE or ECONNRESET; in every run without these, a connection
  that nobody ends stays CONNECTED, and wire, send buffer and queue are all that was submitted.
- **From the publisher's bytes to the wire** (`Broadcast.ViewersWatch`, `FromTheFirstByte`): what is on the wire to a viewer, behind the response
  header, decodes to the beginning of an FLV file whose tags are the three leading messages and a segment of the stream's
  audio and video, and to all of it once nothing is waiting; the published tags are a prefix of the stream's, and all of them
  once a call would change nothing. The sends of one ParseData are single steps, and the check and the push of each are two;
  between any two of them any number of loops, each with its own queue
  and batch, and the kernel go on. That what a room hands to a viewer is what the viewer's connection
  submits, and that a viewer is open exactly while its connection is CONNECTED, are invariants of the run.

## Where code and comments disagree

- `ParseFirstHeader` appends as many bytes as a leading message announces without checking that they arrived
  (utils/codec/RtmpManager.cpp:183 and 213). What lies behind the received bytes is a parameter of the model,
  `Locals.beyond`. `PublisherRuns.ReadsPastTheEnd` gives an input on which such bytes become part of a message,
  `InBoundsAtEveryCutIff` the exact condition: no cut from byte 1000 on falls into the body of a leading message.
  `RunIsDechunkers` shows that it never happens when the leading messages are within 1000 bytes.
- A comment in network/TcpConnection.cpp:96-99 says that the write side is closed once the buffered data is sent. It is
  not: whether it is ever closed is decided when `Shutdown` is called, by whether the last event was a writable one
  (`SendPipeline.ClosesIffNotWriting`). `SentButNotClosed` is a run in which all data is sent and the write side stays open;
  in `ClosedButNotSent` it is closed in front of buffered bytes.
- `IsWriting` reads the last returned event and not the registered mask (network/Channel.cpp:147-150). The model keeps
  both bits, and the results hold for any values of the first. So a send that leaves bytes buffered behind a writable event does
  not register for the next one: it relies on a registration that emptying the buffer may have ended
  (`SendPipeline.BufferedIsWatchedIff`). `BufferedUnwatched` is a run in which a byte is left so.
- The time of a message of size 0 does not count: the message leaves no trace, not even on the clock, although the times of all
  messages behind it are relative to it (`Senders.Told`, `TagsAreTold`).
- With an empty target the two ends disagree (`Format.RoomsAgree`): GetUrl names the room of the rest of the request line, with
  the space in front, and only a publisher whose target is just that opens it (`EmptyTargetRoom`).
- A header block over 4096 bytes is sent as an empty chunk, which ends the client's stream
  (`FanOut.ClientSeesBlockIffFits`); leading messages within 1000 bytes cannot cause this (`Publisher.LeadingTaken`).

## Model

| member | source | states |
|---|---|---|
| `Buffers.Buffer.constructor` | utils/Buffer.cpp:6-18 | an empty queue with the asked capacity behind the 8 reserved bytes |
| `Buffers.Buffer.AddWriteIndex` | utils/Buffer.cpp:34-38 | the bytes stored behind the write index join the end of the queue; `sum_write_` counts them |
| `Buffers.Buffer.AddReadIndex` | utils/Buffer.cpp:40-52 | drops that many bytes from the front, or all when fewer are left, and counts what it dropped |
| `Buffers.Buffer.AdjustBuffer` | utils/Buffer.cpp:64-72 | compacting keeps the queue, byte for byte, although source and target may overlap |
| `Buffers.Buffer.Reset` | utils/Buffer.cpp:74-80 | empties the queue and the counters |
| `Buffers.Buffer.AppendData` | utils/Buffer.cpp:92-104 | the data joins the end of the queue, whatever compaction and growth it takes; the capacity grows only when the data does not fit |
| `Buffers.Buffer.ReadFromSockfd` | utils/Buffer.cpp:111-121 | one read takes at most the free space; it returns 0 at the end of the stream and when no space is left |
| `Buffers.Buffer.ReadAllAsString` | utils/Buffer.cpp:130-135 | hands out the whole queue and empties it |
| `Buffers.Buffer.ReSize` | utils/Buffer.cpp:137-140 | growing keeps the queue |
| `Buffers.Buffer.SwapBuffer` | utils/Buffer.cpp:142-161 | exchanges two queues with their capacities and counters |
| `Buffers.Buffer.DropAllData` | utils/Buffer.cpp:170-173 | empties the queue; everything written counts as read |
| `FlvCodec.FlvTag.SetPreviousTagSize` | utils/codec/FlvCodec.cpp:132-142 | stores the size big-endian over whatever was there, and changes nothing else of the tag |
| `FlvCodec.FlvTag.GetCurrentTagSize` | utils/codec/FlvCodec.cpp:74-77 | 11 plus the announced data size |
| `FlvCodec.FlvTag.GetDataSize` | utils/codec/FlvCodec.cpp:51-60 | the 24-bit big-endian size field |
| `FlvCodec.FlvTag.SetTimeStamp` | utils/codec/FlvCodec.cpp:111-114 | replaces exactly the three time bytes |
| `FlvCodec.FlvTag.SetDataSize` | utils/codec/FlvCodec.cpp:106-109 | replaces exactly the three size bytes |
| `FlvCodec.FlvTag.DecodeTagHander` | utils/codec/FlvCodec.cpp:94-99 | copies 15 bytes over the header, or nothing when fewer are there |
| `FlvCodec.WithPreviousFields` | utils/codec/FlvCodec.cpp:132-142 | after rewriting PreviousTagSize it reads back big-endian, and type, size, time and body are untouched |
| `FlvCodec.HeaderOfFields` | utils/codec/RtmpCodec.cpp:20-28 | a header built from a message reads back field by field; time extension and stream id are 0 |
| `RtmpCodec.ParseHeaderExtends` | utils/codec/RtmpCodec.cpp:55-140 | a complete message header reads the same whatever bytes follow it |
| `RtmpCodec.DecodeNeverFails` | utils/codec/RtmpCodec.cpp:55-95 | neither error branch of DecodeHeader is ever taken: the two format bits have no other value |
| `RtmpCodec.RemainAfter` | utils/codec/RtmpCodec.cpp:195-203 | the 32-bit remainder counts down exactly while no more than it is taken, even after it has wrapped |
| `RtmpCodec.RtmpPack.DecodeHeader` | utils/codec/RtmpCodec.cpp:55-95 | length and fields of all four header formats; an incomplete header leaves the decisive fields alone |
| `RtmpCodec.RtmpPack.DecodeFmt1` | utils/codec/RtmpCodec.cpp:116-129 | timestamp, size and type from seven bytes, or nothing; the types 2, 3, 4, 8, 9 and 18 are kept, any other becomes 0 |
| `RtmpCodec.RtmpPack.DecodeFmt2` | utils/codec/RtmpCodec.cpp:131-140 | the timestamp from three bytes, or nothing |
| `RtmpCodec.Codec.AddTimeStamp` | utils/codec/RtmpCodec.cpp:36-41 | adds the 24-bit field to the clock modulo 2^32 |
| `RtmpCodec.Codec.EncodeHeaderToFlvTag` | utils/codec/RtmpCodec.cpp:20-28 | type and size of the message, and the low 24 bits of the new clock big-endian; PreviousTagSize and the last four bytes stay |
| `RtmpCodec.Codec.EncodeHeaderAndSwapBuffer` | utils/codec/RtmpCodec.cpp:43-53 | the tag gets header and body of the message, the pack gets the tag's old body |
| `Dechunker.PartialChunkCommutes` | utils/codec/RtmpManager.cpp:258-309 | part of a chunk only shrinks the need: what the stream still decodes to does not change |
| `Dechunker.WholeChunkCommutes` | utils/codec/RtmpManager.cpp:258-309 | a whole chunk moves at most one message from the future into the result |
| `Dechunker.BodyCommutes` | utils/codec/RtmpManager.cpp:242-309 | both cases: the body step commutes with whatever bytes are still to come, and leaves nothing complete waiting |
| `Dechunker.HeaderCommutes` | utils/codec/RtmpManager.cpp:40-52 | the header step commutes with the bytes behind it |
| `Dechunker.LoopCommutes` | utils/codec/RtmpManager.cpp:38-91 | the loop commutes with every continuation of the buffer: messages delivered, followed by the future of the rest, are the future of the whole |
| `Dechunker.CallCommutes` | utils/codec/RtmpManager.cpp:23-95 | the same for one call, the empty buffer included |
| `Dechunker.DrainedHasNoFuture` | utils/codec/RtmpManager.cpp:79-86 | when a call changes nothing, nothing is left to decode |
| `Dechunker.CallMakesProgress` | utils/codec/RtmpManager.cpp:38-91 | a call that changes anything brings the standstill closer |
| `DechunkerRuns.RunRefinesReference` | utils/codec/RtmpManager.cpp:23-95 | for every run of arrivals and calls and every continuation: delivered messages followed by the future of the unread bytes are the one-shot decoding of all bytes |
| `DechunkerRuns.DeliveredIsPrefix` | utils/codec/RtmpManager.cpp:23-95 | at every moment the delivered messages are a prefix of the one-shot decoding of the bytes received; equal to it once drained |
| `DechunkerRuns.CutsDoNotMatter` | utils/codec/RtmpManager.cpp:23-95 | two ways of cutting the same bytes end equal once drained: messages, unread bytes, and everything the parser holds |
| `DechunkerRuns.DrainDeliversAll` | utils/codec/RtmpManager.cpp:23-95 | repeating the call ends in a standstill, with everything delivered |
| `DechunkerRuns.BodyKeepsUnwrapped` | utils/codec/RtmpManager.cpp:242-309 | the chunk invariant: counter below 4096, remainder plus counter above 4096 inside a chunk, boundaries on multiples of 4096; completed messages have their announced size |
| `DechunkerRuns.RunSettles` | utils/codec/RtmpManager.cpp:23-95 | for every run and every continuation: taking everything at once from the start is taking it from where the run stands, behind what it delivered |
| `DechunkerRuns.HeaderKeepsRemainder` | utils/codec/RtmpCodec.cpp:195-203 | at one header: the unsigned remainder is exact, and has not wrapped, if and only if the header announces at least what was received |
| `DechunkerRuns.RunSplitsContiguity` | utils/codec/RtmpCodec.cpp:195-203 | for every run and every continuation: the stream is contiguous if and only if the remainder was exact behind every header so far and the rest is contiguous |
| `DechunkerRuns.ExactIffContiguous` | utils/codec/RtmpCodec.cpp:195-203 | in a drained run the remainder never wrapped if and only if the received bytes are contiguous |
| `DechunkerRuns.LoopDrainsIff` | utils/codec/RtmpManager.cpp:79-86 | a call leaves nothing that another call would take if and only if no round of it completes a chunk but no message with the next header there |
| `DechunkerRuns.ReadDrainsIff` | network/TcpConnection.cpp:51-74 | the same for the call behind a read, at the end of any run; if it does not pause everything received is delivered |
| `DechunkerRuns.PauseLeavesMessage` | utils/codec/RtmpManager.cpp:79-86 | a concrete input: the last byte of a message of 4097 is there, and the call delivers nothing |
| `DechunkerRuns.SmallerHeaderWraps` | utils/codec/RtmpCodec.cpp:195-203 | a concrete stream on which the remainder wraps to 4294963205 |
| `DechunkerRuns.LoopKeepsUnwrapped` | utils/codec/RtmpManager.cpp:38-91 | on a contiguous stream every call keeps the chunk invariant and delivers exactly sized messages |
| `DechunkerRuns.RunKeepsUnwrapped` | utils/codec/RtmpManager.cpp:23-95 | the same for every run, however the stream is cut |
| `DechunkerRuns.CallLeavesRoom` | utils/codec/RtmpManager.cpp:38-91 | a call on at most 4096 bytes leaves fewer than 4096 |
| `DechunkerRuns.CallConservesBytes` | utils/codec/RtmpManager.cpp:38-91 | bytes taken from the buffer are header bytes, completed bodies and the body being assembled |
| `DechunkerRuns.RunConservesBytes` | utils/codec/RtmpManager.cpp:23-95 | over every run: every byte received is a header byte, a delivered body byte, a byte of the partial body, or unread |
| `Chunker.HeaderRoundTrip` | utils/codec/RtmpCodec.cpp:55-140 | each of the four printed header formats decodes to the message header, with inheritance |
| `Chunker.FullHeader` | utils/codec/RtmpCodec.cpp:55-140 | a full header decodes the same whatever the pack held before |
| `Chunker.BodyRoundTrip` | utils/codec/RtmpManager.cpp:242-309 | a body printed in 4096-byte chunks behind one-byte headers is reassembled |
| `Chunker.ReferenceInvertsPrint` | utils/codec/RtmpManager.cpp:38-91 | the one-shot decoder inverts the chunker, up to empty messages, and continues behind it |
| `Chunker.PausesIffSplit` | utils/codec/RtmpManager.cpp:79-86 | one call on a printed stream takes all of it if and only if every message fits one chunk and none but the last is empty |
| `Chunker.RoundTrip` | utils/codec/RtmpManager.cpp:23-95 | any messages, empty ones included, printed with any allowed formats, cut anywhere, parsed at any moments: a prefix at all times, exactly the messages that are not empty once drained |
| `Timeline.TagsAppend` | utils/codec/RtmpManager.cpp:54-64 | delivering in two portions is delivering at once: same tags, same clock, same last size |
| `Timeline.TagsCarryMedia` | utils/codec/RtmpManager.cpp:311-330 | exactly the audio and video messages become tags, in order, with type, size and body |
| `Timeline.TagsSized` | utils/codec/RtmpManager.cpp:54-64 | sized messages make sized tags |
| `Timeline.TagsAreChained` | utils/codec/RtmpManager.cpp:311-330 | every PreviousTagSize is 11 plus the DataSize of the tag before |
| `Timeline.ClockIsSum` | utils/codec/RtmpCodec.cpp:36-41 | the clock is the sum of all time fields modulo 2^32 |
| `Timeline.TimeOfTag` | utils/codec/RtmpCodec.cpp:20-47 | a tag's time is the sum of the times of all completed messages up to its own, media or not, once per message, modulo 2^24; time extension and stream id are 0 |
| `Timeline.TimesDoNotGoBack` | utils/codec/RtmpCodec.cpp:20-47 | while that sum is below 2^24 the times never decrease |
| `Publisher.LoopIsDechunker` | utils/codec/RtmpManager.cpp:38-94 | behind the leading messages the loop is the de-chunker: it returns the sum of the completed sizes and hands over their tags |
| `Publisher.CallKeepsValid` | utils/codec/RtmpManager.cpp:23-95 | every call keeps the state valid, whatever the bytes |
| `Publisher.LeadingRoundKeeps` | utils/codec/RtmpManager.cpp:123-162 | the leading round touches clock and header tags only, and ends the leading state exactly when it succeeds |
| `Publisher.PublisherLeavesRoom` | utils/codec/RtmpManager.cpp:23-95 | every call on at most 4096 bytes, the leading one included, leaves room for the next read |
| `Publisher.LeadingTaken` | utils/codec/RtmpManager.cpp:123-225 | three leading messages are taken from any buffer that holds them and 1000 bytes, exactly, without reading past it; within 1000 bytes the header block they make fits 4096 bytes |
| `Publisher.CutMessage` | utils/codec/RtmpManager.cpp:164-189 | a leading message that is there in part: the source reads past the received bytes, and reports success, if and only if the header is complete; otherwise it consumes nothing |
| `Publisher.ParseOneInvertsPrint` | utils/codec/RtmpManager.cpp:164-225 | one leading message is parsed back whatever follows it |
| `Publisher.EncodedFields` | utils/codec/RtmpCodec.cpp:20-53 | a header tag carries its message and the clock |
| `Publisher.EncodedIsTagOf` | utils/codec/RtmpManager.cpp:54-64 | encoding into a new tag and setting PreviousTagSize gives the tag of the track |
| `Publisher.HeadersFromLeading` | utils/codec/RtmpManager.cpp:136-158 | header tags from sized messages are sized and of the computed block size; the clock counts all three |
| `PublisherRuns.PlainRun` | utils/codec/RtmpManager.cpp:23-95 | behind the leading messages every run of the publisher is a run of the de-chunker, `parsed_length_` included |
| `PublisherRuns.LeadingCall` | utils/codec/RtmpManager.cpp:123-162 | the call that finds the leading messages, as a call of the de-chunker on what is behind them |
| `PublisherRuns.ReadDrainsIff` | utils/codec/RtmpManager.cpp:79-86 | behind the leading messages: the call behind a read leaves nothing waiting if and only if it does not pause |
| `PublisherRuns.LeadingDrainsIff` | utils/codec/RtmpManager.cpp:70-86 | the read that first brings 1000 bytes: its call leaves nothing waiting if and only if it does not pause in the stream behind the leading messages |
| `PublisherRuns.RunIsDechunkers` | utils/codec/RtmpManager.cpp:23-162 | nothing happens before a call finds 1000 bytes; from then on the run is the de-chunker's on the bytes behind the leading messages; no call reads past the received bytes |
| `PublisherRuns.PublishedIsPrefix` | utils/codec/RtmpManager.cpp:23-162 | however the stream is cut, the tags handed over are a prefix of the stream's tags, and all of them once drained; the header tags are those of the leading messages |
| `PublisherRuns.LeadAt` | utils/codec/RtmpManager.cpp:123-225 | what a call finds at any cut from byte 1000 on, for leading messages of any length: it takes exactly them, reads past the received bytes exactly when they end inside a body, or reports an error that loses what was understood; what is left is stated |
| `PublisherRuns.TakenAtEveryCutIff` | utils/codec/RtmpManager.cpp:123-225 | the leading messages are taken within the received bytes at every cut if and only if they are within 1000 bytes |
| `PublisherRuns.InBoundsAtEveryCutIff` | utils/codec/RtmpManager.cpp:183-213 | no cut makes a call read past the received bytes if and only if no cut from byte 1000 on falls into the body of a leading message |
| `PublisherRuns.ReadsPastTheEnd` | utils/codec/RtmpManager.cpp:183 | 1000 concrete bytes on which 1012 bytes from behind them become part of the script message |
| `PublisherRuns.TimeOfPublished` | utils/codec/RtmpCodec.cpp:20-47 | in every run the tag of a media message has as its time the sum of the three leading times and all times up to its own message, modulo 2^24 |
| `PublisherRuns.CutsDoNotMatter` | utils/codec/RtmpManager.cpp:23-162 | two ways of cutting the same stream hand over the same tags and hold the same header tags once drained |
| `PublisherRuns.PrintedStream` | utils/codec/RtmpManager.cpp:23-162 | on a printed stream the tags are one for each audio or video message printed that is not empty, in order, with type, size and body |
| `PublisherRuns.PublishedIsSound` | utils/codec/RtmpManager.cpp:93-94 | every tag has its announced size, the tags are chained from 0 on, and `parsed_length_` is the leading bytes plus the sizes of all completed messages |
| `PublisherRuns.LedCarries` | utils/codec/RtmpManager.cpp:136-158 | the header tags carry the leading messages |
| `PublisherRuns.LedClock` | utils/codec/RtmpManager.cpp:143-158 | the clock counts the leading messages too |
| `PublisherRuns.LedTimes` | utils/codec/RtmpManager.cpp:143-158 | the header tags' times do not decrease and end at the clock |
| `Handshake.LoopFollowsScript` | network/protocol/RtmpServerConnection.cpp:21-75 | one call: the state only moves forward, replies continue the fixed script exactly, authentication is asked for exactly when releaseStream is passed, and failure is never reported although the step has a branch for it |
| `Handshake.LoopAdvances` | network/protocol/RtmpServerConnection.cpp:21-75 | a loop that follows the steps ends with the result of the whole |
| `Handshake.StepExtends` | utils/codec/RtmpManager.cpp:332-464 | a clean step with its data complete (a size in the header or the same one in both packs, no part of the C3 packet) consumes the same whatever follows |
| `Handshake.C3IndependentIff26` | utils/codec/RtmpManager.cpp:408-418 | the 0xc3 branch consumes independently of the cut if and only if 26 bytes are there |
| `Handshake.NotEnoughChangesNothing` | utils/codec/RtmpManager.cpp:455-458 | a call that ends for lack of data repeats itself on the same state and bytes |
| `Handshake.CallKeepsDestination` | network/protocol/RtmpServerConnection.cpp:21-75 | a call whose steps are all clean does not change where the whole byte stream leads |
| `Handshake.AfterOnScript` | network/protocol/RtmpServerConnection.cpp:120-175 | over runs: replies handed to Send are the script of the state reached; authentication asked for once, never early |
| `Handshake.RunKeepsDestination` | network/protocol/RtmpServerConnection.cpp:120-175 | every run of clean calls is on its way to where the whole stream leads |
| `Handshake.CutsDoNotMatter` | network/protocol/RtmpServerConnection.cpp:120-175 | two drained handshakes over the same bytes, cut differently, end equal in state, rest, replies handed to Send and authentication, if no call meets a part of the C3 packet and headers without a size find the same size in the pack |
| `HandshakeClients.MessageStep` | utils/codec/RtmpManager.cpp:364-445 | a message state takes exactly one printed message, whatever the pack held, and never mistakes it for the 0xc3 packet |
| `HandshakeClients.CompleteHandshake` | utils/codec/RtmpManager.cpp:332-464 | the bytes of a complete handshake lead to success and leave exactly what follows them |
| `HandshakeClients.FullScript` | network/protocol/RtmpServerConnection.cpp:26-62 | the eight replies of a successful handshake, in order |
| `HandshakeClients.PartOfMessageWaits` | utils/codec/RtmpManager.cpp:466-487 | of a message that is there in part, nothing is taken |
| `HandshakeClients.StepInLine` | utils/codec/RtmpManager.cpp:332-464 | a step on the first part of a client's bytes takes the whole next message or waits, unless it meets 1 to 25 bytes of the C3 packet |
| `HandshakeClients.CallInLine` | network/protocol/RtmpServerConnection.cpp:21-75 | a call keeps state and unread bytes in line with the client's bytes if and only if it does not meet 1 to 25 bytes of the C3 packet |
| `HandshakeClients.InLineIff` | network/protocol/RtmpServerConnection.cpp:120-175 | a whole run stays in line with the client's bytes if and only if no call meets 1 to 25 bytes where the C3 packet is awaited |
| `HandshakeClients.DrainedSucceeds` | network/protocol/RtmpServerConnection.cpp:120-175 | for any calls: if nothing more can be done with the bytes of a complete handshake, it has succeeded, all replies were handed to Send, authentication was asked for once, and the stream is unread |
| `HandshakeReads.ReadRunIsRun` | network/TcpConnection.cpp:51-74 | a handshake driven by reads is a run of arrivals and calls |
| `HandshakeReads.CallReaches` | network/protocol/RtmpServerConnection.cpp:21-75 | a call takes every whole message of the client, but leaves at releaseStream; it meets the C3 packet in part exactly when 1 to 25 bytes of it are there behind releaseStream |
| `HandshakeReads.ReadsInLineIff` | network/TcpConnection.cpp:51-74 | reads keep the client's bytes in line if and only if none behind releaseStream ends inside the C3 packet; the state then depends on no more than how many bytes there are and were before the last read |
| `HandshakeReads.HandshakeSucceeds` | network/protocol/RtmpServerConnection.cpp:120-175 | behind every read: OnBodyData takes over if and only if the whole handshake was received, and releaseStream before the last read; then authentication was asked for once, exactly the stream is unread, and all eight replies are sent if and only if it was not refused and no send failed |
| `HandshakeReads.HandshakePauses` | network/protocol/RtmpServerConnection.cpp:45-48 | the read that completes releaseStream leaves everything behind it unread and unanswered; six replies are sent if no send failed |
| `HandshakeReads.OneMoreRead` | network/protocol/RtmpServerConnection.cpp:120-175 | when all of it was received, any further read completes it |
| `HandshakeReads.RestAtOnceStalls` | network/protocol/RtmpServerConnection.cpp:45-48 | for every client, three reads that bring its whole handshake and leave it in FCPublish with six replies sent, the createStream result not among them |
| `HandshakeReads.PiecesAnswered` | network/protocol/RtmpServerConnection.cpp:23-62 | when exactly the first k pieces of any client are in, exactly these replies were sent: S01 behind C0 and C1, S2 behind C2, four behind connect, one behind createStream, one behind publish; except that the read that brings releaseStream is answered no further |
| `HandshakeReads.PoliteSucceeds` | network/protocol/RtmpServerConnection.cpp:120-175 | a client that sends each piece only when what comes before it is answered, and gets to send them all, has completed its handshake in every run of reads |
| `HandshakeReads.GoesOnIff` | network/protocol/RtmpServerConnection.cpp:120-175 | it gets to send the next piece if and only if that is not publish behind a read that brought releaseStream and everything up to createStream at once |
| `HandshakeReads.PoliteStalls` | network/protocol/RtmpServerConnection.cpp:45-48 | for every client, such a run: releaseStream, FCPublish and createStream come in one read, and the answer to createStream does not come |
| `HandshakeReads.ShutIfRefused` | network/protocol/RtmpServerConnection.cpp:125-137 | Shutdown is called if and only if the authentication failed in the read that completed releaseStream, or a send failed for good |
| `HandshakeReads.RefusedIsServedIff` | network/protocol/RtmpServerConnection.cpp:125-160 | the body of a publisher behind Shutdown is taken if and only if its handshake is complete, as any other's; a refused one is sent six replies |
| `HandshakeReads.SentIs` | network/TcpConnection.cpp:148-194 | for any bytes: the replies that pass Send are all that belong to the state reached; once a refusal called Shutdown the first six; and a proper part of them once a send failed for good |
| `HandshakeReads.RefusalStopsNoParsing` | network/protocol/RtmpServerConnection.cpp:120-175 | for any bytes: neither the answers of the authentication nor failing sends change what is parsed, what is asked and who takes the body |
| `HandshakeReads.RefusedButServed` | network/protocol/RtmpServerConnection.cpp:125-137 | for every client, two reads after which Shutdown was called, six replies are sent and OnBodyData takes the stream |
| `HandshakeReads.ShortC3Derails` | utils/codec/RtmpManager.cpp:408-418 | from the first byte on, for every client with zeros in its C3 packet: a read that brings one byte of it makes the rest pass for the publish message, and 13 of its bytes and the publish message reach the body parser |
| `HandshakeClients.ClientFitsWindow` | utils/codec/RtmpManager.cpp:466-487 | a client whose messages fit the window never fills it with a part of a longer message |
| `HandshakeClients.HandshakeLeavesRoom` | network/TcpConnection.cpp:51-74 | in every run of such a client, every call leaves room for the next read |
| `Handshake.FullWindowStuckIff` | utils/codec/RtmpManager.cpp:466-487 | on a full 4096-byte window a step lacks data if and only if its message is longer than the window |
| `Handshake.CallLeavesRoom` | network/TcpConnection.cpp:51-74 | a handshake call leaves room for the next read if and only if the full window does not start with a longer message |
| `Handshake.StepNeverFails` | utils/codec/RtmpManager.cpp:447-463 | the branch that sets SHAKE_FAILED is dead: a step goes on to the next state, or lacks data and changes nothing |
| `RtmpManagers.ParseHeaderOf` | utils/codec/RtmpManager.cpp:227-240 | decodes a header without moving the read index |
| `RtmpManagers.ParsePackHeader` | utils/codec/RtmpManager.cpp:227-240 | decodes the header at the read index into the pack, without moving the read index, and passes the codec's error on |
| `RtmpManagers.ParseHeaderAndBody` | utils/codec/RtmpManager.cpp:466-487 | a whole message or nothing |
| `RtmpManagers.ParseTypedPack` | utils/codec/RtmpManager.cpp:164-189 | one message of the wanted type, with what is consumed on every error, and with bytes from behind the received ones when it announces more than arrived |
| `RtmpManagers.ParseVideoAudio` | utils/codec/RtmpManager.cpp:191-225 | two audio or video messages |
| `RtmpManagers.ParseFirstHeader` | utils/codec/RtmpManager.cpp:123-162 | the three leading messages become header tags, with the partial effects of every error |
| `RtmpManagers.ParseBodyOf` | utils/codec/RtmpManager.cpp:242-309 | both ParseBody overloads equal the abstract body step |
| `RtmpManagers.RtmpManager.constructor` | utils/codec/RtmpManager.cpp:7-17 | starts in PARSE_FIRST_HEADER with clock 0 and no last tag |
| `RtmpManagers.RtmpManager.AnnouncePrevious` | utils/codec/RtmpManager.cpp:315-322 | the size of the last tag, or 0 |
| `RtmpManagers.RtmpManager.ProcessNewFlvTag` | utils/codec/RtmpManager.cpp:311-330 | a media tag is linked, remembered and handed to every viewer; any other is dropped |
| `RtmpManagers.RtmpManager.DeliverTag` | utils/codec/RtmpManager.cpp:61-63 | the completed message becomes the tag that the track says |
| `RtmpManagers.RtmpManager.BodyPhase` | utils/codec/RtmpManager.cpp:54-69 | body step and hand-over equal the abstract round |
| `RtmpManagers.RtmpManager.HeaderPhase` | utils/codec/RtmpManager.cpp:40-52 | header step equals the abstract round |
| `RtmpManagers.RtmpManager.ChunkRound` | utils/codec/RtmpManager.cpp:38-69 | one loop round behind the leading messages equals the abstract round |
| `RtmpManagers.RtmpManager.LeadingRound` | utils/codec/RtmpManager.cpp:70-77 | one loop round with the leading messages equals the abstract round |
| `RtmpManagers.RtmpManager.ParseRounds` | utils/codec/RtmpManager.cpp:38-91 | the loop equals the abstract loop: total, error, state, rest, published tags |
| `RtmpManagers.RtmpManager.ParseData` | utils/codec/RtmpManager.cpp:23-95 | the call equals the abstract call, and the room afterwards is the room with exactly its tags published; every viewer has what it is owed |
| `RtmpManagers.RtmpManager.AddClientConnection` | network/protocol/RtmpServerConnection.cpp:182-195 | a join keeps the parser's state up to the linked header tags |
| `RtmpManagers.ShakeHandParser.ParseInto` | utils/codec/RtmpManager.cpp:375-394 | a handshake message into its pack, with the move to the next state |
| `RtmpManagers.ShakeHandParser.ParseShakeHand` | utils/codec/RtmpManager.cpp:332-464 | one handshake step equals the abstract step in result, state and unread bytes; the connect and release bodies are kept |
| `RtmpServerConnections.RtmpServerConnection.Answer` | network/protocol/RtmpServerConnection.cpp:26-62 | each reported step is answered with its replies (spelt out by HandshakeReads.PiecesAnswered), which pass Send until Shutdown was called or a send fails for good |
| `RtmpServerConnections.RtmpServerConnection.ShakeRound` | network/protocol/RtmpServerConnection.cpp:23-73 | one step and the replies of it that pass |
| `RtmpServerConnections.RtmpServerConnection.ShakeHand` | network/protocol/RtmpServerConnection.cpp:21-75 | the loop equals the abstract loop: result, state, unread bytes, replies |
| `RtmpServerConnections.RtmpServerConnection.OnConnectionShakeHand` | network/protocol/RtmpServerConnection.cpp:120-175 | switches to body data exactly on success; shuts down exactly on failure or refused authentication |
| `RtmpServerConnections.RtmpServerConnection.OnReadableShakeHand` | network/TcpConnection.cpp:51-74 | during the handshake: a read of 0 bytes is the end of the stream and nothing else; a read of data is one call with its state, replies, Shutdown and switch to OnBodyData, and leaves room for the next one if and only if the full window does not start with a longer message |
| `RtmpServerConnections.RtmpServerConnection.OnReadableBody` | network/TcpConnection.cpp:51-74 | behind the handshake, for any bytes: the window stays open, a read of 0 bytes is the end of the stream, and the live stream takes the abstract step when there is data and none otherwise |
| `RtmpServerConnections.RtmpServerConnection.AddClientConnection` | network/protocol/RtmpServerConnection.cpp:182-195 | a join is the abstract step of the whole live stream |
| `RtmpServerConnections.RtmpServerConnection.OnConnectionClose` | network/protocol/RtmpServerConnection.cpp:252-257 | so is a viewer's leaving |
| `FlvManagers.LinkedFields` | utils/codec/FlvManager.cpp:156-157 | linking the header tags rewrites two PreviousTagSize fields and nothing else |
| `FlvManagers.BlockLength` | utils/codec/FlvManager.cpp:141-142 | the length asked for is the length printed |
| `FlvManagers.PlayerReadsTags` | utils/codec/FlvManager.cpp:139-166 | a player that reads every field at its place in the file gets sized tags back, and continues behind them |
| `FlvManagers.PlayerReadsFile` | utils/codec/FlvCodec.cpp:158-163 | a player accepts signature, version and flags of the file header, starts at the DataOffset it reads, and shows exactly the tags |
| `Players.PlayExtends` | utils/codec/FlvManager.cpp:139-166 | a player that has part of the bytes finds the first of the tags |
| `Players.PartPlays` | utils/codec/FlvManager.cpp:139-166 | the part of a file that a player has is no complete file header yet, or is accepted and shows the first of the tags |
| `FlvManagers.TagRoundTrip` | utils/codec/FlvManager.cpp:244-289 | a printed tag parses back byte for byte; the parser reports success if and only if its body is not empty |
| `FlvManagers.TagResumes` | utils/codec/FlvManager.cpp:268-289 | a tag that holds the first part of its body takes exactly what is missing |
| `FlvManagers.BlockRoundTrip` | utils/codec/FlvManager.cpp:183-289 | a printed header block parses back to the three linked tags, and exactly the printed length is consumed, if no body is empty; otherwise it fails and stops behind the first empty body |
| `FlvManagers.FlvManager.EncodeHeadersToBuffer` | utils/codec/FlvManager.cpp:139-166 | prints the whole block, which a player accepts as the beginning of an FLV file (FlvManagers.PlayerReadsFile), and links the tags, or returns 0 and changes nothing, exactly when the free space is too small |
| `FlvManagers.FlvManager.constructor` | utils/codec/FlvManager.cpp:5-24 | three blank header tags and an empty read buffer |
| `FlvManagers.FlvManager.ParseHeader` | utils/codec/FlvManager.cpp:183-196 | takes nine bytes as file header, or nothing |
| `FlvManagers.FlvManager.ParseScripTag` | utils/codec/FlvManager.cpp:198-217 | equals the abstract tag parser on the script tag |
| `FlvManagers.FlvManager.ParseVideoAudio` | utils/codec/FlvManager.cpp:219-242 | equals it on the next two tags, stopping at the first failure |
| `FlvManagers.ParseTagHeader` | utils/codec/FlvManager.cpp:244-266 | fifteen bytes into the tag, or nothing |
| `FlvManagers.ParseTagData` | utils/codec/FlvManager.cpp:268-289 | the missing body bytes, or all there are |
| `HttpChunks.ReadsPrintedSize` | utils/Format.cpp:8-18 | every printed hexadecimal size reads back as itself |
| `Format.HexIsPlain` | utils/Format.cpp:8-18 | lower-case digits without a leading zero |
| `HttpChunks.UnchunkFrame` | network/protocol/RtmpClientConnection.cpp:52-63 | a client gets a framed nonempty payload back and continues behind it |
| `HttpChunks.UnchunkFrames` | network/protocol/RtmpClientConnection.cpp:52-63 | a client gets the concatenation of any framed nonempty payloads |
| `HttpChunks.UnchunkExtends` | network/protocol/RtmpClientConnection.cpp:52-63 | what a client decodes from part of the bytes is a prefix of what it decodes from all |
| `Format.GetUrlNamesRoom` | utils/Format.cpp:20-29 | the room in a request line: the target without one trailing slash; for an empty target the rest of the line |
| `Format.GetPathNamesRoom` | utils/Format.cpp:31-44 | the room in a publish URL whose host has no slash |
| `Format.RoomsAgree` | main.cpp:78-79 | under one target both ends name the same room if and only if it is not empty |
| `Format.EmptyTargetRoom` | main.cpp:78-79 | for an empty target GetUrl names the room of the rest of the line; a publisher opens it if and only if its target is these characters and a slash, or these characters when they do not end in one |
| `Format.TrailingSlashIsIgnored` | utils/Format.cpp:24-44 | at both ends one trailing slash is dropped, whatever is in front of it, and nothing else |
| `Format.PathBehindHost` | utils/Format.cpp:31-44 | any publish URL, with or without "//", names the path behind the first slash of its host part; out_of_range if and only if there is none |
| `FanOut.CachedEqualsFresh` | network/protocol/RtmpServerConnection.cpp:104-118 | the cached header stream equals a fresh encoding, before and after the header tags are linked |
| `FanOut.JoinKeepsSize` | network/protocol/RtmpServerConnection.cpp:222-234 | rewriting PreviousTagSize in the shared last tag leaves what the next tag announces |
| `FanOut.PublishServes` | network/protocol/RtmpServerConnection.cpp:236-245 | a published tag keeps every viewer at what it is owed |
| `FanOut.JoinServes` | network/protocol/RtmpServerConnection.cpp:182-234 | so does a join, for the newcomer and all others |
| `FanOut.PublishAllShows` | network/protocol/RtmpServerConnection.cpp:236-245 | several publications: every viewer gets all their frames, and nothing else changes but the last tag |
| `FanOut.StepServes` | network/protocol/RtmpServerConnection.cpp:182-257 | every step keeps what viewers are owed |
| `FanOut.RunServes` | network/protocol/RtmpServerConnection.cpp:182-257 | so does every run |
| `FanOut.ClientSeesFlv` | network/protocol/RtmpServerConnection.cpp:104-118 | header chunk and tag chunks decode to one FLV file: file header, linked header tags, tags |
| `FanOut.ClientSeesBlockIffFits` | network/protocol/RtmpServerConnection.cpp:108-114 | a client gets the header block if and only if that has at most 4096 bytes; else the stream ends at once |
| `FanOut.StreamChained` | network/protocol/RtmpServerConnection.cpp:222-234 | PreviousTagSizes are linked across the border between header and live tags too |
| `FanOut.OwedIsFlv` | network/protocol/RtmpServerConnection.cpp:222-245 | a player accepts what a viewer is owed as an FLV file and shows the header tags, then a gap-free, duplicate-free segment, each announcing the size of the one before |
| `FanOut.EveryViewerSeesFlv` | network/protocol/RtmpServerConnection.cpp:182-257 | in every run every open viewer has exactly such a stream, every closed one a prefix of it |
| `FanOut.LeaveChangesNoOther` | network/protocol/RtmpServerConnection.cpp:252-257 | exactly the viewer that leaves is taken out; every other stays as it was |
| `FanOut.CloseChangesNoOther` | network/protocol/RtmpClientConnection.cpp:40-50 | a connection that closes takes no more data; it keeps what it was sent, and every other stays as it was |
| `FanOut.MembersAreThere` | network/protocol/RtmpServerConnection.cpp:182-257 | in every run: who joined and has not left since is in the map and is owed all tags from the last one before its join on; who left and has not joined since is not, whatever others do |
| `Viewers.EncodeToTemporary` | network/protocol/RtmpServerConnection.cpp:108-109 | the block, or nothing when it does not fit |
| `Viewers.FlvTagBuffer.constructor` | network/protocol/RtmpClientConnection.cpp:52-63 | one HTTP chunk around the tag's header and body |
| `Viewers.RtmpClientConnection.Send` | network/TcpConnection.cpp:148-164 | data for a connection that is not CONNECTED is dropped |
| `Viewers.ClientConnections.OnNewFlvTag` | network/protocol/RtmpServerConnection.cpp:236-245 | the objects take the abstract step: last tag, and the frame to every viewer |
| `Viewers.ClientConnections.AddToEach` | network/protocol/RtmpServerConnection.cpp:241-244 | the loop over the map reaches every viewer exactly once |
| `Viewers.ClientConnections.GetHeaderDataBuffer` | network/protocol/RtmpServerConnection.cpp:104-118 | prints once, then returns the cache; it is the abstract cache |
| `Viewers.ClientConnections.SendHeaderToClientConnection` | network/protocol/RtmpServerConnection.cpp:222-234 | header stream, then the last tag announcing the last header tag's size |
| `Viewers.ClientConnections.SendLastTag` | network/protocol/RtmpServerConnection.cpp:228-233 | PreviousTagSize is rewritten in the shared tag, and the frame has the new value |
| `Viewers.ClientConnections.AddClientConnection` | network/protocol/RtmpServerConnection.cpp:182-195 | the objects take the abstract join |
| `Viewers.ClientConnections.OnConnectionClose` | network/protocol/RtmpServerConnection.cpp:252-257 | exactly this name is erased from the map: the abstract leave |
| `Viewers.ClientConnections.OnConnectionLost` | network/protocol/RtmpClientConnection.cpp:40-50 | a lost connection takes no more data |
| `SendPipeline.SendInLoopConserves` | network/TcpConnection.cpp:219-282 | a payload moves from the queue to wire and send buffer in order, or is given up on a connection that is no longer CONNECTED |
| `SendPipeline.WritableConserves` | network/TcpConnection.cpp:76-111 | the kernel takes any part of the send buffer from its front |
| `SendPipeline.PushConserves` | network/EventLoop.cpp:61-67 | queueing keeps every connection's payloads in order |
| `SendPipeline.RunTaskConserves` | network/EventLoop.cpp:85-88 | so does each task of a batch |
| `SendPipeline.SwapConserves` | network/EventLoop.cpp:76-83 | and taking the queue |
| `SendPipeline.StepConserves` | network/TcpConnection.cpp:76-282 | every step, of any thread, except a send on the loop's own thread while something is queued, keeps wire ++ send buffer ++ batch ++ queue == submitted while CONNECTED, and wire ++ send buffer a prefix of it afterwards |
| `SendPipeline.RunConserves` | network/TcpConnection.cpp:76-282 | so does every run, with any interleaving and any partial writes, in which the loop's own thread sends only when nothing is queued |
| `SendPipeline.WireIsPrefix` | network/TcpConnection.cpp:76-282 | in every such run the wire is a prefix of what was submitted, and all of it when CONNECTED and nothing is waiting |
| `SendPipeline.RunKeepsWire` | network/TcpConnection.cpp:219-282 | what has been sent stays sent |
| `SendPipeline.SendHereKeepsOrderIff` | network/TcpConnection.cpp:152-155 | a send from the loop's own thread keeps the order of all payloads if and only if nothing is queued |
| `SendPipeline.OutOfTurnOvertakes` | network/TcpConnection.cpp:148-164 | a run from the start in which a send on the loop's own thread is on the wire before what was queued |
| `SendPipeline.FlushSendsAll` | network/TcpConnection.cpp:76-111 | writable events put the whole send buffer on the wire |
| `SendPipeline.SendGivesUpIff` | network/TcpConnection.cpp:233-266 | a send takes a CONNECTED connection out of CONNECTED if and only if nothing was buffered or being written, the kernel took nothing, and errno is EPIPE or ECONNRESET; otherwise all of the payload is sent or buffered |
| `SendPipeline.SendWaitsItsTurn` | network/TcpConnection.cpp:233-282 | while something is buffered or a writable event was the last, nothing is offered to the kernel: the payload goes behind the buffer |
| `SendPipeline.WritableTakes` | network/TcpConnection.cpp:76-111 | a writable event puts exactly what the kernel accepts on the wire, from the front; the registration ends exactly when that empties the buffer |
| `SendPipeline.StaysConnected` | network/TcpConnection.cpp:76-282 | in every run without one of the two errors, a connection that nobody shuts down or closes stays CONNECTED, and wire, send buffer and queue are all that was submitted |
| `SendPipeline.GoneForGood` | network/TcpConnection.cpp:118-194 | a connection that shuts down or is disconnected never is CONNECTED again, becomes DISCONNECTED exactly by Close, and takes nothing more |
| `SendPipeline.CloseDisconnects` | network/TcpConnection.cpp:118-194 | Close disconnects any connection and ends its registration; Shutdown takes only a CONNECTED one out of CONNECTED; neither touches another connection |
| `SendPipeline.BufferedIsWatchedIff` | network/TcpConnection.cpp:268-281 | a send that leaves something buffered registers for writable events if and only if it was registered or the last event was not a writable one |
| `SendPipeline.BufferedUnwatched` | network/TcpConnection.cpp:268-281 | a run from the start at whose end a byte is buffered on a CONNECTED connection that is not registered for writable events |
| `SendPipeline.NeverHalfCloses` | network/TcpConnection.cpp:93-99 | a connection that shut down while writing never closes its write side |
| `SendPipeline.ShutStays` | network/TcpConnection.cpp:181-194 | after Shutdown or a lost connection nothing calls shutdown(2) any more |
| `SendPipeline.ClosesIffNotWriting` | network/TcpConnection.cpp:181-194 | whatever follows Shutdown, the write side is ever closed if and only if the last event was not a writable one |
| `SendPipeline.SentButNotClosed` | network/TcpConnection.cpp:93-99 | a run from the start in which all data is sent and the write side stays open for good |
| `SendPipeline.ClosedButNotSent` | network/TcpConnection.cpp:181-194 | a run from the start in which the write side is closed in front of buffered bytes |
| `SendPipeline.QueueIsBeginThenPush` | network/TcpConnection.cpp:148-164 | an off-loop Send is the producer's two abstract steps |
| `TcpConnections.TcpConnection.SendInLoop` | network/TcpConnection.cpp:219-282 | equals the abstract step, with partial sends and the two fatal errors (SendPipeline.SendGivesUpIff) |
| `TcpConnections.TcpConnection.TrySend` | network/TcpConnection.cpp:233-266 | EPIPE and ECONNRESET, and no other errno, shut down and drop the payload |
| `TcpConnections.TcpConnection.OnWritable` | network/TcpConnection.cpp:76-111 | equals the abstract step |
| `TcpConnections.TcpConnection.Shutdown` | network/TcpConnection.cpp:181-194 | only a CONNECTED connection shuts down; the write side is closed at once exactly when the last event was not writable |
| `TcpConnections.TcpConnection.OnClose` | network/TcpConnection.cpp:118-131 | DISCONNECTED, and nothing registered |
| `EventLoops.RunBatchConserves` | network/EventLoop.cpp:74-89 | a batch leaves nothing of itself, and nothing lost |
| `EventLoops.EventLoop.RunInLoop` | network/EventLoop.cpp:61-67 | appends to the pending functions |
| `EventLoops.EventLoop.Send` | network/TcpConnection.cpp:148-164 | queues the payload exactly when CONNECTED |
| `EventLoops.EventLoop.SendAll` | network/TcpConnection.cpp:148-164 | any sends of other threads, one after the other |
| `EventLoops.EventLoop.SendOnLoop` | network/TcpConnection.cpp:148-155 | sends at once on the loop's own thread, whatever is queued: the abstract step |
| `EventLoops.EventLoop.HandlePendingFunc` | network/EventLoop.cpp:74-89 | takes the queue, runs every function of it while other threads keep sending, and leaves the world that the abstract batch leaves |
| `EventLoops.EventLoop.HandleEstablished` | network/TcpConnection.cpp:23-34 | the accepted connection becomes CONNECTED: the abstract step |
| `EventLoops.EventLoop.HandleEvent` | network/Channel.cpp:24-27 | the multiplexer's event is stored: the abstract step |
| `EventLoops.EventLoop.HandleShutdown` | network/TcpConnection.cpp:181-194 | the abstract step |
| `EventLoops.EventLoop.HandleClose` | network/TcpConnection.cpp:118-131 | the abstract step |
| `EventLoops.EventLoop.HandleWritable` | network/TcpConnection.cpp:76-111 | the abstract writable step on the connection |
| `Server.HeadersPassThrough` | utils/codec/RtmpManager.cpp:38-95 | linking the header tags for viewers does not influence the parser |
| `Server.RunMatches` | network/protocol/RtmpServerConnection.cpp:177-257 | viewers' comings and goings do not touch what the publisher's bytes amount to |
| `Server.EveryViewerPlays` | network/protocol/RtmpServerConnection.cpp:177-257 | any cuts, any joins after the first tag: no read past the received bytes, published tags a prefix of the stream's and all of them once drained, and every viewer is sent an FLV file with the leading messages and a gap-free segment |
| `Server.WirePlays` | network/TcpConnection.cpp:219-282 | a player shows of whatever part is on the wire the beginning of that file |
| `Server.MembersAreThere` | network/protocol/RtmpServerConnection.cpp:182-257 | the same of the whole live stream: who is among the viewers, and from which tag on |
| `Server.TimesInOrder` | utils/codec/RtmpCodec.cpp:20-47 | no viewer sees time go back while the sum of all times is below 2^24 |
| `Broadcast.MadeSubmits` | network/TcpConnection.cpp:148-164 | a Send on either thread: what the connection has submitted grows by exactly these bytes while CONNECTED and by nothing otherwise, and nothing is lost or reordered |
| `Broadcast.WalksReach` | network/protocol/RtmpServerConnection.cpp:236-245 | the sends of one ParseData, in any order of the viewers, bring each viewer exactly the frames of all its tags in order |
| `Broadcast.AheadOfTags` | network/protocol/RtmpServerConnection.cpp:236-245 | the room that these sends lead to is the room with the tags published |
| `Broadcast.MadeAgrees` | network/protocol/RtmpServerConnection.cpp:241-244 | each single send keeps: submitted bytes are those before the join and those the room gave since, open is CONNECTED, nothing is queued on the publisher's own loop |
| `Broadcast.NewcomerAgrees` | network/protocol/RtmpServerConnection.cpp:182-234 | so does a join, the first or a later one, even if the connection is lost between its two sends |
| `Broadcast.OutsideAgrees` | network/TcpConnection.cpp:76-282 | so does everything that any of the loops and the kernel do, losing and shutting down connections included |
| `Broadcast.RunInStep` | network/protocol/RtmpServerConnection.cpp:177-257 | so does every run, and up to the sends still to be made the live stream is where the publisher's run is |
| `Broadcast.ViewersWatch` | network/protocol/RtmpServerConnection.cpp:177-257 | from end to end, any cuts, the sends of ParseData interleaved step by step with any number of loops, each with its own queue and batch, and the kernel: the published tags are a prefix of the stream's and all of them once drained; a player shows of what is on a viewer's wire the beginning of the leading messages and a segment of the stream, and all of it once nothing is waiting |
| `Broadcast.MembersAreThere` | network/protocol/RtmpServerConnection.cpp:182-257 | in every interleaved run: who came and has not gone since is among those viewers, from the last tag before its coming on; who went and has not come since is not |
| `Broadcast.FromTheFirstByte` | network/protocol/RtmpServerConnection.cpp:120-180 | the same from the client's first byte on: the reads complete the handshake if and only if releaseStream was complete before the last of them, what they leave unread is where the stream begins, and all eight replies are sent if and only if it was not refused and no send failed |
| `Senders.TypesKept` | utils/codec/RtmpCodec.cpp:142-157 | the types 8, 9 and 18 are kept as they are, and no other becomes one of them |
| `Senders.WrittenIsPrinted` | utils/codec/RtmpCodec.cpp:55-140 | what an encoder writes byte by byte, with literal types and big-endian fields, is a printed stream |
| `Senders.TakenIff` | utils/codec/RtmpManager.cpp:123-225 | three packets are taken as the leading ones if and only if their types are 18, 8 or 9, and 8 or 9; otherwise exactly what is lost and what stays |
| `Senders.RefusedCall` | utils/codec/RtmpManager.cpp:70-94 | a call that refuses them returns an error, counts nothing, and leaves the parser looking for leading messages |
| `Senders.HeadersAreTold` | utils/codec/RtmpManager.cpp:136-158 | the header tags show the three leading packets with their literal types, sizes, data and times, linked |
| `Senders.TagsAreTold` | utils/codec/RtmpManager.cpp:54-64 | the tags show exactly the packets of types 8 and 9 that are not empty, in order, with these types, their sizes and data, the size of the one before, and the sum of the times |
| `Senders.StreamIsTold` | utils/codec/RtmpManager.cpp:23-162 | the same for a stream from its first packet on, whose messages all have the size they announce |
| `EndToEnd.NewManager` | network/protocol/RtmpServerConnection.cpp:9-19 | an accepted connection starts in the state, and with the empty room, from which the end-to-end results start |
| `EndToEnd.EveryPlayerShows` | network/protocol/RtmpServerConnection.cpp:177-257 | from an encoder's packets to the tags on a screen, any cuts, joins, leaves, losses, loops and partial writes: every player shows the beginning of the leading packets and all audio and video from the last tag before its join on, with literal types, and all of it once nothing is waiting |
| `EndToEnd.FromHandshakeToScreen` | network/protocol/RtmpServerConnection.cpp:120-180 | the same from the first byte of the publisher's handshake on |

## Left out

- Sockets, epoll and select, accept and connect, threads and mutexes, files, the database, the logger and main's wiring. A read is a parameter (`Buffers.Incoming`), a send's outcome too (`SendPipeline.Answer`); callbacks are atomic.
- Interleaved chunk streams, two- and three-byte basic headers, extended timestamps, other chunk sizes: the code keeps one current message and does not have them. Whatever bytes arrive are modelled as the code takes them.
- Indeterminate memory: the fields of a new RtmpPack are not initialised by the source; here they are parameters (`garbage`, `Locals`, `Packs`), and the results hold for all their values.
- FlvTag::GetPreviousTagSize (utils/codec/FlvCodec.cpp:62-72) does not invert SetPreviousTagSize, and FlvManager::ParseFile and CheckTag rest on it; PreviousTagSize is read big-endian in the specification instead.
- AMF contents of handshake messages, the URL and password inside them, and the fixed reply byte strings, which are names here (`Handshake.Reply`). The response header is a parameter.
- RtmpManager's handshake members are the class ShakeHandParser; RtmpServerConnection's client map, last tag and header cache are the class ClientConnections. The new-tag callback is a direct call.
- The position of `vector` and `char[15]` in memory: storage is a `seq` field that the methods reassign, and `size_t` counters do not wrap.
- The order in which the client map is walked: viewers' bytes do not depend on it.
- Viewers.ClientConnections.AddClientConnection: requires a tag already handed over, because the source dereferences the last tag.
- Format.GetUrl: requires a second space in the request line, because the source indexes outside the string without it.
- HandshakeReads.HandshakeSucceeds: is about clients that send full message headers, because the size of a message without one is indeterminate memory.
- Handshake.StepExtends: asks that a header without a size finds the same size in both packs, and that the C3 packet is complete, because the step depends on both otherwise.
- Handshake.CallKeepsDestination: asks the same of every step of the call.
- Handshake.RunKeepsDestination: asks the same of every call of the run.
- Broadcast.ViewersWatch: the client map changes only between two calls of ParseData, nobody but its room sends to a viewer, and a join is one step; the parser's share of a ParseData is one step, which nothing else reads.
- EndToEnd.EveryPlayerShows: is about leading packets within 1000 bytes, because longer ones are not taken at every cut (PublisherRuns.TakenAtEveryCutIff), and asks of the surroundings what Broadcast.ViewersWatch asks.
- HandshakeReads.PiecesAnswered: is about a publisher that is not refused and sends that do not fail; HandshakeReads.SentIs says what passes otherwise.
- Broadcast.NewcomerAgrees: a connection joins, or joins again, when nothing is queued for it, because its loop sends the header stream at once and would overtake what is queued (SendPipeline.SendHereKeepsOrderIff).
- Races between a publisher's loop and a join or leave, and the lifetime of captured `this` pointers. Viewers.ClientConnections.AddClientConnection registers the viewer after its header is sent and not before; nothing in between reads the map.
- Handshake.CutsDoNotMatter: is stated for calls that find 26 bytes in the 0xc3 branch, and find the same size in the pack when a header leaves it out, because the consumed bytes depend on the cut, or on indeterminate memory, otherwise.
- Publisher.ParseLeading: reading behind the received bytes yields `Locals.beyond`; that it may also run out of the buffer's memory is not modelled.
- Viewers.RtmpClientConnection.Send: has a flag and a byte string of its own, not a TcpConnection; Broadcast proves on the state machines that the two agree.
- ThreadPool, EventLoopThreadPool, Connector, TcpServer's maps and channel registration: they would only add easy members.
