# Verification of the protocol core

This project models the Go side of the Cronet bindings: the resumable framing codecs, the life of
native requests and connections, the upload pipeline, the start and shutdown of a client, and the
rewriting of DNS names and records.

## What is modelled

- **gRPC framing** (`Protowire`, `ProtoFields`, `GrpcStream`, `GrpcWire`, `GrpcUpload`,
  `GrpcReader`, `GrpcEndToEnd`). The encoder and the decoder are classes over byte arrays; the
  unread payload is a stretch of the frame array, as in the code. `GrpcStream.Decode` is an
  independent whole-stream decoder, and the resumable one is proved equal to it after any number of
  calls, interruptions and cuts of the stream. The frame is the Length-Prefixed-Message of gRPC
  around one length-delimited protobuf field; `GrpcWire` and `ProtoFields` say the same byte by
  byte, with the numbers of the formats written out. `ByteSource` is the transport: it remembers
  what its last call reported, so that every error has to come from somewhere, and it may behave as
  it likes, fail only by finitely many interruptions, or be cut at a given byte.
- **Naive padding** (`PaddingStream`, `PaddingWire`, `PaddingConn`, `PaddingEndToEnd`). `Payload`
  gives the data that a reader in any state will get out of a wire; the reader and the writer are
  proved against it, and `PaddingWire` gives the wire byte by byte.
- **Request machines** (`DuplexModel`, `DuplexRuns`, `DuplexTable`, `DuplexRequest`,
  `DuplexSession`, `SerialExecutor`, `StreamingExecutor`, `StreamingModel`, `StreamingSafety`,
  `StreamingRuns`, `StreamingSinks`, `StreamingReaders`, `StreamingTable`, `StreamingRequest`,
  `StreamingSession`, `UploadBody`). Each machine is a state, a transition for every critical
  section, task or callback, and runs that are any sequence of enabled events. The request classes
  carry the fields of the Go structs, and each method is proved to be its transition; the session
  classes hold such an object together with the buffers that it lends out, keep the invariant, and
  are driven by arbitrary events. `Runs` carries one-step lemmas over whole runs. The tables say for
  each event which error it is the cause of and which native calls it leads to, without using the
  transitions; runs are proved to keep to them.
- **Connection and client** (`BidiModel`, `BidiSafety`, `BidiRuns`, `BidiTable`,
  `BidirectionalConn`, `BidiSession`, `NaiveClientModel`, `NaiveClientRuns`, `NaiveClientEnd`,
  `NaiveClient`), in the same form.
- **Uploads** (`UploadModel`, `UploadRuns`, `UploadTable`, `UploadBatch`, `Uplink`, `Base64Url`).
- **DNS** (`DnsNames`, `DnsRecords`).

## Assumptions

- Every mutex critical section, every task of the serial executor and every single channel operation
  is one atomic step. The executor is proved to run its tasks one at a time and in order; the request
  machine relies on that.
- The native library does what its documented callbacks promise (`types.go:126-188`,
  `url_request_cgo.go:50-82`, `bidirectional_stream_cgo.go:43-47`): no callback before a successful start or
  behind the terminal one, one completion for each outstanding read or write, upload requests one after
  the other, no buffer taken after the terminal callback. When and with what it calls back is arbitrary.
- A duplex request is started once and receives response headers once; `setOnTerminate` is called once
  for a connection, as `DialEarly` does.
- Closing the upload queue of a duplex request, or the body of a streaming request, makes a Read that
  waits in it return (`browser_xhttp_duplex.go:90`, `streaming_request.go:550-559`). Before that it may
  wait for ever. The function that makes a new body for a rewind returns by itself.
- The transport under the padding reports no bytes together with an error. The gRPC decoder does not
  need this.
- Deadlines, contexts, timers and random numbers are arbitrary choices of the environment.
- The protobuf wire reader and the buffer type of the sing library are not part of this repository; the
  first is modelled by its own rules, the second by the operations used here.
- Where one Go function has several parts that are proved separately, it is several methods here.

## Findings

- `readerReplaceable` (`naive_conn.go:174-176`) holds as soon as the eighth header has been read, while
  that frame's padding may still be due; `ReplaceableOnlyWithoutPadding` gives the exact condition, and
  `BypassWithPaddingDue` reads eight frames and arrives where it fails.
- After a failed read in the middle of a header or of padding the padding reader has lost its place
  (`naive_conn.go:57-82`); `RetryIsSafe` gives the exact condition under which a later read is still
  right, and `FailAt` brings about each failure that it speaks of.
- `OnReadCompleted` with no bytes terminates the connection although a write may be outstanding
  (`bidirectional_conn.go:339-342`). The writer can then return while the native stream still has its
  buffer. `WriteHandsBack` says exactly in which runs this can happen, `WriteMayReturnEarly` in which
  states, and `WriteReturnsEarly` is such a run.
- With two concurrent readers of a streaming request one can stay asleep while bytes are pending
  (`streaming_request.go:188-193`). `ReadersAreWoken` gives the exact condition on the set of readers;
  several readers that take turns are safe as well: `ReadersInTurnAreWoken`.
- The inversion of DNS names needs no condition on the server names: names that begin with an underscore
  are covered too. The separator is matched in lower case only (`naive_dns.go:235`).

## Model

| member | source | states |
|---|---|---|
| `GrpcUploads.GrpcUpload.Read` | browser_xhttp_grpc.go:59-81 | every payload byte taken from the source is in exactly one frame, in order, for any buffer size; an error is the one that the source reported, comes only between frames, and then stays; the source is asked exactly when nothing is pending, and bytes that it brings are given out by the same call |
| `GrpcUploads.GrpcUpload.Refill` | browser_xhttp_grpc.go:64-77 | one source read of up to 32768 bytes becomes one frame, an empty read none; nothing is lost between source, frames and pending bytes; the error kept is what that read reported |
| `GrpcUploads.GrpcUpload.Frame` | browser_xhttp_grpc.go:72-76 | the frame laid out piece by piece around the buffer is the encoding of exactly that chunk |
| `GrpcUploads.GrpcUpload.HandOut` | browser_xhttp_grpc.go:78-80 | bytes handed out and bytes still pending together stay the encoded stream |
| `GrpcUploads.FramedIsFrame` | browser_xhttp_grpc.go:72-76 | zero byte, big-endian length, field tag and length-delimited chunk are one length-prefixed message with the chunk as field 1 |
| `GrpcUploads.SizeVarint` | browser_xhttp_grpc.go:72 | the size computed without encoding is the length of the encoding |
| `GrpcStream.EncodedMessageSize` | browser_xhttp_grpc.go:72-76 | an encoded message is at most 32772 bytes, so the check for 4194304 cannot reject it |
| `GrpcStream.ReadEncodedField` | browser_xhttp_grpc.go:168-174 | reading the field back finds the chunk, all of it and nothing behind it |
| `GrpcStream.ProtobufUnderstands` | browser_xhttp_grpc.go:166-182 | the protobuf reading of fields understands every message the encoder writes |
| `GrpcStream.RoundTrip` | browser_xhttp_grpc.go:59-185 | any prefix of an encoded stream decodes without error to a prefix of the payload, the whole stream to the whole payload |
| `GrpcStream.DecodeResumes` | browser_xhttp_grpc.go:124-165 | decoding may stop at any byte and go on later with the undecoded rest, with the same result as decoding at once |
| `GrpcStream.FailureIsFinal` | browser_xhttp_grpc.go:111-117 | once a message is malformed nothing that follows is ever decoded |
| `GrpcStream.RestIsStuck` | browser_xhttp_grpc.go:124-165 | what is left over is a suffix that does not decode any further |
| `GrpcStream.PrefixRejected` | browser_xhttp_grpc.go:148-154 | a prefix with a flag other than zero, or with a length over 4194304, is refused on itself alone, whatever follows; no other prefix is |
| `GrpcStream.MessageJudged` | browser_xhttp_grpc.go:166-184 | a message with flag zero and at most 4194304 bytes is judged by its body alone, whatever follows |
| `GrpcStream.NothingLeftOver` | browser_xhttp_grpc.go:143-146 | a stream that leaves nothing over stopped at the end of a frame |
| `GrpcWire.FirstMessage` | browser_xhttp_grpc.go:141-184 | any stream whatever: fewer than five bytes are not decided; a flag other than zero is refused; a length over 4194304 is refused; else the message is awaited, and then its body decides |
| `GrpcWire.SizeIsAnnounced` | browser_xhttp_grpc.go:151 | the length is the four bytes behind the flag, the highest first |
| `GrpcWire.FailureIsRefusal` | browser_xhttp_grpc.go:111-117 | decoding any stream fails if and only if the messages decoded are followed by one that is refused, and for that reason |
| `GrpcWire.FrameBytes` | browser_xhttp_grpc.go:72-76 | a frame byte by byte: 0, its length, 10, the length of the chunk as a varint, the chunk |
| `GrpcWire.MessageIsField` | browser_xhttp_grpc.go:75-76 | its message is a single field 1 in the layout of Protocol Buffers |
| `ProtoFields.MessageOfFields` | browser_xhttp_grpc.go:166-182 | for a message laid out from any fields, of any wire type and with groups inside groups: the payload is the value of the last length-delimited field 1, empty if there is none |
| `ProtoFields.FieldIsRead` | browser_xhttp_grpc.go:167-181 | one field in front of anything is read as what it is: field 1 gives its value, any other its whole length |
| `ProtoFields.ValueIsSkipped` | browser_xhttp_grpc.go:176-181 | a field value of any wire type is skipped whole, whatever follows |
| `ProtoFields.GroupIsSkipped` | browser_xhttp_grpc.go:176-181 | a group is skipped up to its own end, not to that of a group inside it |
| `ProtoFields.LastIsLast` | browser_xhttp_grpc.go:173-175 | the value kept is that of the field behind which none carries payload |
| `ProtoFields.ShortFieldIsRefused` | browser_xhttp_grpc.go:171-181 | a length past the end of the message spoils it, in field 1 and in any other |
| `ProtoFields.BadNumberIsRefused` | browser_xhttp_grpc.go:167-169 | so does a field number that is zero or over 0x7fffffff |
| `ProtoFields.BadTypeIsRefused` | browser_xhttp_grpc.go:176-181 | so does the end of a group that has not begun, and a wire type that does not exist |
| `ProtoFields.TooDeepIsRefused` | browser_xhttp_grpc.go:176-181 | so do groups nested more than 10001 deep |
| `ProtoFields.VarintIsRead` | browser_xhttp_grpc.go:167-181 | every number below 2 to the 64 is read from its encoding, whatever follows |
| `ProtoFields.EncodedVarint` | browser_xhttp_grpc.go:75-76 | the encoding is groups of seven bits, the lowest first, with the high bit on all but the last |
| `GrpcReaders.LocatePayload` | browser_xhttp_grpc.go:166-182 | the loop over the fields computes the parse of the message: the last field 1 wins, a bad field rejects |
| `GrpcReaders.GrpcReader.Fill` | browser_xhttp_grpc.go:124-139 | an interrupted fill keeps the bytes it got, in place, and asks only for the rest; it fails with what the last read of the transport said, or for lack of progress if that read gave nothing |
| `GrpcReaders.GrpcReader.FillHeader` | browser_xhttp_grpc.go:142-147 | what has been consumed stays parsed messages, then header, then frame bytes; an error is the one of the last read |
| `GrpcReaders.GrpcReader.ReadPrefix` | browser_xhttp_grpc.go:142-154 | clean end only before a prefix, an end inside one is unexpected; a prefix is refused exactly for a flag other than zero or a length over 4194304, and then the stream is malformed at that point; any other error is the one of the last read, and can be resumed |
| `GrpcReaders.GrpcReader.PrepareFrame` | browser_xhttp_grpc.go:155-159 | the array is reused or replaced without losing the part of the message it already holds, and only when no unread payload lies in it |
| `GrpcReaders.GrpcReader.FillFrame` | browser_xhttp_grpc.go:160 | what has been consumed stays parsed messages, then header, then frame bytes; an error is the one of the last read |
| `GrpcReaders.GrpcReader.ReadBody` | browser_xhttp_grpc.go:160-165 | an end of file inside a message is unexpected; any other failure is the one of the last read and leaves a state that can be resumed |
| `GrpcReaders.GrpcReader.FinishMessage` | browser_xhttp_grpc.go:166-184 | the cache is the stretch of the frame that holds the payload of this message, or the message is malformed |
| `GrpcReaders.GrpcReader.ReadMessage` | browser_xhttp_grpc.go:141-185 | one whole message more has been parsed, or the last read failed and the call can be resumed, or the stream is malformed here |
| `GrpcReaders.GrpcReader.FillCache` | browser_xhttp_grpc.go:110-118 | empty messages are skipped and the loop ends, on any wire; it fails only where a message does |
| `GrpcReaders.GrpcReader.HandOut` | browser_xhttp_grpc.go:119-121 | delivered bytes and unread cache together do not change; the rest of the buffer is untouched |
| `GrpcReaders.GrpcReader.Fail` | browser_xhttp_grpc.go:111-117 | the first error that is not of the context is kept, and nothing of a malformed message counts as payload |
| `GrpcReaders.GrpcReader.Deliver` | browser_xhttp_grpc.go:119-121 | at least one byte is delivered whenever there is room |
| `GrpcReaders.GrpcReader.ReadContext` | browser_xhttp_grpc.go:98-122 | after every call delivered bytes and cache are the payload of the bytes consumed; a message is called malformed exactly if the stream goes on with one that is refused, for a flag, a length over 4194304 or its body; any other error is the context's, the one kept from before, or what the last read of the transport said -- an end of file clean exactly when nothing of a message is left over; context errors change nothing for later calls, any other is returned by all of them |
| `GrpcReaders.GrpcReader.ReadMore` | browser_xhttp_grpc.go:104-121 | one call of a reader without an error: bytes, or an error that is the truth about the bytes consumed and is kept unless it is of the context |
| `GrpcReaders.GrpcReader.FillOrFail` | browser_xhttp_grpc.go:110-118 | messages are taken until there is payload to hand out, or the error is kept |
| `GrpcReaders.GrpcReader.VerdictIsJudged` | browser_xhttp_grpc.go:148-182 | what is said of the stream is true of the bytes behind the decoded messages, with the rules of the wire written out |
| `GrpcReaders.GrpcReader.BegunIsLeftOver` | browser_xhttp_grpc.go:143-146 | a message has been begun exactly if bytes are left over |
| `GrpcReaders.GrpcReader.Release` | browser_xhttp_grpc.go:187-194 | the first error, or a closed pipe, is what later reads return |
| `GrpcReaders.GrpcReader.ValidIsSound` | browser_xhttp_grpc.go:98-185 | in every reachable state the resumable decoder agrees with decoding all consumed bytes at once |
| `GrpcReaders.GrpcReader.HungryIsSound` | browser_xhttp_grpc.go:141-165 | the partial message held between calls is exactly what whole-stream decoding leaves undecoded |
| `GrpcEndToEnd.DecoderFollowsEncoder` | browser_xhttp_grpc.go:59-185 | whatever part of the encoded stream has been consumed decodes without error to a prefix of what the encoder was given, the whole stream to all of it |
| `GrpcEndToEnd.Transmit` | browser_xhttp_grpc.go:59-185 | whole runs of encoder, transport and decoder, for every cut, buffer size and interruption: what is received is a prefix of the payload, never malformed, and the whole payload when both ends came to the end; over a transport that fails only by finitely many interruptions it is the payload and then EOF, within a bounded number of calls |
| `GrpcEndToEnd.Encode` | browser_xhttp_grpc.go:59-81 | the encoder called again and again over a source that cuts and fails as it likes: the wire is the encoding of chunks of the payload, all of it at the end, which is reached in a bounded number of calls when the source does not fail |
| `GrpcEndToEnd.Receive` | browser_xhttp_grpc.go:98-185 | the decoder called again and again with interruptions: what is received is a prefix of the payload of what was consumed, at the end of file all of it; over a good transport a bounded number of calls ends with EOF, unexpected exactly if a part of a message is left over, or with the malformed message |
| `GrpcEndToEnd.ReceiveSome` | browser_xhttp_grpc.go:98-122 | one such call: it can be resumed, or its error is the truth about the bytes consumed; over a good transport it brings a byte, uses up an interruption, or is at the end |
| `GrpcEndToEnd.EncodeSome` | browser_xhttp_grpc.go:59-81 | one call of the encoder: bytes of the encoding, or the error of the source; from a source that does not fail, bytes or the end |
| `GrpcEndToEnd.PayloadGrows` | browser_xhttp_grpc.go:98-185 | more of a stream never has less payload |
| `GrpcEndToEnd.WireBound` | browser_xhttp_grpc.go:72-76 | the stream is at most ten times as long as its payload |
| `GrpcEndToEnd.CleanEndIsAtAFrame` | browser_xhttp_grpc.go:143-146 | a clean end comes after a whole number of the chunks that were sent |
| `Protowire.VarintRoundTripAt` | browser_xhttp_grpc.go:75-76 | a varint is read back from its encoding at any position, whatever follows |
| `PaddingStream.RoundTrip` | naive_conn.go:45-112 | the data of any writes comes back from their frames, for every padding size |
| `PaddingStream.CutAnywhere` | naive_conn.go:45-90 | from any prefix of the wire a prefix of the data can be read: no header or padding byte is ever exposed |
| `PaddingStream.PayloadGrows` | naive_conn.go:45-90 | more wire only ever adds data at the end, in every state of the reader |
| `PaddingStream.PayloadFrame` | naive_conn.go:92-112 | a frame gives up exactly its data, then the reader is behind it |
| `PaddingStream.PayloadData` | naive_conn.go:46-56 | the data of a frame may be taken in any number of pieces |
| `PaddingStream.PayloadAfterHeader` | naive_conn.go:71-88 | behind a header as much data is due as the header says, then as much padding |
| `PaddingStream.EncodeSnoc` | naive_conn.go:92-112 | a write adds its frame at the end of the wire, as long as fewer than eight were framed |
| `PaddingStream.RawReadingIsExact` | naive_conn.go:174-176 | reading the wire directly is exact if and only if all 8 headers are read and no padding is due |
| `PaddingConns.PaddingConn.ReadWithPadding` | naive_conn.go:45-90 | a successful read yields the next bytes of the data whatever the buffer size and the segmentation, and counts a header exactly when no data was due and fewer than 8 had been read; a failed one fails with what the last read of the transport said and has lost exactly the header or padding bytes that this says |
| `PaddingConns.PaddingConn.ReadRemaining` | naive_conn.go:46-56 | inside a frame a read takes data, and a failed one changes nothing and reports the error of the transport |
| `PaddingConns.PaddingConn.ReadHeader` | naive_conn.go:65-76 | the header is read in front of the data, in the caller's buffer if it fits; an error is that of the last read, an end inside the header unexpected |
| `PaddingConns.PaddingConn.ReadFrame` | naive_conn.go:64-88 | the first bytes of a frame overwrite the header in the buffer, the rest of the frame is remembered; where a failure leaves the reader, and with which error |
| `PaddingConns.PaddingConn.ReadRaw` | naive_conn.go:89 | after the eighth frame reads pass through, with their errors |
| `PaddingConns.PaddingConn.SkipPadding` | naive_conn.go:57-63 | padding is skipped as a whole, or the read fails inside it |
| `PaddingConns.PaddingConn.WriteWithPadding` | naive_conn.go:92-112 | while fewer than 8 writes were framed the wire grows by a frame -- two bytes of length, one of padding size, the data, zeros -- and from then on by the data itself; the count of frames grows even when the write fails, a failed write leaves a part of the frame on the wire, and its error and count are those of the writer |
| `PaddingConns.PaddingConn.WriteChunked` | naive_conn.go:133-151 | any amount of data goes out in chunks of 65535 bytes and a last one that may be shorter, in order, up to a first one that the writer below failed, of which a part may be on the wire |
| `PaddingConns.PaddingConn.WriteBuffer` | naive_conn.go:114-131 | the header and the padding are put around the data in the caller's buffer; more than 65535 bytes are chunked while frames are due; it fails only as the writer below does, with a part of a write on the wire |
| `PaddingConns.PaddingConn.AddPadding` | naive_conn.go:114-131 | what is in the buffer becomes its frame, in place, as long as fewer than 8 have been made |
| `PaddingConns.PaddingConn.ReplaceableOnlyWithoutPadding` | naive_conn.go:174-176 | where the code allows the reader to be bypassed, all 8 headers have been read, and doing so is right if and only if no padding is due |
| `PaddingConns.BypassWithPaddingDue` | naive_conn.go:174-176 | 8 frames read by the code itself, the last with any padding, arrive where the bypass is allowed and wrong |
| `PaddingStream.YieldsCompose` | naive_conn.go:45-90 | what several reads give up is what they give up together |
| `PaddingStream.ReadsYield` | naive_conn.go:45-90 | a successful read, by any of its branches, gives up the next data and nothing else |
| `PaddingStream.ReadsShorten` | naive_conn.go:45-90 | and consumes some of the wire if there is room for data |
| `PaddingConns.ReaderFollowsWriter` | naive_conn.go:45-151 | however reads are cut, what was read is a prefix of what was written, and all of it once the wire is used up |
| `PaddingEndToEnd.Transmit` | naive_conn.go:45-151 | whole runs of writer, transport and reader, with bytes and buffers, for every cut, buffer size and amount of padding: what is read is a prefix of what was written, and all of it at the end; when nothing fails that end is met within a bounded number of reads, and the wire is as long as the data and three bytes and the padding for each of the first 8 writes |
| `PaddingEndToEnd.Send` | naive_conn.go:92-151 | any mixture of writes and buffer writes puts the frames of exactly their data on the wire, none over 65535 bytes while 8 are not reached, up to the first failure and a part of the write that failed; a writer that does not fail gets all |
| `PaddingEndToEnd.Receive` | naive_conn.go:45-90 | any number of reads with buffers of any size, also of none, yields the next data; over a transport without failures the end is met within a bounded number of reads |
| `PaddingEndToEnd.SendPiece` | naive_conn.go:114-151 | one write, either way: the frames of the piece, or a part of them and the error of the writer |
| `PaddingEndToEnd.ReceiveSome` | naive_conn.go:45-90 | one read: the next data, some if there is room, or a failure; at the end of the wire everything has been read |
| `PaddingEndToEnd.WireBound` | naive_conn.go:92-112 | the wire is the data and the overhead of the first 8 writes, at most 258 bytes each |
| `PaddingEndToEnd.SentSplit` | naive_conn.go:92-151 | what two writers in a row have sent is what one writer would have sent |
| `PaddingStream.AdvanceIsSum` | naive_conn.go:93-111 | each write is framed and counted until 8 have been, and none after that |
| `PaddingWire.FirstEightAreFramed` | naive_conn.go:92-112 | a write is put on the wire as a frame if and only if fewer than 8 were before; a frame byte by byte |
| `PaddingWire.WireLength` | naive_conn.go:92-112 | the wire of any writes is as long as their data, three header bytes and the padding of each of the first 8 |
| `PaddingWire.OnlyDataBehindEight` | naive_conn.go:111 | behind the frames of the first 8 writes there is nothing but data |
| `PaddingWire.OneRead` | naive_conn.go:45-90 | a successful read takes a header exactly while fewer than 8 have been read and no data is due; its bytes say what is due next |
| `PaddingConns.RetryIsSafe` | naive_conn.go:57-82 | wherever a read can fail, going on afterwards is safe, if and only if data is due, or all headers are read and at most one byte of padding is due |
| `PaddingConns.HeaderByteLost` | naive_conn.go:71-74 | for every state with a header to come, a wire on which a read that can fail there makes the next one misread the header |
| `PaddingConns.PaddingByteLost` | naive_conn.go:58-61 | for every state with more padding due, a wire on which a read that can fail there makes the next one drop data |
| `PaddingConns.FailAt` | naive_conn.go:57-82 | each such failure is brought about by the code itself, over a transport that is cut at that byte |
| `DuplexRuns.NativeCallsInOrder` | browser_xhttp_duplex.go:96-133 | the rules of the native stream are never broken: cancelled at most once and only after the start, one read and one write outstanding at a time and none begun once cancelled, destroyed exactly once by the time the request is over, nothing after that |
| `DuplexRuns.NothingAfterDestroy` | browser_xhttp_duplex.go:216-265 | no later step of any run makes a native call |
| `DuplexRuns.JudgeCounts` | browser_xhttp_duplex.go:96-133 | what the order of calls means for how often each is made |
| `DuplexRuns.BuffersAreNotShared` | browser_xhttp_duplex.go:32-35 | the worker never fills the write buffer while the native stream owns it, a read is only started when none is outstanding; buffers are destroyed only when both owners are gone, for good |
| `DuplexRuns.OneAtATime` | browser_xhttp_duplex.go:216-265 | a step that hands a read or a write over finds none outstanding |
| `DuplexRuns.ResponseIsConserved` | browser_xhttp_duplex.go:170-187 | delivered bytes followed by pending ones are the completed reads; an outstanding read finds nothing pending |
| `DuplexRuns.NeverStalls` | browser_xhttp_duplex.go:216-224 | after good headers and until an error, a read is outstanding if and only if nothing is pending |
| `DuplexRuns.NoLostWakeup` | browser_xhttp_duplex.go:115-118 | a reader or worker with something to do has missed no notification |
| `DuplexRuns.EndIsReached` | browser_xhttp_duplex.go:85-92 | once the request is over, four steps of the worker and the cleanup at most destroy the buffers; a worker in the upload queue gets out because the cleanup closes the queue |
| `DuplexRuns.ComesNearer` | browser_xhttp_duplex.go:85-92 | each such step, in any order, comes nearer to that end |
| `DuplexRuns.CanGoOn` | browser_xhttp_duplex.go:85-92 | and until then one of them is possible |
| `DuplexRuns.RunGoesOn` | browser_xhttp_duplex.go:340-351 | the first error and every end are never taken back |
| `DuplexRuns.RunKeepsInv` | browser_xhttp_duplex.go:96-369 | the whole invariant holds in every state of every run, whatever order the steps take |
| `DuplexRuns.RunIsOrderly` | browser_xhttp_duplex.go:96-369 | the order of native calls agrees with the flags and buffers in every state of every run |
| `DuplexModel.StepKeeps` | browser_xhttp_duplex.go:96-369 | every step keeps the invariant |
| `DuplexModel.CancelKeeps` | browser_xhttp_duplex.go:120-133 | cancelling, before or after the start, leaves an error and keeps every party's promises |
| `DuplexModel.StartReadKeeps` | browser_xhttp_duplex.go:216-224 | a read is only started where it is allowed, and its failure cancels |
| `DuplexModel.ReadPassKeeps` | browser_xhttp_duplex.go:178-193 | taking bytes starts the next read exactly when they are used up |
| `DuplexModel.UploadPassKeeps` | browser_xhttp_duplex.go:236-264 | the worker hands its buffer over and does not touch it before it is back |
| `DuplexModel.HeadersKeep` | browser_xhttp_duplex.go:276-297 | good headers start the reading; bad ones start none, leave the request without headers, and cancel it with their error, as long as there is none |
| `DuplexTables.RunKeepsTo` | browser_xhttp_duplex.go:85-369 | over every run the error is that of the first failing event, given by a table over events, and the native stream gets exactly the calls of the table |
| `DuplexTables.StepKeepsTo` | browser_xhttp_duplex.go:85-369 | so it is for every step |
| `DuplexTables.ErrorHasCause` | browser_xhttp_duplex.go:120-133 | an error has an event that is its cause, and nothing had gone wrong before that |
| `DuplexTables.BadHeadersCancel` | browser_xhttp_duplex.go:276-297 | a refused response ends the request with its error, the stream is cancelled, and nothing is ever read or delivered |
| `DuplexTables.GoodHeadersCame` | browser_xhttp_duplex.go:216-224 | whatever is read, asked for or delivered, good headers came before |
| `DuplexTables.FlagsAreEvents` | browser_xhttp_duplex.go:267-297 | a request is ready, has headers or is started if and only if the event for it has come |
| `DuplexTables.UploadGoesOn` | browser_xhttp_duplex.go:226-265 | while nothing has gone wrong the worker waits only for the stream, for bytes, or for a write that the stream has |
| `DuplexModel.ReadCompletedKeeps` | browser_xhttp_duplex.go:319-331 | a completion becomes pending, or ends the response |
| `DuplexModel.TerminatedKeeps` | browser_xhttp_duplex.go:353-369 | the terminal callback releases both buffers and ends the request |
| `DuplexRequests.DuplexRequest.Start` | browser_xhttp_duplex.go:96-113 | the transition of the start, and the error it returns |
| `DuplexRequests.DuplexRequest.CancelLocked` | browser_xhttp_duplex.go:120-133 | the transition of a cancellation |
| `DuplexRequests.DuplexRequest.ReadPass` | browser_xhttp_duplex.go:178-193 | one pass of the read loop, with the bytes it copies and the error it returns |
| `DuplexRequests.DuplexRequest.StartReadLocked` | browser_xhttp_duplex.go:216-224 | the transition that starts a read |
| `DuplexRequests.DuplexRequest.UploadPass` | browser_xhttp_duplex.go:236-264 | what the worker does with one result of the queue |
| `DuplexRequests.DuplexRequest.IssueWrite` | browser_xhttp_duplex.go:242-245 | handing the write buffer over |
| `DuplexRequests.DuplexRequest.WriteWait` | browser_xhttp_duplex.go:246-251 | waiting while the write is outstanding |
| `DuplexRequests.DuplexRequest.UploadEnd` | browser_xhttp_duplex.go:253-263 | the end of one round of the worker |
| `DuplexRequests.DuplexRequest.OnStreamReady` | browser_xhttp_duplex.go:267-274 | the transition of the callback |
| `DuplexRequests.DuplexRequest.OnResponseHeaders` | browser_xhttp_duplex.go:276-297 | bad headers end the request with that error, and no read is begun; good ones are remembered, and the first read is begun while the request is good |
| `DuplexRequests.DuplexRequest.OnReadCompleted` | browser_xhttp_duplex.go:319-331 | the transition of the callback |
| `DuplexRequests.DuplexRequest.OnWriteCompleted` | browser_xhttp_duplex.go:333-338 | the transition of the callback |
| `DuplexRequests.DuplexRequest.FinishLocked` | browser_xhttp_duplex.go:340-351 | the end of the request, at most once |
| `DuplexRequests.DuplexRequest.OnTerminal` | browser_xhttp_duplex.go:353-369 | the transition of the three terminal callbacks |
| `DuplexRequests.DuplexRequest.CloseQueue` | browser_xhttp_duplex.go:85-92 | the cleanup closes the upload queue |
| `DuplexSessions.DuplexSession.Read` | browser_xhttp_duplex.go:170-193 | a reader gets the next bytes that arrived, and an error only when it has got all |
| `DuplexSessions.DuplexSession.Upload` | browser_xhttp_duplex.go:226-264 | what the worker takes from the queue is in the write buffer when that is handed over, and nobody else has it |
| `DuplexSessions.DuplexSession.WriteDone` | browser_xhttp_duplex.go:333-338 | what the library read out of the buffer, as late as it could, is what was taken from the queue |
| `DuplexSessions.DuplexSession.ReadDone` | browser_xhttp_duplex.go:319-331 | what the library put into the read buffer has arrived |
| `DuplexSessions.Drive` | browser_xhttp_duplex.go:85-369 | the object with its two buffers, driven by anybody in any order: bytes are conserved both ways, no buffer is with the library once destroyed, the rules of the native stream are kept; the error is that of the first failing event, the calls are those of the table, and bytes are received only after good headers |
| `SerialExecutor.TasksRunInOrder` | streaming_request.go:35-59 | tasks begin in the order of submission, each once, one at a time; `running` holds exactly when one drain exists; no waiting task is stranded |
| `SerialExecutor.StepKeeps` | streaming_request.go:35-59 | submissions by anyone, also by a running task, keep this |
| `StreamingExecutors.Executor.Submit` | streaming_request.go:35-44 | the locked part of a submission: the task is last in the queue, and whether a new drain has to be handed over, which is when none exists |
| `StreamingExecutors.Executor.TakeNext` | streaming_request.go:46-55 | the locked part of the drain loop: the task it takes is the next of those submitted, and it stops exactly when there is none |
| `StreamingExecutors.Drive` | streaming_request.go:35-59 | any use of the executor: tasks begin in the order of submission, each once, and all when nothing is left to do |
| `StreamingRuns.DestroyedExactlyOnce` | streaming_request.go:357-377 | provider, request, callback and executor are destroyed exactly once by the time `done` is closed, in order, and the native rules are kept throughout |
| `StreamingRuns.NothingAfterCleanup` | streaming_request.go:357-377 | no task behind the cleanup, and no other step, makes a native call |
| `StreamingRuns.DestroyedWhenIdle` | streaming_request.go:357-377 | at that time no upload, worker, read or callback is left; only harmless tasks can be queued |
| `StreamingRuns.UploadsAreAnswered` | streaming_request.go:388-437 | each native upload request gets one notification; the count of active uploads is right and never negative |
| `StreamingSinks.OneNotificationEach` | streaming_request.go:408-416 | the log of native calls has exactly one notification for each upload request, at most one is owed at a time, and none when the provider is destroyed |
| `StreamingSinks.StepKeepsSinks` | streaming_request.go:388-437 | every step makes as many notifications as it counts |
| `StreamingRuns.EndIsReached` | streaming_request.go:341-377 | a request that is over is destroyed after a bounded number of steps of the executor and the workers; a worker in its body gets out because the executor has closed that body |
| `StreamingRuns.ComesNearer` | streaming_request.go:341-377 | each such step comes nearer to the end |
| `StreamingRuns.NeverStuckAtTheEnd` | streaming_request.go:357-377 | until then the executor or a worker can go on |
| `StreamingRuns.RunGoesOn` | streaming_request.go:341-356 | the first error, the end and every delivered byte are never taken back |
| `StreamingRuns.ErrorsCancel` | streaming_request.go:226-245 | an error that is not the end has been passed to the native library or is queued to be |
| `StreamingRuns.ResponseIsConserved` | streaming_request.go:160-218 | delivered, pending and queued bytes are the completed reads in order; nothing is on its way when the end comes |
| `StreamingRuns.NeverStalls` | streaming_request.go:295-329 | after a good response and until an error, bytes are pending or the next read is outstanding, completed or queued |
| `StreamingRuns.RunKeepsInv` | streaming_request.go:128-377 | the invariant holds in every state of every run |
| `StreamingSafety.StepKeeps` | streaming_request.go:128-377 | every step keeps the invariant |
| `StreamingSafety.StartKeeps` | streaming_request.go:130-143 | a start, early, late, repeated or refused |
| `StreamingSafety.StartReadKeeps` | streaming_request.go:197-218 | a read is started only where it is allowed, and its failure cancels |
| `StreamingSafety.CancelKeeps` | streaming_request.go:230-242 | a queued cancellation, before or after start and end |
| `StreamingSafety.UploadDoneKeeps` | streaming_request.go:408-416 | the last upload of a request that is over queues the cleanup |
| `StreamingSafety.CleanupKeeps` | streaming_request.go:362-376 | the cleanup finds everything as it must be |
| `StreamingSafety.RedirectKeeps` | streaming_request.go:281-293 | a redirect is followed, or fails the request |
| `StreamingSafety.GoodResponseKeeps` | streaming_request.go:295-313 | a good response starts the reading |
| `StreamingSafety.ReadCompletedKeeps` | streaming_request.go:315-329 | a completion is stored without overwriting anything, an empty one asks again |
| `StreamingSafety.TerminalKeeps` | streaming_request.go:331-356 | the terminal callback leaves an invariant state whose error is the one that was there, or else the one reported |
| `StreamingTables.RunKeepsTo` | streaming_request.go:128-380 | over every run the error is that of the first failing event, given by a table over events and tasks, and the native library gets exactly the calls of the table |
| `StreamingTables.StepKeepsTo` | streaming_request.go:128-380 | so it is for every step |
| `StreamingTables.ErrorHasCause` | streaming_request.go:269-356 | an error has an event that is its cause, and nothing had gone wrong before that |
| `StreamingTables.EndIsTheEnd` | streaming_request.go:331-349 | readers are told the end only if the library reported it, a redirect was declined, or the request was cancelled with it, and nothing had gone wrong before |
| `StreamingTables.FailureIsTold` | streaming_request.go:334-349 | a failure that the library reports is what readers are told from then on, unless something else came first |
| `StreamingTables.FailuresCancel` | streaming_request.go:269-279 | an error that does not come from the library is passed on to it |
| `StreamingSafety.PostKeeps` | streaming_request.go:281-339 | any callback the native contract allows |
| `StreamingReaders.OneReaderIsWoken` | streaming_request.go:188-193 | a set of at most one reader is never left asleep with bytes pending or after the end, whatever everybody does |
| `StreamingReaders.SecondReaderSleeps` | streaming_request.go:188-193 | for any two different readers, a run of their reads in which one stays asleep with bytes pending and nothing left to do |
| `StreamingReaders.ReadersAreWoken` | streaming_request.go:188-193 | in all runs with reads by a given set of goroutines nobody is left asleep, if and only if the set has at most one member |
| `StreamingReaders.ReadersInTurnAreWoken` | streaming_request.go:188-193 | readers that do not begin a read while another waits are never left asleep, however many they are |
| `StreamingRequests.StreamingRequest.Finish` | streaming_request.go:341-356 | the transition of the end, at most once |
| `StreamingRequests.StreamingRequest.Cleanup` | streaming_request.go:357-362 | cleanup is queued once, when the end and the last upload are both past |
| `StreamingRequests.StreamingRequest.Fail` | streaming_request.go:269-279 | the first error is kept and the request cancelled |
| `StreamingRequests.StreamingRequest.StartRead` | streaming_request.go:197-218 | the transition of a read start |
| `StreamingRequests.StreamingRequest.CancelWithError` | streaming_request.go:226-245 | the transition of a cancellation from outside |
| `StreamingRequests.StreamingRequest.ReadPass` | streaming_request.go:168-187 | one pass of the read loop, with the bytes it copies and the error it returns |
| `StreamingRequests.StreamingRequest.RunStart` | streaming_request.go:130-143 | the start task |
| `StreamingRequests.StreamingRequest.RunCancel` | streaming_request.go:230-242 | the cancellation task |
| `StreamingRequests.StreamingRequest.OnRedirectReceived` | streaming_request.go:281-293 | the transition of the callback |
| `StreamingRequests.StreamingRequest.OnResponseStarted` | streaming_request.go:295-313 | without a hook of the caller a status other than 200 fails the request with that status; else the first read is begun |
| `StreamingRequests.StreamingRequest.OnReadCompleted` | streaming_request.go:315-329 | the transition of the callback |
| `StreamingRequests.StreamingRequest.OnTerminal` | streaming_request.go:331-339 | the request is over, and its error is the one reported unless there was one |
| `StreamingRequests.StreamingRequest.OnUploadRequest` | streaming_request.go:389-396 | a reader upload is counted and given to a worker, a fixed one answered at once |
| `StreamingRequests.StreamingRequest.RunUploadDone` | streaming_request.go:408-416 | the notification task of a worker |
| `StreamingRequests.StreamingRequest.RunCleanup` | streaming_request.go:362-376 | the cleanup task |
| `StreamingRequests.StreamingRequest.RunNext` | streaming_request.go:52-56 | the oldest task is taken and run |
| `StreamingSessions.StreamingSession.Read` | streaming_request.go:160-195 | a reader gets the next bytes that arrived, and an error only when nothing is pending |
| `StreamingSessions.StreamingSession.RunTask` | streaming_request.go:46-59 | a completion delivers what the library put into the buffer of its read |
| `StreamingSessions.StreamingSession.Post` | streaming_request.go:281-339 | the library fills the buffer it was lent, and nobody else has that |
| `StreamingSessions.Drive` | streaming_request.go:35-437 | the object with its buffers, driven by anybody in any order: bytes are conserved, the native objects are destroyed by the time the request is done, the native rules are kept, the error is that of the first failing event, and readers are told the end only if the library, a declined redirect or a canceller said so |
| `UploadBodyModel.BodiesAreClosedOnce` | streaming_request.go:519-559 | no body is closed twice, and each has been closed once a stop and any rewind are through |
| `UploadBodyModel.SettlingGoesOn` | streaming_request.go:519-559 | until then somebody who has a body in hand can go on |
| `UploadBodyModel.LengthIsKept` | streaming_request.go:504-516 | with a declared length no more is reported since the last rewind, and no final chunk; an early end is an error |
| `UploadBodyModel.ReportsExactly` | streaming_request.go:504-516 | the error of a read is that of the body, but for an end of file under a declared length: then none if the length is exactly reached by bytes of this read, and an unexpected end otherwise |
| `UploadBodyModel.StoppedByStop` | streaming_request.go:550-559 | the provider is closed if and only if somebody has stopped it, and then has no body |
| `UploadBodyModel.StepKeeps` | streaming_request.go:495-559 | each body is closed or in exactly one hand, after every step |
| `UploadBodies.ReaderUploadProvider.Read` | streaming_request.go:495-517 | the count and the error of one read, written out: those of the body, but for an end of file under a declared length |
| `UploadBodies.ReaderUploadProvider.Serve` | streaming_request.go:397-417 | a body that gives nothing is asked at most 100 times; the answer is that of the first read that gives anything, and the notification carries it |
| `UploadBodies.ReaderUploadProvider.BeginRewind` | streaming_request.go:520-530 | the old body is taken out of reach of everybody else |
| `UploadBodies.ReaderUploadProvider.Install` | streaming_request.go:538-547 | a new body is installed, or left to be closed if a stop came first |
| `UploadBodies.ReaderUploadProvider.Stop` | streaming_request.go:550-559 | a stop takes the body it has to close |
| `BidiRuns.ReadHandsBack` | bidirectional_conn.go:125-177 | a read returns only when the native stream no longer has its buffer, in every interleaving |
| `BidiRuns.WriteHandsBack` | bidirectional_conn.go:179-231 | exactly when writes get their buffers back: a run has a state in which the writer's own steps can end its call while the native stream has the buffer, if and only if the end of input meets an unfinished write somewhere in it |
| `BidiRuns.WriteMayReturnEarly` | bidirectional_conn.go:210-230 | in any reachable state, wherever the writer is, at most three steps of its own and of the termination can take it out of its call without its buffer, if and only if the buffer is with the stream and the end of input has ended the connection or is about to |
| `BidiRuns.HeldAfterMeeting` | bidirectional_conn.go:339-342 | a run has such a state if and only if the end of input meets a write that is unfinished, or is begun before the termination |
| `BidiRuns.WriteReturnsEarly` | bidirectional_conn.go:339-342 | a complete run in which this happens |
| `BidiRuns.CountBelongsToCall` | bidirectional_conn.go:156-158 | a returned count is that of the call's own completion and fits its buffer |
| `BidiRuns.NothingIsSkipped` | bidirectional_conn.go:345-351 | what calls report is a prefix of what the stream moved, and all of it while the connection is open and no deadline has passed |
| `BidiRuns.CompletionIsTaken` | bidirectional_conn.go:345-351 | a completion that waits on the network thread has a branch to take, at the latest after the caller's next step |
| `BidiRuns.CallersLeave` | bidirectional_conn.go:159-175 | once the connection is done every caller can go on to its return |
| `BidiRuns.NativeCallsInOrder` | bidirectional_conn.go:98-123 | the rules of the native stream are never broken: cancelled at most once, one read and one write outstanding at a time, destroyed exactly once by the time the connection is done, nothing after that |
| `BidiRuns.NothingAfterDestroy` | bidirectional_conn.go:106-123 | no later step makes a native call or changes the error |
| `BidiRuns.HookRunsOnce` | bidirectional_conn.go:237-248 | the termination hook runs once, whether it is set before or after the termination |
| `BidiRuns.RunIsOrderly` | bidirectional_conn.go:87-379 | the invariant, the order of native calls and the accounts hold in every state of every run |
| `BidiTables.RunKeepsTo` | bidirectional_conn.go:87-379 | over every run a connection that is done has the error of the first event that ended it, given by a table over events, and the native stream gets exactly the calls of the table |
| `BidiTables.StepKeepsTo` | bidirectional_conn.go:87-379 | so it is for every step |
| `BidiTables.LeaversAreTold` | bidirectional_conn.go:125-231 | a call that leaves without its count returns that error, or that of a close, and then the connection has been closed |
| `BidiTables.GateOpensFor` | bidirectional_conn.go:68-85 | a call gets through its gate if and only if what its direction waits for has come: response headers if it was made to wait for them, else the stream being ready |
| `BidiTables.FlagsAreEvents` | bidirectional_conn.go:256-337 | a connection is closed if and only if it was closed before its end, done if and only if it was terminated or failed to start, and has its hook if and only if that was set |
| `BidiTables.ReleasesAreEvents` | bidirectional_conn.go:339-379 | a direction is released if and only if the connection ended or a completion of it saw the end |
| `BidiSafety.StepKeeps` | bidirectional_conn.go:87-379 | every step keeps the ownership of both buffers |
| `BidiSafety.StepKeepsOrder` | bidirectional_conn.go:98-123 | every step keeps the order of native calls |
| `BidiSafety.StepBalances` | bidirectional_conn.go:125-231 | every step keeps the accounts of both directions |
| `BidiSafety.IssueKeeps` | bidirectional_conn.go:143-154 | a buffer is only handed over on a connection that is neither closed nor done |
| `BidiSafety.GiveUpKeeps` | bidirectional_conn.go:159-162 | a passed deadline cancels the stream |
| `BidiSafety.HandOverKeeps` | bidirectional_conn.go:156-166 | a completion meets its receiver |
| `BidiSafety.DropKeeps` | bidirectional_conn.go:345-349 | a completion that sees the end releases the caller |
| `BidiSafety.TerminateKeeps` | bidirectional_conn.go:106-118 | a termination releases both directions |
| `BidirectionalConns.BidirectionalConn.Start` | bidirectional_conn.go:87-96 | the locked part of a start |
| `BidirectionalConns.BidirectionalConn.CancelLocked` | bidirectional_conn.go:98-104 | the stream is cancelled at most once |
| `BidirectionalConns.BidirectionalConn.Terminate` | bidirectional_conn.go:106-123 | the termination, and whether the hook has to be run |
| `BidirectionalConns.BidirectionalConn.IssueRead` | bidirectional_conn.go:143-154 | the locked part of a read, and the result of one that is too late |
| `BidirectionalConns.BidirectionalConn.IssueWrite` | bidirectional_conn.go:197-208 | the locked part of a write, and the result of one that is too late |
| `BidirectionalConns.BidirectionalConn.SetOnTerminate` | bidirectional_conn.go:237-248 | the hook is stored, or run at once |
| `BidirectionalConns.BidirectionalConn.Close` | bidirectional_conn.go:256-273 | the close, and its result the second time |
| `BidirectionalConns.BidirectionalConn.OnReadDropped` | bidirectional_conn.go:345-349 | the branch of a completion that sees the end |
| `BidirectionalConns.BidirectionalConn.OnWriteDropped` | bidirectional_conn.go:355-359 | the branch of a completion that sees the end |
| `BidirectionalConns.BidirectionalConn.OnReadCompleted` | bidirectional_conn.go:339-344 | a completion without bytes goes on to the termination, any other to the select |
| `BidirectionalConns.BidirectionalConn.OnReadTaken` | bidirectional_conn.go:350 | the branch of a completion that meets its receiver |
| `BidiSessions.BidiSession.CompleteRead` | bidirectional_conn.go:339-352 | the stream puts bytes into the buffer of the read in progress, and into no other |
| `BidiSessions.BidiSession.CompleteWrite` | bidirectional_conn.go:354-362 | the stream reads out of the buffer exactly what the write in progress was given |
| `BidiSessions.BidiSession.TakeRead` | bidirectional_conn.go:156-158 | a read returns the bytes that its own completion put into its buffer |
| `BidiSessions.Drive` | bidirectional_conn.go:87-379 | the object with the buffers of its callers, who use them again as soon as they may, driven by anybody in any order: readers get a prefix of what was delivered, every write carried out is of the bytes its call was given, nothing is missing while the connection is good, and without an early end no buffer stays with the stream |
| `NaiveClientRuns.ChannelsCloseOnce` | naive_client.go:196-210 | `started` and `closed` are closed at most once, and only in the phases that allow it |
| `NaiveClientRuns.OneCloserShutsDown` | naive_client.go:569-576 | exactly one caller of Close carries out the shutdown, exactly while the client is closing; engines are destroyed at most once |
| `NaiveClientRuns.EnginesOutliveTheirUsers` | naive_client.go:588-609 | whoever is inside a dial or a reset, or has a live stream, finds the engines made and not destroyed |
| `NaiveClientRuns.NoComingBack` | naive_client.go:588-609 | once engines are destroyed both counts are zero for good and no dial is admitted any more |
| `NaiveClientRuns.ReservationIsReleasedOnce` | naive_client.go:484-533 | an admitted dial holds one reservation, given back exactly once by the termination of its stream; both counters count exactly these |
| `NaiveClientRuns.ShutdownWaitsForSomebody` | naive_client.go:593-597 | a shutdown that waits is waiting for a dial, a reset or a live stream |
| `NaiveClientRuns.ChannelsAreAnnounced` | naive_client.go:566-580 | a Close that waits for a channel, in whatever phase, waits for somebody who can go on to close it: the starter, or another caller of Close |
| `NaiveClientRuns.CloseIsNeverStuck` | naive_client.go:555-609 | as long as a call of Close has not returned, some call in progress or some stream can go on |
| `NaiveClientRuns.CloseMeansClosed` | naive_client.go:555-609 | once any Close has returned the client is closed for good, engines have been destroyed as often as they were made, both counters are zero, and no dial, reset or stream is left |
| `NaiveClientRuns.ClosedIsOver` | naive_client.go:588-609 | so it is in any closed client |
| `NaiveClientEnd.EverythingEnds` | naive_client.go:180-627 | as long as no new call is made the number of steps is bounded, in whatever order they are taken |
| `NaiveClientEnd.ComesNearer` | naive_client.go:180-627 | every step of a call in progress, or of a stream, comes nearer to that end |
| `NaiveClientEnd.ThenEveryCloseHasReturned` | naive_client.go:555-609 | when none of them can go on every call of Close has returned |
| `NaiveClientRuns.RunIsOrderly` | naive_client.go:180-627 | the invariant holds in every state of every run |
| `NaiveClientModel.StepKeeps` | naive_client.go:180-627 | every step of every goroutine keeps the invariant |
| `NaiveClientModel.AdmitKeeps` | naive_client.go:484-498 | admission under the mutex cannot disturb a shutdown |
| `NaiveClientModel.CloserKeeps` | naive_client.go:555-609 | every turn of the loop in Close keeps the invariant |
| `NaiveClientModel.ReturnsWhenClosed` | naive_client.go:555-586 | whichever way a caller of Close returns, the client is closed by then |
| `NaiveClientModel.ReleaseKeeps` | naive_client.go:623-627 | a release, repeated or not |
| `NaiveClients.NaiveClient.BeginStart` | naive_client.go:180-191 | one caller wins the right to start |
| `NaiveClients.NaiveClient.EnginesStarted` | naive_client.go:196-206 | engines are made once, and the phase is that of a started or of a failed client |
| `NaiveClients.NaiveClient.Announce` | naive_client.go:206-208 | the starter closes channels that are still open |
| `NaiveClients.NaiveClient.Create` | naive_client.go:523 | an admitted dial finds its engine made and not destroyed when it makes a connection |
| `NaiveClients.NaiveClient.Hook` | naive_client.go:528 | setting the termination hook, which is due at once if the stream has ended |
| `NaiveClients.NaiveClient.Launch` | naive_client.go:529-531 | starting the stream with the engine still there; a failed start terminates it |
| `NaiveClients.NaiveClient.LeaveDial` | naive_client.go:499 | the end of an admitted dial cannot take the counter below zero |
| `NaiveClients.NaiveClient.BeginSweep` | naive_client.go:452-459 | a reset is counted only while engines are there |
| `NaiveClients.NaiveClient.Admit` | naive_client.go:484-498 | the critical section that admits a dial or does not; an admitted one finds the engines made and not destroyed |
| `NaiveClients.NaiveClient.Release` | naive_client.go:623-627 | the reservation is given back once, and the counter stays at zero or above |
| `NaiveClients.NaiveClient.CloseCreated` | naive_client.go:559-564 | closing a client that never started: no engines, and both channels still open |
| `NaiveClients.NaiveClient.BeginClosing` | naive_client.go:569-575 | one caller wins the right to shut down, and no other is shutting down |
| `NaiveClients.NaiveClient.DestroyEngines` | naive_client.go:597-601 | engines are destroyed once, with both counters at zero and nobody left in a dial or with a reservation |
| `NaiveClients.NaiveClient.CloseChannel` | naive_client.go:561-562 | a caller of Close closes a channel that nobody has closed before |
| `NaiveClients.Drive` | naive_client.go:180-627 | the object driven by any goroutines in any order: channels and engines end at most once, the counters count exactly what is in progress, nobody is left when the engines are destroyed, and when a Close has returned the client is closed, with engines destroyed as often as made and nobody using them |
| `UploadRuns.AnyOrderReassembles` | browser_xhttp.go:484-551 | in whatever order requests arrive, putting them in order gives a prefix of the accepted bytes, and all that were sent when all have arrived |
| `UploadRuns.PostsAreContiguous` | browser_xhttp.go:503-549 | requests are numbered from zero without gaps, are nonempty and within the limit, carry a prefix of the accepted bytes, and at most the limit is in flight |
| `UploadRuns.StoppedForGood` | browser_xhttp.go:504-536 | after a failed start, a cancellation or the end no request follows, so no number is skipped |
| `UploadRuns.BatchIsConserved` | browser_xhttp.go:845-934 | the batch never exceeds its limit, and accepted bytes are sent, in hand, or in the batch, in order; they are dropped only when the loop stops early |
| `UploadRuns.EndComesLast` | browser_xhttp.go:898-921 | a loop that saw the end has drained everything ever accepted |
| `UploadRuns.NothingAfterClose` | browser_xhttp.go:852-859 | a closed batch accepts nothing more |
| `UploadRuns.WritesReportExactly` | browser_xhttp.go:682-712 | the totals that writes report stand for exactly the accepted bytes, across replaced deadlines; success means all |
| `UploadRuns.NoLostWakeup` | browser_xhttp.go:936-939 | neither a blocked writer nor the waiting loop misses a notification |
| `UploadRuns.ReceivedIsFaithful` | browser_xhttp.go:484-551 | what the receiver holds back and puts out belongs to the requests |
| `UploadRuns.RunKeepsInv` | browser_xhttp.go:484-551 | the invariant holds in every state of every run |
| `UploadModel.StepKeeps` | browser_xhttp.go:484-551 | every step keeps the invariant |
| `UploadModel.TryKeeps` | browser_xhttp.go:847-869 | every turn of the write loop |
| `UploadModel.InterruptedKeeps` | browser_xhttp.go:696-711 | every way a write context can end |
| `UploadModel.DrainKeeps` | browser_xhttp.go:898-921 | every turn of the drain loop |
| `UploadModel.PostStartedKeeps` | browser_xhttp.go:528-538 | a request that starts or fails to start |
| `UploadModel.PostDoneKeeps` | browser_xhttp.go:539-548 | a request that ends frees its slot |
| `UploadModel.BatchLimit` | browser_xhttp.go:485-489 | the batch limit is the configured one when it is positive, else 1000000 |
| `UploadModel.PostLimit` | browser_xhttp.go:496-500 | the limit of requests in flight is the configured one, or 30 |
| `UploadTables.WritesAreTold` | browser_xhttp.go:682-712 | over every run the results of all writes, in order, are those of a table over events; the error of the connection is the first one set, that of the batch the one it was first closed with |
| `UploadTables.LoopStopsFor` | browser_xhttp.go:510-550 | the loop stops if and only if a request failed to start, a cancellation was seen, or a closed batch was found empty |
| `UploadTables.LoopGoesOn` | browser_xhttp.go:505-550 | until then it waits only for bytes while there are none, and for a slot only while as many requests are in flight as may be |
| `UploadTables.LimitsAreConfigured` | browser_xhttp.go:485-500 | both limits are the configured ones for good, or 1000000 bytes and 30 requests |
| `UploadBatches.BrowserBatch.WriteContext` | browser_xhttp.go:845-877 | exactly p[..total] is appended, whatever others do during the waits; success means all, blocked means full and open, and an error is the one the batch was closed with or that of a context that was seen to have ended, looked at no more often than there was work in between |
| `UploadBatches.BrowserBatch.TakeBatch` | browser_xhttp.go:901-912 | a drain takes everything, which is within the limit |
| `UploadBatches.BrowserBatch.Accept` | browser_xhttp.go:860-864 | as many bytes as fit are appended, neither more nor less |
| `UploadBatches.BrowserBatch.CloseWithError` | browser_xhttp.go:925-934 | the first close wins |
| `UploadBatches.BatchReader.Read` | browser_xhttp.go:884-895 | bytes are handed out in order; io.EOF, and no other error, is reported once the batch is closed and every accepted byte has been handed out |
| `UploadBatches.XhttpConn.Write` | browser_xhttp.go:682-712 | the total stands for exactly p[..total], across any number of replaced deadlines; an error is the connection's, the batch's, or that of a context that ended for another reason than a replaced deadline |
| `UploadBatches.XhttpConn.SetError` | browser_xhttp.go:804-813 | the first error is kept |
| `Uplinks.EncodeUplink` | browser_xhttp.go:1076-1098 | the fields join to the encoded payload, are numbered from zero, within the chunk range except for the last, and as few as the smallest chunk allows |
| `Uplinks.UplinkRoundTrip` | browser_xhttp.go:1076-1098 | joining and decoding the fields gives the payload back, for every random choice |
| `Uplinks.CollectJoins` | browser_xhttp.go:1090-1094 | fields stored by number in any order are collected to the same string |
| `Uplinks.ChunkCount` | browser_xhttp.go:1081-1096 | full chunks are as few as the total length allows |
| `Uplinks.ChunkSize` | browser_xhttp.go:1006-1016 | the default ranges 2048-3072 for cookies, 3000-4000 for headers and the request limit for bodies; a configured range is kept, but for a floor of 64 |
| `Uplinks.Pick` | browser_xhttp.go:1199-1207 | a random choice stays within its range |
| `Uplinks.PickIsOnto` | browser_xhttp.go:1199-1207 | and every value of the range can be chosen |
| `Base64Url.RoundTrip` | browser_xhttp.go:1080 | decoding undoes the unpadded encoding, for every payload |
| `Base64Url.SplitRoundTrip` | browser_xhttp.go:1080 | regrouping bytes into six-bit values and back |
| `Base64Url.DigitsRoundTrip` | browser_xhttp.go:1080 | the alphabet is read back |
| `Base64Url.SplitKeepsNumber` | browser_xhttp.go:1080 | read as one number, the six-bit values are the bytes with zero bits behind them, up to the next multiple of six |
| `Base64Url.FillerIsZero` | browser_xhttp.go:1080 | the bits that fill up the last digit are zero |
| `Base64Url.Alphabet` | browser_xhttp.go:1080 | the alphabet is the one of section 5 of RFC 4648 |
| `Uplinks.GeneratePadding` | browser_xhttp.go:1208-1226 | both kinds of padding have exactly the wanted encoded length, within the space set aside, for every random choice; the one is the letter X again and again, the other symbols of the table |
| `Uplinks.Tokens` | browser_xhttp.go:1216-1225 | the loop ends, at exactly the wanted encoded length, with symbols of the table |
| `Uplinks.CodeLength` | browser_xhttp.go:1215 | letters and digits have codes of five to eight bits |
| `Uplinks.DigitCodes` | browser_xhttp.go:1215 | the code lengths of the digits |
| `Uplinks.CapitalCodes` | browser_xhttp.go:1215 | the code lengths of the capitals |
| `Uplinks.SmallCodes` | browser_xhttp.go:1215 | the code lengths of the small letters |
| `Uplinks.SymbolCount` | browser_xhttp.go:1216-1218 | how many symbols an encoded length stands for |
| `DnsNames.RedirectionIsInverted` | naive_dns.go:229-269 | an answer that carries the redirected name gets the original back, up to case and the final dot, with or without a port prefix |
| `DnsNames.RedirectedMatches` | naive_dns.go:229-246 | the redirected query asks for the other name under the same port |
| `DnsNames.OtherNamesStay` | naive_dns.go:252-262 | names of other servers are left alone, and only those |
| `DnsNames.PrefixedIsRewritten` | naive_dns.go:229-269 | a name under a port prefix becomes, as query and as owner, the same prefix, the separator, the other name and a final dot; as target it is left |
| `DnsNames.PlainIsRewritten` | naive_dns.go:229-269 | the name of the server, in any case and with or without a final dot, becomes the other name with one |
| `DnsNames.OtherIsKept` | naive_dns.go:229-269 | any other name is left as it is, but for the final dot of a query |
| `DnsNames.SameButForCase` | naive_dns.go:237-262 | names are taken for the same if and only if they are but for the case of letters |
| `DnsNames.Folded` | naive_dns.go:237-245 | letters are compared without their case, and everything else as it is |
| `DnsNames.CutAgain` | naive_dns.go:235-238 | the first separator is found again whatever name is put behind it |
| `DnsNames.CutShape` | naive_dns.go:234-238 | a name taken apart is its prefix, the separator and the rest |
| `DnsNames.FindIsFirst` | naive_dns.go:235 | the search finds the first separator, or there is none |
| `DnsNames.CutIsFirst` | naive_dns.go:234-238 | a name is cut at the first separator, with what is before and behind it, or has none |
| `DnsNames.PortIsRead` | naive_dns.go:365-379 | every port is read back from the name that asks for it |
| `DnsNames.PortIsAskedFor` | naive_dns.go:365-379 | a name asks for a port if and only if its part before the first separator is the label of a number from 1 to 65535; every other name asks for none |
| `DnsNames.ServicePort` | naive_dns.go:374-378 | a port is between 1 and 65535 |
| `DnsRecords.FilterInPlace` | naive_dns.go:392-402 | the filtering over the same array leaves the filtered parameters in front |
| `DnsRecords.FilterKeeps` | naive_dns.go:392-402 | every parameter that is not a hint is kept, behind exactly those kept before it |
| `DnsRecords.FilterAddsNothing` | naive_dns.go:392-402 | no hint and nothing foreign is kept |
| `DnsRecords.FilterTwice` | naive_dns.go:392-402 | filtering again changes nothing |
| `DnsRecords.HttpsRecord.FilterIPHints` | naive_dns.go:392-402 | the record has its parameters without the hints, in place |
| `DnsRecords.FilterAnswers` | naive_dns.go:381-390 | so has every HTTPS record of the answer |
| `DnsRecords.HttpsRecord.RewriteNames` | naive_dns.go:253-267 | owner and target of one record |
| `DnsRecords.RewriteAnswerNames` | naive_dns.go:248-269 | owner and target of every HTTPS record of the answer |
| `DnsRecords.FinishRedirected` | naive_dns.go:205-222 | the response to a redirected query: every record has its rewritten names and no address hints, and the order of its other parameters |
| `DnsRecords.HttpsRecord.Update` | naive_dns.go:345-363 | the first parameter of the kind is replaced in place, or one is added |
| `DnsRecords.WithIsFound` | naive_dns.go:345-363 | whoever looks finds the new parameter, and all others as they were |
| `DnsRecords.InjectEch` | naive_dns.go:289-343 | the answer when the configuration is known: every HTTPS record of the response gets the configuration, and the port if the query asks for one, and keeps the rest; without such a record one is made for the query; whoever looks finds the configuration and the port |
| `DnsRecords.InjectAnswers` | naive_dns.go:301-311 | both are put into every HTTPS record of a response, whose records may get new arrays |
| `DnsRecords.InjectedIsFound` | naive_dns.go:345-363 | putting in the port does not hide the configuration, no other parameter is touched, and at most two are added |
| `DnsRecords.NewRecord` | naive_dns.go:313-340 | the record made for a query: names, port if the query has one, protocols, configuration |

## Left out

- Bindings, loaders, handle wrappers and callback registries: foreign calls, of which only the callback contract is kept.
- Socket pairs, descriptor duplication and relays: operating-system input and output.
- TLS, ECH and REALITY settings, engine parameters, option validation and the table of network errors: native, or one-branch checks.
- Blocking loops that wait on channels: a waiting goroutine is a program counter of its machine, and the methods of the classes are its critical sections; the loops of the batch, the codecs and the upload worker are loops here too.
- Mutex fairness and scheduling: progress is stated as an enabled step, and as a bounded number of steps where one is given.
- Integer widths: lengths and counters are unbounded, except the 16-bit and 32-bit length fields, the varint and the random ranges, which are modelled as they are.
- GrpcReaders.GrpcReader.ReadContext: the fields of a message are told apart by a function of the remaining message, which is the protobuf reader in the end-to-end lemmas; unknown fields and groups are skipped by a model of the wire reader.
- UploadBatches.BrowserBatch.WriteContext: a call that outlasts the given list of waits is reported as blocked, because a wait may last for ever.
- UploadBatches.XhttpConn.Write: a call that outlasts the given list of write contexts is reported as blocked, for the same reason.
- UploadRuns.AnyOrderReassembles: the receiver is a reference model, since the server is not part of the repository; the transfer of a single request body is not modelled here.
- DnsNames.RedirectionIsInverted: names are ASCII, where the code folds the case of all Unicode letters.
- DnsRecords.RewriteAnswerNames: records of other types are left out of the list, and records of one answer do not share storage, as in a copied message.
- Redirection of address queries, name resolution itself and DNS message packing: plain lookups and library code.
- Path, query and header placement of sequence numbers and session identifiers: string plumbing without state.
- Which response headers a duplex request refuses, and gRPC status and trailers: they only choose the error, and that error is an arbitrary choice of the event here.
- Error texts and wrapping: errors are told apart by where they come from and by the status they carry.
- Time to live, class and priority of the DNS record made for a known configuration, and the reply header of a response made for it: constants.
