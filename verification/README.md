# gofast: a verified model

gofast is a symmetric protocol that multiplexes posts, requests and bi-directional streams over one
reliable connection, framed as CBOR (RFC 7049). This project models its hard core in Dafny and proves
what its documentation, its tests and its code rely on. `dafny verify dfyconfig.toml` checks all of it.

## What is modelled

**The exchange protocol** (`Exchange*.dfy`, `Endpoint.dfy`). Two nodes, each with a pool of local
opaques, the map `livestreams`, the queue `rxch` that mixes packets with open and close notices, and a
queue of frames on their way to the peer. `Exchange.Act` is one atomic action of one goroutine and a run
is any sequence of enabled moves of either node. Every use of an opaque is an exchange with a generation
number; generations are history (`Erasure.ForgettingChangesNothing`: the machine that forgets them
after every step has the same runs). The
invariant is stated for one opaque at a time (`ExchangeView.dfy`): the frames and notices still to be
handled on that opaque are a word that a small automaton accepts. `ExchangeTheorems.dfy` holds the
results, `Indiscipline.dfy` the exact conditions under which an application keeps the invariant,
`Mishaps.dfy` what happens otherwise, and `Erasure.dfy` that no generation matters. `Messages.dfy` ties
the frames to what the applications say and hear. `Endpoint.Endpoint`
is the same node with its stream objects on the heap, shared by the pool, livestreams and the notices;
each method is proved equal to the step the theorems are about, and its event loop to be a run.

**The codec** (`Cbor.dfy`, `Rfc7049.dfy`, `Frames.dfy`, `Nesting.dfy`, `InPlace.dfy`, `HeaderMap.dfy`,
`Unframe.dfy`, `Receiver.dfy`, `Compliance.dfy`). `Frames` says which bytes a frame is, `InPlace` builds
them in two arrays with a running index, `Rfc7049` is an independent reading of Appendix C of RFC 7049
against which frames, and everything one end sends (`Nesting`, and over the runs of the protocol
`Compliance`), are checked, `Unframe` and `HeaderMap` take frames apart, and `Receiver` does so with the
buffers the code reuses for every frame. `Link` ties the two halves: the frames one node has on their
way are one sequence of bytes, and one read of it is one `DoRx` step of the exchange protocol. `Joint`
runs the exchange protocol and the negotiation of tags as one system, where that holds without any
assumption about codecs.

**The transmitter** (`Commands.dfy`, `Transmit.dfy`): pooled commands, the batch, the merge buffer, one
write per flush. **The registry** (`Registry.dfy`): compare-and-swap by any number of goroutines, copying
one entry at a time. **Set-up**: the opaque range and the pools (`OpaqueRange.dfy`), the handshake message
(`Whoami.dfy`), the negotiation of tags (`Negotiation.dfy`). `Vectors.dfy` has the frames and messages
that the repository's own tests spell out byte by byte.

## What is assumed

The code relies on these; they are preconditions, or part of which moves are enabled.

* The two ends have disjoint opaque ranges (transport_test.go:842, transport_test.go:883) with
  `start <= end`, and `batchsize >= 1`. `Transmit.MergeFits` shows what a batch size of zero does:
  no byte of any packet reaches the write buffer.
* A packet is shorter than 2^32 bytes and fits the receiver's `buffersize`; a message id is not zero.
  `Unframe.PadTellsLengthIff` and `HeaderMap.CompleteMap` show that both limits are exact.
* A decoder undoes its encoder wherever the encoder returns something, and its output fits its buffer.
  That a frame's receiver has the decoders at all is proved, not assumed (module `Joint`).
* A request handler answers once; each end closes a stream once and sends nothing on it afterwards. These
  conditions are exact, in every reachable state: `Indiscipline.SendKeepsIff` and
  `Indiscipline.CloseKeepsIff` for the end that started the stream, `Indiscipline.SpeakKeepsIff` for the
  other one. What a frame too many does when its turn comes is `Mishaps.StrayDoesHarm` and
  `Mishaps.StrayReplyDoesHarm`: it reaches the exchange that uses the opaque now, or is dropped, or, if it
  is a second response, is taken for a request. `Mishaps.SecondCloseEndsNextStream` is such a run from a
  fresh start.
* The end that started a stream closes it no later than in its close callback, exactly
  (`Indiscipline.CallbackMayReturnIff`). Otherwise there is a run from a fresh start in which the next
  stream's start goes to the old callback and is dropped (`Mishaps.LateCloseSwallowsNextStart`).
* It passes a callback. Otherwise there is a run from a fresh start in which what the remote sends is
  dropped, and however that run goes on, the stream is never in the pool again
  (`Mishaps.NilCallbackLosesStream`).
* The connection is a lossless FIFO until it is closed.

Where the code and its documentation differ the code is followed: the opaque space starts at 266
(`istagok`, transport.go:648), not at 256 (README.md:154); the request byte is 0x81 although the comment
beside it (tx.go:20) spells another bit pattern. That well-formed frames are CBOR compliant
(README.md:11) holds for posts, requests, responses, stream messages and whole streams of the end that
started them. `Frames.OneItemIff` says exactly which single frames are items, `Nesting.ItemsIffBalanced`
which sequences of frames are items one after another, and `Compliance.SentIsItemsIff` when that is so in
a run: an end that closes a stream of the other end sends a break that nothing opened.

## Reading the proofs

A predicate whose body ends in `== true` is meant to be used as one fact and unfolded only in the small
lemmas about it. A tag loop over arbitrary decoders need not end, so reads take the number `k` of turns
after which it does; what `k` has to be for a frame is `Unframe.FrameLayers`.

## Model

| member | source | states |
|---|---|---|
| ExchangeTheorems.NoCrossTalk | go_syncrx.go:54-116 | in every reachable state, the packet about to be dispatched belongs to the exchange that created the entry it meets, however often its opaque was reused; the dispatch makes exactly that exchange's call, counts it under its kind and drops nothing |
| ExchangeTheorems.HearEffect | go_syncrx.go:57-96 | in every reachable state: a start of the peer leaves an entry with the callback its handler returned, requests and starts leave a handle to answer with, a finish removes the entry, and no other part of the node changes |
| ExchangeTheorems.ReplyEffect | go_syncrx.go:98-116 | a frame on a local opaque that is no finish is the response of a caller that waits for one, who is woken, or a message of a stream, which changes nothing but the log |
| ExchangeTheorems.FinishEffect | go_syncrx.go:57-67 | a finish on a local opaque takes the entry away and puts the stream at the end of the pool, and its initiator closes it just then if it was still open |
| ExchangeTheorems.NoticesNeverConfused | go_syncrx.go:36-52 | a notice at the head of rxch opens a stream that is not live and waits to be opened, or closes a request whose response has been handled and whose stream is still live; never anything else |
| ExchangeTheorems.NoticeBeforeReplies | stream.go:31-39 | no response or message on an opaque overtakes the notice that opens its stream |
| ExchangeTheorems.Delivery | go_syncrx.go:87-116 | per exchange and direction, the calls the receiver saw and then the frames in flight are exactly the frames sent, in order and without gaps; what these frames say is `Messages.EveryWordArrives` |
| Messages.EveryWordArrives | transport.go:441-487 | in every run, per exchange and direction: the calls at one end, and then the frames in flight to it, are in order, each with its own kind and message, the arguments of the moves of the other end: the first one a post, a request or a start, as its stream was taken from the pool for, then messages, the response, the close |
| Messages.HeardIfAnswered | go_syncrx.go:87-105 | in every run what is said to a stream reaches the callback of the end that started it, and at the other end a callback exactly if the handler that was given the start returned one |
| ExchangeTheorems.NothingAfterClose | stream.go:68-77 | in each direction of each exchange the close, or the response, is the last frame ever sent |
| ExchangeTheorems.SeesCloseOnce | go_syncrx.go:57-67 | a receiver sees at most one closing call per exchange, as the last call; with nothing in flight it saw one if and only if the other end closed |
| ExchangeTheorems.OpensFirst | transport.go:441-487 | what an owner sends in one exchange begins with the one frame that opens it |
| ExchangeTheorems.CountersAgree | go_syncrx.go:54-140 | each transmit counter is the peer's matching receive counter plus what is in flight; nRx is the sum of the receive counters plus drops, and there are no drops |
| ExchangeTheorems.CountersCount | go_syncrx.go:54-140 | each transmit counter is the number of frames of its kind that were sent, each receive counter the number of those that were handled; the shape 0x81 counts as a request or as a response by who owns the opaque |
| ExchangeTheorems.PoolConserved | stream.go:31-58 | each local stream is in the pool once or held by exactly one caller, and live streams are held |
| ExchangeTheorems.ReleaseNeverBlocks | transport.go:502-518 | a stream that is given back always finds room in the pool |
| ExchangeTheorems.NeverStuck | transport.go:441-487 | no stream is lost and no exchange gets stuck: in a reachable state in which neither end can make any move but to take another stream, every stream is back in its pool, nothing is live, nothing is on its way and nobody owes an answer |
| ExchangeTheorems.HandlingEnds | go_syncrx.go:122-140 | in every run, while no application moves, reading and handling what is on the way, with the closes this causes, ends after a bounded number of moves: so, with `NeverStuck`, only an application can keep a stream out of its pool |
| ExchangeTheorems.ReachableInv | go_syncrx.go:36-140 | the invariant of both nodes holds in every reachable state, seen from either end |
| ExchangeTheorems.NilCallbackIsNeverOpened | go_syncrx.go:46-52 | at any node, handling an open notice registers the stream if and only if it has a callback, and a message or finish on a stream that was not registered is dropped |
| Indiscipline.CloseKeepsIff | stream.go:74-77 | one more close by the end that started the stream keeps the invariant if and only if it is the first one of the holder of the exchange in progress |
| Indiscipline.SendKeepsIff | stream.go:68-71 | one more message from that end keeps it in the same case only: not after its close, and not from a former holder |
| Indiscipline.SpeakKeepsIff | stream.go:61-77 | one more response, message or close by the other end keeps it if and only if that end still holds the request or stream it belongs to, or, for a message, the stream's start is still on its way there: so no second response, no second close, nothing after the close |
| Indiscipline.CallbackMayReturnIff | go_syncrx.go:57-67 | a close callback may return without closing if and only if the initiator has closed before |
| Mishaps.StrayDoesHarm | go_syncrx.go:57-116 | in every state with the invariant: once the peer has handled what came before it, a message or close of an initiator that is not the holder goes to the stream of another generation, and a close ends that stream; or it is dropped. Nothing is dropped before |
| Mishaps.StrayReplyDoesHarm | go_syncrx.go:57-116 | likewise a response, message or close by the other end, sent without holding the request or stream any more, meets no exchange that awaits it: the callback in use is told, or a response becomes a new request, or it is dropped |
| Mishaps.SecondCloseEndsNextStream | stream.go:74-77 | from a fresh start there is a run in which a second close by a former holder ends the next stream on the opaque, whose initiator has not closed |
| Mishaps.LateCloseSwallowsNextStart | go_syncrx.go:87-116 | from a fresh start there is a run in which a callback that does not close makes the next stream's start go to the old stream's callback and be dropped |
| Mishaps.NilCallbackLosesStream | transport.go:477-487 | from a fresh start there is a run in which a stream opened without a callback is served and closed by the remote, whose close is dropped; the initiator is told nothing, and in no continuation of the run is the stream pooled or live again |
| Mishaps.LostForEver | go_syncrx.go:36-116 | a stream that is held and unknown to syncRx, with no notice or start for it on the way, stays so in every run of both nodes |
| Erasure.ForgettingChangesNothing | go_syncrx.go:36-140 | the machine that forgets all generation numbers after every step has exactly the same runs, up to generations |
| Erasure.ActAlike | go_syncrx.go:36-140 | a move has the same result, up to generations, on nodes that differ in generations only |
| ExchangeLog.SysAct | go_syncrx.go:36-140 | every enabled move of either node keeps the whole invariant |
| ExchangeDispatch.HearShape | go_syncrx.go:57-105 | what the dispatch of a peer-owned exchange's packet does to livestreams, handles, calls and counters |
| ExchangeDispatch.ReplyShape | go_syncrx.go:87-116 | what a response or message on a local stream does: its caller is woken, the rest is unchanged |
| ExchangeDispatch.FinShape | go_syncrx.go:57-67 | what the remote's finish on a local stream does: the callback, the pool, livestreams, the counter |
| Endpoint.Endpoint.constructor | transport.go:502-518 | makes one stream object per opaque, pooled in order: a fresh node |
| Endpoint.Endpoint.SetCallback | stream.go:31-39 | the one shared field of a stream object changes, and with it how a waiting notice will be read |
| Endpoint.Endpoint.PutCh | go_syncrx.go:145-152 | the notice queued is a pointer to the stream, not a copy |
| Endpoint.Endpoint.Clear | transport.go:453-474 | forgetting the callback turns the stream's next notice into a close notice |
| Endpoint.Endpoint.StartRemote | stream.go:17-28 | a new remote stream object joins livestreams with the callback the handler returned, if any |
| Endpoint.Endpoint.GetLocalStream | stream.go:31-39 | takes the first pooled stream, sets its callback and, if asked, queues the open notice |
| Endpoint.Endpoint.PutStream | stream.go:41-58 | queues a close notice, or returns the stream to the pool |
| Endpoint.Endpoint.Transmit | tx.go:141-153 | the frame joins the outgoing queue and is counted under its kind |
| Endpoint.Endpoint.StreamUpdate | go_syncrx.go:36-52 | reading the pointed-to stream as it is now equals the model's handling of a notice |
| Endpoint.Endpoint.RunCallback | go_syncrx.go:61-62 | equals the model's callback step, with the reaction of requester and initiator |
| Endpoint.Endpoint.HandleFinish | go_syncrx.go:57-75 | equals the model's dispatch of a finish packet |
| Endpoint.Endpoint.HandleNew | go_syncrx.go:79-96 | equals the model's dispatch of a packet on an opaque with no live stream |
| Endpoint.Endpoint.HandleLive | go_syncrx.go:98-116 | equals the model's dispatch of a packet on a live stream |
| Endpoint.Endpoint.HandlePkt | go_syncrx.go:54-116 | equals the model's dispatch of any packet |
| Endpoint.Endpoint.Turn | go_syncrx.go:122-140 | one turn of the event loop equals one Dispatch step of the model |
| Endpoint.Endpoint.GoodTurn | go_syncrx.go:122-140 | in a good state, facing any peer, a turn is one step of the model and leaves a good state: turns can be chained |
| Endpoint.Endpoint.SyncLoop | go_syncrx.go:122-140 | the event loop over the heap makes a run of the model, one dispatch after another, and never leaves the good states |
| Link.ReadIsDoRx | go_rx.go:28-38 | in every state a run can reach whose frames fit and have matching codecs, reading the connection once gives the packet that the DoRx step queues and leaves the bytes of the frames that step leaves |
| Joint.ReadIsDoRx | go_rx.go:28-38 | in every run of protocol and negotiation together the same holds with the codecs the ends have negotiated: only size and message id are assumed |
| Joint.OrdersMatch | tx.go:84-96 | in every such run the codecs of every frame on its way are undone by its receiver's decoders |
| Joint.Projects | transport.go:211-241 | a run of the whole system is a run of the protocol and a run of the negotiation, so every result about either holds of it |
| Joint.Lifts | transport.go:211-241 | and every run of the protocol is the protocol's part of such a run: the joint system leaves none out |
| Link.FirstRead | go_rx.go:42-116 | the same for any queue of frames that fit both ends |
| Link.EmitAppends | tx.go:141-153 | sending a frame appends its bytes to what is on the way |
| Link.OnTheWire | tx.go:7-102 | what is on the way is, frame by frame, kind, opaque and message in the layers of its own codecs, innermost first |
| Link.ReachableClean | tx.go:56-69 | in every run a finish frame carries no message |
| Cbor.HeadRoundTrip | cbor.go:185-208 | reading back the head of any item gives its argument as an int64 and its length, whatever follows |
| Cbor.HeadIsShortest | cbor.go:116-152 | no encoding of the same argument is shorter (section 3.9 of RFC 7049) |
| Cbor.ValUint8 | cbor.go:116-124 | writes the shortest head of a byte, nothing else changes |
| Cbor.ValUint16 | cbor.go:126-133 | writes the shortest head of a 16-bit number, nothing else changes |
| Cbor.ValUint32 | cbor.go:135-142 | writes the shortest head of a 32-bit number, nothing else changes |
| Cbor.ValUint64 | cbor.go:144-152 | writes the shortest head of a 64-bit number, nothing else changes |
| Cbor.TagTo | cbor.go:110-114 | writing a number and patching its first byte leaves the head of a tag |
| Cbor.BytesTo | cbor.go:154-159 | leaves a byte string, announced in full even where the copy is cut short |
| Frames.FrameLength | tx.go:7-69 | the exact length of every frame over the lengths of its heads |
| Frames.OverheadBound | tx.go:71-102 | without tags a frame is at most 41 bytes longer than its message |
| Frames.OverheadReachedIff | tx.go:71-102 | it is exactly 41 bytes longer if and only if opaque, id and data length need their longest heads |
| Frames.NineBytes | tx.go:56-69 | no frame is shorter than nine bytes (README.md:136-152) |
| Frames.MsgBodyWF | tx.go:74-82 | a message body is one well-formed item, whatever follows |
| Frames.RollWF | tx.go:84-96 | so is a body in any tag layers, in any order, skipped ones included |
| Frames.PacketContentsWF | tx.go:98-101 | the inside of a packet, read as CBOR, is one well-formed item |
| Frames.OneItemIff | tx.go:7-69 | a single frame is exactly one well-formed item if and only if it is a post, a request, a response or a stream message |
| Frames.StreamIsOneItem | tx.go:35-69 | a start, any number of stream messages and the finish of one end are together exactly one well-formed item |
| Nesting.ItemsIffBalanced | tx.go:7-69 | the bytes of any sequence of frames, of however many streams at once, are well-formed items one after another if and only if its starts and finishes are balanced |
| Compliance.SentIsItemsIff | tx.go:35-69 | in every run, as long as an end closes no stream that the other one started, what it has sent is a sequence of well-formed items if and only if it has no stream of its own open |
| InPlace.MsgTo | tx.go:74-82 | the running-index code leaves exactly the bytes of a message body and touches nothing before it |
| InPlace.LayerTo | tx.go:88-95 | one bounce through the second buffer leaves the tag and, as a byte string, what the encoder returned, or the payload as it was where it returned nothing |
| InPlace.FramePkt | tx.go:71-102 | framepkt leaves exactly the packet of the pure definition, for any codecs in any order; a whoami message gets no layers |
| InPlace.FrameTo | tx.go:7-52 | post, request, response, start and stream leave exactly the frame of the pure definition |
| InPlace.FinishTo | tx.go:56-69 | finish leaves exactly the finish frame |
| InPlace.SmallMessagesFit | tx.go:71-102 | a message of up to buffersize - 41 bytes never overflows a buffer at any step |
| HeaderMap.OneTurn | go_rx.go:134-148 | the loop body computes the turn of the model, stopping exactly where the code would panic: past the message for an index, past the buffer for a slice |
| HeaderMap.UnmessageLoop | go_rx.go:118-164 | the whole loop computes the model's result as long as it moves forward |
| HeaderMap.RoomOnlyRejects | go_rx.go:140-145 | the bytes behind a message in its buffer make no difference but that the loop may reject the message where it would panic without them |
| HeaderMap.ForwardIffComplete | go_rx.go:133-148 | a turn moves forward if and only if the tag at hand is complete |
| HeaderMap.IncompleteMapCycles | cbor.go:185-208 | an incomplete map on which two turns lead back where they began: completeness is needed for the loop to end |
| HeaderMap.CompleteMap | go_rx.go:118-164 | for any complete entries in any order, heads shortest or not and other tags in between, the loop ends with the last id and the last data; empty data counts, and id zero or no data makes it invalid |
| HeaderMap.LastEntriesCount | go_rx.go:118-164 | the same by position: the id and the data that count are those with no other of their kind behind them; a map without an id, or without data, is no message |
| HeaderMap.HdrMapUnmessage | go_rx.go:118-164 | unmessage undoes the header map of a message |
| Unframe.ReadTagged | go_rx.go:166-176 | readtp undoes a tag around a byte string, for every 64-bit tag but tagMsg |
| Unframe.ReadAnyHeads | go_rx.go:166-176 | readtp reads a tag in front of a byte string or of a break from any complete heads, shortest or not, whatever follows |
| Unframe.PeelRoll | go_rx.go:105-111 | the tag loop undoes any layers in any order and comes back to what was inside; how many turns that takes is `Unframe.FrameLayers` |
| Unframe.LayerReads | tx.go:88-95 | a codec that returned something is read back as its own tag and what it returned, and one that returned nothing left the payload as it was |
| Unframe.FrameLayers | go_rx.go:97-111 | in a whole frame a receiver comes, behind the opaque, from the outside in to just the codecs that returned something, in reverse order and each with what it returned, and then to the message; the tag loop takes exactly as many turns as there are such codecs |
| Unframe.PadTellsLengthIff | go_rx.go:73-77 | the nine bytes tell a packet's length if and only if it is below 2^32 |
| Unframe.FrameRoundTrip | go_rx.go:42-116 | reading undoes framing, whatever follows: same kind, opaque, id and data, and exactly the frame's bytes are taken |
| Unframe.TruncatedIsShort | go_rx.go:48-94 | a frame of which some bytes are still missing, however few, is never taken for a packet |
| Unframe.OversizeIsMalformed | go_rx.go:80-82 | a frame whose packet is larger than the receiver's buffer is never accepted |
| Unframe.WrongPrefixIff | go_rx.go:62-66 | a read fails for its prefix if and only if there are nine bytes that do not start with 0xd9d9f7 |
| Unframe.ReadIsLocal | go_rx.go:42-116 | what a read makes of the bytes it takes does not depend on what follows them |
| Unframe.StreamSplits | go_rx.go:28-38 | repeated reads of concatenated frames recover exactly that sequence, each taking exactly one frame |
| Receiver.Receiver.constructor | go_rx.go:20-26 | the buffers made before the loop are distinct and own no message |
| Receiver.Receiver.ReadPad | go_rx.go:48-66 | the nine-byte read: end of input, wrong prefix, or the pad; dropped bytes are counted |
| Receiver.Receiver.ReadRest | go_rx.go:80-94 | the bytes left over in the pad and the second read are together the packet; nRxbyte grows by the frame's length |
| Receiver.Receiver.Unpack | go_rx.go:97-116 | the code over real buffers computes the contents of the packet |
| Receiver.Receiver.UnframePkt | go_rx.go:42-116 | equals the model's read on what the connection delivers; counters move by exactly the bytes taken |
| Receiver.Receiver.GetData | transport.go:576-586 | the pool's front buffer if it is large enough, and a new one of the size asked for otherwise |
| Receiver.Receiver.PutData | transport.go:588-593 | the buffer joins the pool unless it is full |
| Receiver.Receiver.DoRx | go_rx.go:28-38 | a frame read and handed on changes no message that waits or is being handled; the new packet joins them |
| Receiver.Receiver.Next | go_syncrx.go:124-131 | the next packet syncRx takes says what was read from the wire, however many frames came since |
| Receiver.Receiver.GiveBack | go_syncrx.go:131-134 | giving a buffer back leaves every other message as it was |
| Commands.StepConserves | go_tx.go:19-66 | each step leaves every command in exactly one of pool, caller, txch, batch and pending reply, and the batch short of full |
| Commands.RunConserves | tx.go:113-153 | so does every run of any number of callers |
| Commands.PoolNeverBlocks | transport.go:520-523 | in every run from a fresh transport a command sent back to the pool finds room |
| Commands.TransmitStepsEnd | go_tx.go:58-66 | transmit steps cannot go on for ever without a new command being taken |
| Commands.NeverStarves | transport.go:569-574 | when no transmit step is left to make, the pool has a command: a waiting caller is always served |
| Commands.FlushesIff | go_tx.go:58-66 | one turn of doTx empties the batch if and only if the command asks for it or makes the batch full; then every waiting caller has its answer coming, every asynchronous command is in the pool, and nothing else is in either that was not before; otherwise the command just waits |
| Commands.UrgentNeverWaits | go_tx.go:61-63 | in every run no command that asks to be flushed waits in the batch |
| Commands.EveryCommandAsTaken | tx.go:113-153 | in every run each command in use has the length and the flags its caller gave it when it was last taken |
| Commands.FewerCommandsStarve | transport.go:520-523 | with fewer commands than make a batch there is a run that leaves all of them in it for ever |
| Transmit.MergeIsExact | go_tx.go:24-30 | merging loses nothing if and only if the packets fit the write buffer together |
| Transmit.MergeFits | go_tx.go:17 | a batch always fits, whatever its packets, unless the batch size is zero |
| Transmit.Transmitter.constructor | transport.go:520-523 | a fresh transport's commands and buffers |
| Transmit.Transmitter.Take | tx.go:113-121 | a pooled command is filled with the frame and the flags of its caller; no other command's packet changes |
| Transmit.Transmitter.Send | tx.go:124-125 | the packet joins the queue behind everything sent before |
| Transmit.Transmitter.Return | tx.go:126-132 | the caller gets its packet's full length, so the partial-write branch is never taken, and the outcome of the one flush its packet was part of, whatever was flushed since: no error means the whole of that batch stands in what was written |
| Transmit.OutcomesAfter | go_tx.go:43-52 | a flush tells each command of its batch the outcome of that flush and changes nobody else's answer |
| Transmit.Transmitter.Consolidate | go_tx.go:24-30 | the merge buffer holds the packets of the batch end to end, and nTx counts the non-empty ones |
| Transmit.Transmitter.Unblock | go_tx.go:43-52 | every command of the batch learns the same outcome; asynchronous ones go back to the pool, the others to their callers |
| Transmit.Transmitter.DrainBuffers | go_tx.go:19-55 | one flush writes the batch, as far as the connection takes it, and empties it |
| Transmit.Transmitter.Flush | go_tx.go:19-55 | until a write goes wrong, what was written followed by what waits is exactly what was sent, in order; the batch learns its outcome, and answers already given stay |
| Transmit.Transmitter.Receive | go_tx.go:58-66 | one turn of doTx flushes if and only if the command asks for it or the batch is full, and keeps that order and those answers; if the connection has room and reports no error, every byte of the batch, the command's packet last, is behind what was written before, nobody gets an error, and nothing is broken that was not |
| Transmit.SucceedsIff | go_tx.go:33-52 | a flush is a success for its whole batch if there is room and no error, or nothing to write; otherwise its whole batch is told and only part of its bytes may be on the connection |
| Registry.RegistryIsPlainMap | transport.go:596-632 | under every interleaving the registry is the plain map after the successful operations in swap order, each legal at its swap, none lost; what that is for each name is `Registry.EachNameByItsLastEntry` |
| Registry.EachNameByItsLastEntry | transport.go:596-632 | in every run a name is in the registry with a transport if and only if some entry of the swap log adds it with that transport and no later entry is about that name; each entry adds a name that did not stand, or deletes one that did |
| Registry.EachTakesEffectOnce | transport.go:596-632 | every entry of the swap log comes from exactly one call ever made; a call that returned has exactly one entry, at a place between its call and now; a panicked or pending call has none, and a panicked one was illegal at a moment between its call and now |
| Registry.SwapIsCurrent | transport.go:608-610 | a swap succeeds only on a copy of the latest version |
| Registry.FailedSwapMeansProgress | transport.go:628-630 | a swap fails only if another one has succeeded since |
| Registry.StepKeeps | transport.go:596-632 | every step of every goroutine keeps the invariant and all older versions |
| Registry.CopyToAdd | transport.go:600-607 | the copy loop panics if and only if the name is there; otherwise the name joins with its transport and every other name keeps its own |
| Registry.CopyToDelete | transport.go:619-627 | the copy loop panics if and only if the name is not there; otherwise it gives its transport, the name is gone and every other name keeps its own |
| Whoami.RoundTripIffShort | msg_whoami.go:37-64 | decoding undoes encoding and takes exactly the encoded bytes, whatever follows in the message or behind it in its buffer, if and only if the name has at most 255 bytes and the tags at most 65535 |
| Whoami.VersionRoundTrip | version64.go:19-30 | every 64-bit version survives the way through a signed number |
| Whoami.EncodedFits | msg_whoami.go:67-70 | an encoding never exceeds the announced size |
| Whoami.WhoamiMsg.Encode | msg_whoami.go:37-53 | the running-index code leaves exactly the bytes of the message |
| Whoami.WhoamiMsg.Decode | msg_whoami.go:56-64 | sets the fields the bytes say, and panics exactly where they are too few, the bytes behind the message in its buffer included |
| OpaqueRange.AcceptableIff | transport.go:648-668 | an opaque is acceptable if and only if it lies in the opaque space and is no hole; no tag that means something in a frame is |
| OpaqueRange.AcceptableOnce | transport.go:504-518 | the local streams are exactly one per acceptable opaque of the range |
| OpaqueRange.AcceptableCount | transport.go:502-518 | there are as many as the range is long, less its holes |
| OpaqueRange.AcceptableSorted | transport.go:504-518 | they are in ascending order |
| OpaqueRange.Pools.SetOpaqueRange | transport.go:491-524 | fills both pools without blocking, and panics if and only if the range is unusable |
| OpaqueRange.TwoTransports | transport.go:491-524 | two transports with ranges that do not overlap start in an initial state of the exchange protocol |
| OpaqueRange.StreamPoolNeverBlocks | stream.go:54-56 | in every run of them a stream on its way back to the pool finds room |
| OpaqueRange.CommandsExceedBatch | transport.go:520-523 | the command pool is large enough that no caller starves |
| Negotiation.InstallDecoders | transport.go:163-173 | a decoder for every configured tag, or an error if one is unknown |
| Negotiation.AlwaysDecodable | transport.go:211-231 | before, during and after the handshake, every tag of every frame in flight or yet to be sent has a decoder at the receiver |
| Negotiation.EveryFrameMatches | tx.go:84-96 | so the codecs of every frame of every run are undone by the receiver's decoders |
| Negotiation.ActKeeps | transport.go:223-231 | every step of either end keeps every tag it may send decodable, with encoders installed one at a time; which ones are installed is `Negotiation.HandshakeInstalls` |
| Negotiation.HandshakeInstalls | transport.go:211-231 | in every run an end has no encoder before it has an answer; then its encoders and those still to be installed are exactly the known ones among its peer's tags, and when it has gone through the list its encoders are exactly those, each once in every frame it sends; it goes through all it is told, one name at a time |
| Negotiation.HandshakeCompletes | transport.go:211-231 | from a fresh start either end can ask, be answered, and end up with exactly the known tags of its peer |
| Vectors.WhoamiBytes | msg_whoami_test.go:18-20 | the bytes of a whoami message |
| Vectors.WhoamiFrames | tx_test.go:15-20 | the bytes of a whoami message as post, request, start and stream message (also tx_test.go:43-48, 99-104 and 127-132) |
| Vectors.FinishBytes | tx_test.go:150 | the bytes of a finish |
| Vectors.WhoamiIsRead | rx_test.go:31-53 | from the bytes of a payload to the message in it, and to the fields of the whoami message in that |

## Left out

- Sockets, io.ReadFull errors, isConnClosed, recover and logging: the connection is a byte sequence; an error is a short read or a short write.
- Behaviour after Close: it depends on random choices between killch and ready channels; flushrxch and the final callbacks of syncRx are not modelled.
- Exchange.Act: no transmit fails, so what Request and Stream do with their stream when tx returns an error is not modelled; that tx returns it is `Transmit.Transmitter.Return`.
- Timers of go_flush.go and go_heartbeat.go: an empty flush or a post, which the steps include.
- gzip and lzw: a tag codec is any inverse pair with a bound on its output.
- Ping and heartbeat messages, HTTP handlers, statistics as JSON, examples and benchmarks.
- Channel capacities of rxch and of the queues in Exchange: a full channel only delays a sender; txch, the batch and the socket are one FIFO there, which Transmit justifies.
- Message subscription and the choice of handler (subscribeMessage, requestCallback): a dispatch calls the handler, which may or may not return a callback.
- Endpoint.Endpoint.StartRemote: a remote stream is a new object; taking one from the pool that Response puts them back into (fromrxstrm) is not modelled, nor are the buffers of a stream.
- Registry.EachTakesEffectOnce: says nothing about which goroutine runs when; a goroutine may retry for ever.
- Receiver.Receiver.Unpack: on a malformed packet readtp may slice its reused buffer past the packet and read stale bytes; the model says Malformed there, as where the code panics.
- A decoder that reads and writes the same output buffer, which needs a peer that applies one tag twice: decoders are functions of their input.
- Message encoders: a message is its id and its encoded bytes, so the data buffer that Encode fills is not modelled.
- Concurrent access to the tag map during the handshake: an encoder is installed in one step.
- InPlace.FramePkt: the codecs are given as a sequence, any order of the map; a codec's output is copied in one step.
- Receiver.Receiver.DoRx: one frame is read and handed on in one step; what syncRx does in between is the steps Next and GiveBack around it.
- HeaderMap.UnmessageLoop: after a move backwards, which only a head cut short by the end of the message causes, the loop of the code may go on, for ever or to an end; the model stops there and says Stuck.
- Transmit.Transmitter.Write: the connection takes any number of bytes and may report an error; the reason is not modelled.
