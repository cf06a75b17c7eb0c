# Brook proxy: a verified model

This project models the protocol stack of the Brook proxy, which spans two programs: a
JavaScript client (SOCKS5 or HTTP in, encrypted frames out) and a Go server. It proves, for
all inputs, all fragmentations and all orders of events, what the two promise each other and
the user. `dafny verify dfyconfig.toml` checks everything.

How the parts fit together:

- `Nonces`, `Aead`, `Framing`: the frame nonce with its two increments, AES-GCM as an ideal
  cipher with three laws, and the frame format with its unique decodability. Hashing and key
  derivation are arbitrary functions.
- `Decoder`, `Tunnel`: one run of the client tunnel as a state machine. A step goes from one
  `await` to the next; the receive task, the main task and the cleanup task each have a
  program counter; timers, transport callbacks and resumptions are events in any order.
  Fields marked as history record what has been received, written, sealed and read.
- `TunnelInv`, `TunnelRx`, `TunnelMain`, `TunnelRuns`, `TunnelResults`: its invariant, the
  proof that every step keeps it, and what follows for whole runs.
- `TunnelEnds`: how a run ends, for whatever cause, and what the client is left with.
- `TunnelWitness`: legal runs that reach the odd ends these theorems speak of.
- `BrookTunnelClass`: the same tunnel as an object with one method per callback, timer and
  continuation, its nonce buffers stepped in place. Driven by any legal list of events it
  ends where the state machine does, so the theorems about runs hold of the object
  (`RunTunnel`).
- `Gauges`: any number of tunnels sharing the two global counters.
- `GoRelay`, `GoUplink`: the two relay legs of the server, in place on its buffers.
- `Destination`, `Handshake`, `EndToEnd`: destination codec, mode detection and key search
  with rewinding, agreement of both sides, and the composition of the two programs.
- `Retry`, `RetryProof`, `RetryResults`, `RetryWitness`, `RetryLoop`: up to three tunnels
  on one client socket. Earlier attempts go on taking steps after their run has returned.
- `WtStream`, `WtSession`, `PortBridge`: the two stream adapters.
- `HttpHeader`, `Socks5`, `Address`, `Dns`, `Crc32`, `Png`: parsers and codecs at the edges.

Where the code does something other than its documentation or than one would expect, the
model follows the code, and the difference is a theorem:

- CHANGELOG.md line 11 ties success to `both_closed`; the code also accepts an idle timeout
  or an early transport close once a byte has arrived. After `both_closed` the bytes received
  were whole frames and all their payload was written and confirmed (`BothClosedIsComplete`,
  `FullCloseVerdict`). After a success of any kind that is so exactly if nothing was left to
  decode and no write to the client was under way or had failed (`SuccessExact`). Both
  conditions can be missed: `SuccessCutShort`, `SuccessUnwritten`. Whole frames do not mean
  that the server had no more to send: after `transport_closed` no FIN was seen.
- The server skips the payload frame of an empty payload, the client always sends one:
  `UplinkRoundTrip`, `AfterEmpty`, `EmptyFrameDesynchronises`. The client never seals an
  empty piece (`UpstreamExact`).
- A 32-byte password in `withoutBrook` mode is hashed by the client only: `KeyAgreement`,
  `HandshakeExact`.
- A FIN that comes together with data can be forgotten: `FinWithDataLost`. The adapter never
  sends one (`AdapterMeetsContract`).
- One frame already being decrypted may still be written after termination, and on an
  honest stream it is known when: `AtMostOneAfterEnd`, `AfterEndExact`.
- The upload gauge keeps the bytes of a chunk whose sealing throws, and of no other:
  `LeakExact`, `LeakReached`.
- The dispatcher may retry after it has replied success; when, and that the attempt is then
  futile: `RetryExact`, `LaterIsFutile`, with a run in `DispatcherRetriesAfterSuccess`. An
  attempt that the server ends before the handshake closes the client's writer, though the
  loop goes on: `ClientStreamsExact`. The worker's stricter guard leaves one gap, a tunnel
  whose key derivation outlives it: `WorkerIsStrict`, with a run in
  `WorkerRetriesAfterSuccess`.
- Three operations have no time limit: the success reply, the failure reply, and closing the
  transport's writer for FIN. A run can be held up for good exactly there (`NeverStuck`),
  and each of the three happens (`HeldUpBySuccessReply`, `HeldUpByFailureReply`,
  `HeldUpByFin`).
- A DNS response without length prefix is misread if its identifier looks like one:
  `UnprefixedRoundTrip`, `IdentifierTakenForPrefix`.
- A handler of the stream adapter may be told of the close twice: `ClosedTwice` says when,
  and `ToldTwiceReached` is the plainest case.

Two hypotheses of the handshake theorems are stated where they are used, because no cipher
has them for all keys at once: a candidate key other than the client's does not open the
length frame (`OthersReject`), and the stream does not start with the password hash
(`NotSimple`).

## Model

| member | source | states |
|---|---|---|
| `EndToEnd.TargetToClient` | brook-quicserver.go/brook_stream.go:304-331 | for all target reads, all fragmentations and all event orders: the client socket gets a prefix of the reads joined, never a decryption error, and all of them once the whole stream is in and processed |
| `EndToEnd.ClientToTarget` | brook-quicclient/src/core/brook-tunnel.js:502-597 | from any part of the client's wire that holds the greeting the server accepts the requested destination, and delivers a prefix of leftover and client bytes; all of it and a clean end when all was sent, read and taken, before and after the client closes its side |
| `EndToEnd.SocksRequestReachesDialer` | brook-quicclient/src/protocols/socks5-parser.js:91-144 | the destination of any accepted SOCKS5 stream is the one the server dials |
| `Nonces.GoNextNonce` | brook-quicserver.go/crypto.go:15-21 | the in-place 64-bit increment is the little-endian increment `Next` |
| `Nonces.JsNextNonce` | brook-quicclient/src/core/brook-crypto.js:13-28 | the in-place two-word increment with carry is the same `Next` |
| `Nonces.NextAddsOne` | brook-quicserver.go/crypto.go:15-21 | one step adds one to the first eight bytes modulo 2^64 and keeps the last four |
| `Nonces.BumpAddsK` | brook-quicserver.go/crypto.go:14-21 | k steps add k modulo 2^64 |
| `Nonces.BumpDistinct` | brook-quicclient/src/core/brook-crypto.js:7-12 | two nonces of a run are equal exactly when their distance is a multiple of 2^64; so runs shorter than that never repeat one |
| `Framing.SealFrameInPlace` | brook-quicclient/src/core/brook-framing.js:104-126 | the client seals length and payload at consecutive nonces and leaves the nonce two steps further |
| `Framing.OpenLengthInPlace` | brook-quicclient/src/core/brook-framing.js:136-146 | one nonce step; the length, or failure for a bad tag or a length above 65519 |
| `Framing.OpenLengthExact` | brook-quicclient/src/core/brook-framing.js:140-145 | a length frame opens to n exactly when n is within the limit and the frame is the sealed form of n |
| `Framing.FramesArePrefix` | brook-quicclient/src/core/brook-framing.js:96-97 | unique decodability: frames found at the start of a sealed run are that run's own, and the rest is the rest of the run |
| `Framing.SealFramesAppend` | brook-quicserver.go/brook_stream.go:312-331 | sealing a run in pieces gives the run, with the nonce two steps further per frame |
| `Decoder.FeedRep` | brook-quicclient/src/core/brook-tunnel.js:277-290 | appending data keeps the account of every byte taken: nonce, whole frames, unfinished frame, buffer |
| `Decoder.TakeNonceRep` | brook-quicclient/src/core/brook-tunnel.js:293-297 | the server nonce is cut off the front of the stream |
| `Decoder.PayloadOpenedRep` | brook-quicclient/src/core/brook-tunnel.js:358-367 | an opened payload completes a frame, and the nonce is then that of the next frame |
| `Decoder.HonestLength` | brook-quicclient/src/core/brook-tunnel.js:337-348 | on an honest stream a length frame opens to the length of the next payload |
| `Decoder.HonestPayload` | brook-quicclient/src/core/brook-tunnel.js:350-365 | on an honest stream a payload frame opens to the next payload |
| `Decoder.StarvedIsComplete` | brook-quicclient/src/core/brook-tunnel.js:399-403 | when a whole stream has come in and nothing more can be decoded, nothing is left over and all payloads are out |
| `TunnelInv.InitInv` | brook-quicclient/src/core/brook-tunnel.js:84-130 | the invariant holds at the start of a run |
| `TunnelInv.CleanupCore` | brook-quicclient/src/core/brook-tunnel.js:160-244 | cleanup keeps the invariant whatever the reason, and changes nothing the second time |
| `TunnelRuns.CleanResumeKeeps` | brook-quicclient/src/core/brook-tunnel.js:191-240 | the cleanup task: failure signalled only by a last attempt that never came up, and at its end reader cancelled and writer closed wherever they must be |
| `TunnelRx.FullCloseKeeps` | brook-quicclient/src/core/brook-tunnel.js:246-262 | the check when both sides have closed always terminates the tunnel, and changes nothing before |
| `TunnelRx.FedKeeps` | brook-quicclient/src/core/brook-tunnel.js:277-297 | new data keeps the account of every byte, whether the nonce is complete or not |
| `TunnelRx.DerivedKeeps` | brook-quicclient/src/core/brook-tunnel.js:298-321 | the success reply and the end of the handshake coincide, also when the key arrives after the end |
| `TunnelRx.DecodeKeeps` | brook-quicclient/src/core/brook-tunnel.js:333-348 | a turn of the decoding loop, from its head to its next await |
| `TunnelRx.LengthOpenedKeeps` | brook-quicclient/src/core/brook-tunnel.js:341-348 | after a length was opened or refused: the account still holds, and a refused one ends the tunnel |
| `TunnelRx.ToPayloadKeeps` | brook-quicclient/src/core/brook-tunnel.js:350-360 | a payload frame is taken only when all of it is there, else nothing is left that could be decoded |
| `TunnelRx.PayloadOpenedKeeps` | brook-quicclient/src/core/brook-tunnel.js:358-365 | after a payload was opened or refused |
| `TunnelRx.PlainKeeps` | brook-quicclient/src/core/brook-tunnel.js:367-384 | what is written to the client is the payloads opened, in order, and what is not yet confirmed is the one being written |
| `TunnelRx.WrittenKeeps` | brook-quicclient/src/core/brook-tunnel.js:384-395 | after the write was confirmed or failed |
| `TunnelRx.TrimKeeps` | brook-quicclient/src/core/brook-tunnel.js:399-403 | the decoding loop is left with nothing decodable in the buffer |
| `TunnelRx.FinKeeps` | brook-quicclient/src/core/brook-tunnel.js:406-417 | FIN closes the client writer, once |
| `TunnelRx.AfterCloseKeeps` | brook-quicclient/src/core/brook-tunnel.js:419-439 | what follows the close: incomplete frame, refused dial, full close or half close |
| `TunnelRx.FinallyKeeps` | brook-quicclient/src/core/brook-tunnel.js:443-449 | no wakeup is lost when the task goes idle |
| `TunnelRx.LoopKeeps` | brook-quicclient/src/core/brook-tunnel.js:269-275 | the queue loop keeps the invariant up to its next await |
| `TunnelRx.StepRxKeeps` | brook-quicclient/src/core/brook-tunnel.js:264-457 | so does every continuation of the receive task |
| `TunnelRx.OnDataKeeps` | brook-quicclient/src/core/brook-tunnel.js:462-481 | so does a data callback, overflow included |
| `TunnelRx.OnCloseKeeps` | brook-quicclient/src/core/brook-tunnel.js:482-491 | so does a close callback |
| `TunnelMain.UpDial` | brook-quicclient/src/core/brook-tunnel.js:500-525 | nonce, header and leftover go out in this order, at consecutive nonces |
| `TunnelMain.HandshakeKeeps` | brook-quicclient/src/core/brook-tunnel.js:539-546 | the relay starts only after the handshake of a live tunnel |
| `TunnelMain.ReadKeeps` | brook-quicclient/src/core/brook-tunnel.js:547-580 | data, end or failure of a client read |
| `TunnelMain.FinSentKeeps` | brook-quicclient/src/core/brook-tunnel.js:563-571 | after FIN was sent both sides closed means terminated |
| `TunnelMain.UpSealed` | brook-quicclient/src/core/brook-tunnel.js:583-586 | a sealed piece continues the wire at the next nonce; one that was not sealed is counted as a leak |
| `TunnelMain.UpSent` | brook-quicclient/src/core/brook-tunnel.js:587-602 | the gauge share of a piece sent, or of all that is left of the chunk after a failure |
| `TunnelMain.ReturnKeeps` | brook-quicclient/src/core/brook-tunnel.js:613-627 | the outcome returned matches the reason, and is a success exactly for the kinds and counts that make one, after a finished cleanup |
| `TunnelMain.StepMainKeeps` | brook-quicclient/src/core/brook-tunnel.js:498-615 | so does every continuation of the main task |
| `TunnelMain.StepUp` | brook-quicclient/src/core/brook-tunnel.js:502-597 | every step of the main task keeps the account of what was sealed and what the upload gauge holds |
| `TunnelRuns.StepKeeps` | brook-quicclient/src/core/brook-tunnel.js:59-628 | every event keeps the invariant |
| `TunnelRuns.StepGrows` | brook-quicclient/src/core/brook-tunnel.js:160-404 | nothing final is taken back; payload is handed over only by a tunnel that came up in time, client bytes taken only while relaying |
| `TunnelRuns.RunKeeps` | brook-quicclient/src/core/brook-tunnel.js:59-628 | the invariant holds over every run |
| `TunnelResults.FirstReasonStays` | brook-quicclient/src/core/brook-tunnel.js:160-163 | after the first termination reason and cleanup count never change |
| `TunnelResults.DownstreamRoundTrip` | brook-quicclient/src/core/brook-tunnel.js:264-404 | for every payload list, fragmentation and event order: written bytes are a prefix, both ends use the same nonce for the same frame, and nothing is missing at the end |
| `TunnelResults.BothClosedIsComplete` | brook-quicclient/src/core/brook-tunnel.js:246-262 | `both_closed` means: client closed, FIN processed, the bytes received were a nonce and whole frames, and all their payload, not empty, was written and confirmed |
| `TunnelResults.FullCloseVerdict` | brook-quicclient/src/core/brook-tunnel.js:246-262 | whichever side closes last, or if the transport closes while FIN is being sent, the verdict is `both_closed` if and only if the bytes received were a nonce and whole frames with some payload |
| `TunnelResults.SuccessExact` | brook-quicclient/src/core/brook-tunnel.js:617-618 | a returned success means handshake and payload, of one of three kinds; whole frames were received and all their payload confirmed if and only if nothing is left to decode and no client write is under way or failed; `transport_closed` means that no FIN was seen |
| `TunnelWitness.SuccessCutShort` | brook-quicclient/src/core/brook-tunnel.js:617-618 | a legal run that returns success with a frame cut in the middle |
| `TunnelWitness.SuccessUnwritten` | brook-quicclient/src/core/brook-tunnel.js:374-395 | a legal run that returns success while the write of its only payload is still unconfirmed |
| `TunnelResults.NoLostWakeup` | brook-quicclient/src/core/brook-tunnel.js:443-449 | in every quiet state the queue is empty and a closed transport means that FIN came; an accepted FIN is never reported as `transport_closed` |
| `TunnelResults.FinWithDataLost` | brook-quicclient/src/core/brook-tunnel.js:293-294 | why FIN must come alone: with data before the handshake it is lost exactly when fewer than twelve bytes are there |
| `TunnelResults.TerminationProtocol` | brook-quicclient/src/core/brook-tunnel.js:539-627 | at most one cleanup, an armed idle timer while live, no placeholder reason at return, success only with handshake and payload, failure reply never with payload |
| `TunnelResults.NeverStuck` | brook-quicclient/src/core/brook-tunnel.js:191-240 | until it returns a run has an armed idle timer or waits for something bounded, except exactly where closing for FIN, the failure reply or the success reply holds it up |
| `TunnelWitness.HeldUpBySuccessReply` | brook-quicclient/src/core/brook-tunnel.js:308-313 | a run held up for good by a client that does not take the success reply |
| `TunnelWitness.HeldUpByFailureReply` | brook-quicclient/src/core/brook-tunnel.js:203-207 | a run held up for good by a client that does not take the failure reply |
| `TunnelWitness.HeldUpByFin` | brook-quicclient/src/core/brook-tunnel.js:563-565 | a run held up for good by a transport that does not take FIN |
| `TunnelResults.AtMostOneAfterEnd` | brook-quicclient/src/core/brook-tunnel.js:334-384 | after termination at most one more frame is decoded, one already being decrypted |
| `TunnelResults.AfterEndExact` | brook-quicclient/src/core/brook-tunnel.js:334-384 | on an honest stream exactly one more frame is written after termination if a payload was being opened, or a length whose payload was all there; else none |
| `TunnelEnds.EndsForItsCause` | brook-quicclient/src/core/brook-tunnel.js:149-495 | from every reachable live state: a timer, an overflow, an error callback, a failed read, write, seal or derivation ends the run at once with the reason that names it, a frame that does not open ends it as `decrypt_error`, and nothing else ends it but the transport closing or what FIN found; a tunnel that is up with whole frames outlives FIN as long as its client does |
| `TunnelEnds.EndVerdict` | brook-quicclient/src/core/brook-tunnel.js:406-439 | a run that ends after FIN without interruption ends with the verdict on the bytes received: `both_closed` for whole frames with payload, `target_dial_refused` for nothing or no payload, `framing_error` for the rest |
| `TunnelEnds.WriteIsAwaited` | brook-quicclient/src/core/brook-tunnel.js:191-200 | the cleanup of a run that has just ended waits for a client write first if and only if one is under way |
| `TunnelEnds.LingersWithReason` | brook-quicclient/src/core/brook-tunnel.js:419-439 | once FIN has been processed the client has been told; a run that lives on with nothing to do is up, has had whole frames only, and its client is open or its end just being passed on |
| `TunnelEnds.SuccessWhen` | brook-quicclient/src/core/brook-tunnel.js:617-618 | a returned run is a success if and only if it ended as `both_closed`, or it was up, some payload came and it ended idle or with the transport closed |
| `TunnelEnds.FullCloseSucceeds` | brook-quicclient/src/core/brook-tunnel.js:246-262 | when both sides have closed, the run once returned is a success if and only if the bytes received were a nonce and whole frames with some payload |
| `TunnelEnds.OutcomeCounts` | brook-quicclient/src/core/brook-tunnel.js:619-627 | the outcome counts the payload bytes handed to the client, and reports a handshake if and only if success was replied |
| `TunnelEnds.ClientStreamsExact` | brook-quicclient/src/core/brook-tunnel.js:202-240 | when a run has returned: a last attempt, and one that came up in time, has cancelled the client reader and closed the writer; an earlier one that never came up has not cancelled, and closed only for FIN; without handshake failure was signalled if and only if it was the last |
| `TunnelEnds.DialIsTimed` | brook-quicclient/src/core/brook-tunnel.js:528-535 | the dial timer is armed whenever a live run waits for its handshake |
| `TunnelEnds.EverythingTaken` | brook-quicclient/src/core/brook-tunnel.js:462-481 | a live run has taken every byte the transport delivered, in order |
| `TunnelEnds.EverythingRead` | brook-quicclient/src/core/brook-tunnel.js:547-580 | every byte the client reader handed out was taken for sending, in order; its end, and nothing else, makes a live run pass an end on and stop reading |
| `TunnelResults.UpstreamExact` | brook-quicclient/src/core/brook-tunnel.js:502-603 | the wire is the nonce, the header frame, then leftover and client bytes in order in pieces of 1 to 32768 bytes; nothing read is missing when the loop is back at its read |
| `TunnelResults.UploadGaugeRestored` | brook-quicclient/src/core/brook-tunnel.js:575-597 | client chunks leave the upload gauge as they found it wherever a send fails |
| `TunnelResults.LeakExact` | brook-quicclient/src/core/brook-tunnel.js:585-596 | a returned run has left bytes in the upload gauge if and only if sealing a client piece threw in it |
| `TunnelWitness.LeakReached` | brook-quicclient/src/core/brook-tunnel.js:583-586 | a run that returns with one byte left in the gauge |
| `BrookTunnelClass.BrookTunnel.ResumeCleanup` | brook-quicclient/src/core/brook-tunnel.js:191-240 | the cleanup task goes on after each await, to the state of the machine |
| `BrookTunnelClass.BrookTunnel.RxTakeItem` | brook-quicclient/src/core/brook-tunnel.js:269-275 | one turn of the queue loop makes progress towards the state that the whole loop ends in |
| `BrookTunnelClass.BrookTunnel.RxRun` | brook-quicclient/src/core/brook-tunnel.js:264-275 | the queue loop, a `while` with an invariant, reaches the state of the recursive specification |
| `BrookTunnelClass.BrookTunnel.ResumeRx` | brook-quicclient/src/core/brook-tunnel.js:264-457 | every continuation of the receive task, the nonce buffer stepped in place, ends in the state of the machine |
| `BrookTunnelClass.BrookTunnel.HandleData` | brook-quicclient/src/core/brook-tunnel.js:462-481 | the data callback takes the object to the state of the machine |
| `BrookTunnelClass.BrookTunnel.HandleClose` | brook-quicclient/src/core/brook-tunnel.js:482-491 | the close callback takes the object to the state of the machine |
| `BrookTunnelClass.BrookTunnel.HandleError` | brook-quicclient/src/core/brook-tunnel.js:492-495 | the error callback takes the object to the state of the machine |
| `BrookTunnelClass.BrookTunnel.IdleTimerFires` | brook-quicclient/src/core/brook-tunnel.js:149-156 | the idle timer takes the object to the state of the machine |
| `BrookTunnelClass.BrookTunnel.DialTimerFires` | brook-quicclient/src/core/brook-tunnel.js:528-535 | the dial timer takes the object to the state of the machine |
| `BrookTunnelClass.BrookTunnel.Seal` | brook-quicclient/src/core/brook-tunnel.js:583-587 | length and payload are sealed with the nonce buffer stepped twice in place; wire and nonce are then those of the machine |
| `BrookTunnelClass.BrookTunnel.ResumeMain` | brook-quicclient/src/core/brook-tunnel.js:498-615 | every continuation of the main task takes the object to the state of the machine |
| `BrookTunnelClass.BrookTunnel.Handle` | brook-quicclient/src/core/brook-tunnel.js:59-628 | any event that can happen takes the object one step of the machine and keeps the invariant |
| `BrookTunnelClass.BrookTunnel.HandleAll` | brook-quicclient/src/core/brook-tunnel.js:59-628 | any legal list of events, one after the other, takes the object to the end of the machine's run |
| `BrookTunnelClass.RunTunnel` | brook-quicclient/src/core/brook-tunnel.js:59-628 | a new tunnel driven through a whole run: the client has a prefix of what an honest server sent, all of it once all has come in and been processed, and after `both_closed` nothing is missing |
| `Gauges.GaugesAreSums` | brook-quicclient/src/core/brook-tunnel.js:12-33 | with any number of tunnels the gauges are at every moment the sums of what the live tunnels hold, at most 16 MiB queued each, so no subtraction is ever clamped |
| `Gauges.StepMoves` | brook-quicclient/src/core/brook-tunnel.js:272-275 | a step moves a gauge by exactly the tunnel's own change, clamping included |
| `GoRelay.ChunksJoin` | brook-quicserver.go/brook_stream.go:313-317 | chunking partitions a read |
| `GoRelay.ChunkSizes` | brook-quicserver.go/brook_stream.go:313-317 | no chunk is empty and all but the last are full |
| `GoRelay.ChunkCount` | brook-quicserver.go/brook_stream.go:313-317 | there are n divided by max, rounded up, chunks |
| `GoRelay.SealedLength` | brook-quicserver.go/brook_stream.go:319-328 | a sealed run takes 34 bytes more per frame |
| `GoRelay.BatchBounds` | brook-quicserver.go/brook_stream.go:295-300 | a batch stays within 32768 bytes (TCP) and 65507 (UDP), and both are reached |
| `GoRelay.SealChunk` | brook-quicserver.go/brook_stream.go:319-328 | one frame appended to the batch in place |
| `GoRelay.SealBatch` | brook-quicserver.go/brook_stream.go:312-331 | the loop fills the batch with the frames of the chunks and advances the nonce in step |
| `GoRelay.RelayDown` | brook-quicserver.go/brook_stream.go:285-350 | the leg writes one sealed run of all chunks of all reads; end of stream closes the client |
| `GoRelay.AllChunksFit` | brook-quicserver.go/brook_stream.go:285-288 | every chunk has a length the client accepts |
| `GoUplink.Conn.ReadFull` | brook-quicserver.go/brook_stream.go:42-64 | reads the replayed bytes first, then the stream, exactly n bytes unless it ends |
| `GoUplink.RelayUp` | brook-quicserver.go/brook_stream.go:367-417 | the loop delivers and stops exactly as the specification of the stream says; only a clean end closes the target |
| `GoUplink.NeverEmpty` | brook-quicserver.go/brook_stream.go:391-394 | no empty payload is ever delivered |
| `GoUplink.UplinkPrefix` | brook-quicserver.go/brook_stream.go:367-417 | from any prefix of an honest stream a prefix of the payloads is delivered, and a clean end means a frame boundary |
| `GoUplink.UplinkRoundTrip` | brook-quicserver.go/brook_stream.go:391-410 | all payloads come out if and only if none of them is empty |
| `GoUplink.UplinkAuthentic` | brook-quicserver.go/brook_stream.go:367-417 | for every stream: what is delivered is payloads of frames sealed under the key, in order from the start, and the end is clean if and only if the stream is such frames and nothing else |
| `GoUplink.AfterEmpty` | brook-quicserver.go/brook_stream.go:391-394 | after an empty frame the server takes the sealed empty payload for a length frame |
| `GoUplink.EmptyFrameDesynchronises` | brook-quicserver.go/brook_stream.go:391-394 | with a concrete cipher, a full frame behind an empty one is lost |
| `Handshake.BuildBrookHeader` | brook-quicclient/src/core/brook-framing.js:174-186 | the header buffer, filled byte by byte, is the big-endian stamp and the destination |
| `Handshake.HandleBrookStream` | brook-quicserver.go/brook_stream.go:67-111 | detection with read-ahead and rewind decides as if nothing had been read ahead |
| `Handshake.HandleEncryptedBrookStream` | brook-quicserver.go/brook_stream.go:113-178 | the candidate loop finds the first key that opens the length frame |
| `Handshake.OpenHeaderFrame` | brook-quicserver.go/brook_stream.go:176-217 | length limit, header frame, clock, parity, destination |
| `Handshake.KeyAgreement` | brook-quicserver.go/brook_stream.go:79-83 | the client's key material is a candidate exactly unless a 32-byte password is used in `withoutBrook` mode (and is not its own hash) |
| `Handshake.ClockWindow` | brook-quicserver.go/brook_stream.go:197-204 | which clock differences are taken, exactly; -119 to 120 seconds always are |
| `Handshake.StampParity` | brook-quicclient/src/core/brook-framing.js:175-183 | the stamp is at most a second ahead and its parity tells TCP from UDP |
| `Handshake.HandshakeExact` | brook-quicserver.go/brook_stream.go:85-217 | for either mode, either candidate order and any clocks: the server's verdict on the client's greeting, in every case |
| `Handshake.HandshakeAgreement` | brook-quicserver.go/brook_stream.go:85-217 | both sides agree on destination, protocol, key material, next nonce and where the next frame starts |
| `Handshake.SimpleIsTaken` | brook-quicserver.go/brook_stream.go:85-111 | a stream of the password hash, two bytes and any rest is the simple protocol, and the connection is unread from its first byte |
| `Handshake.OnlyHashIsSimple` | brook-quicserver.go/brook_stream.go:85-111 | a stream of at least 12 bytes that is shorter than 34 or does not begin with the hash is never simple |
| `Handshake.AcceptedIsAuthentic` | brook-quicserver.go/brook_stream.go:113-217 | whatever the stream: an accepted one is a greeting sealed under a candidate key with a header of 7 to 2048 bytes, a fresh stamp and a destination, and protocol, target, nonce and rest are read off it |
| `Handshake.GreetingIsAccepted` | brook-quicserver.go/brook_stream.go:113-217 | and every such greeting is accepted, in either candidate order |
| `Destination.DestinationRoundTrip` | brook-quicserver.go/socks5.go:49-87 | the server reads back every encoded destination |
| `Destination.BareDomain` | brook-quicserver.go/socks5.go:63-78 | a bare domain is read as itself if and only if its first byte is not its length minus one |
| `Destination.ParsedExactly` | brook-quicserver.go/socks5.go:49-87 | a byte string is read as a destination if and only if it is its encoding, or its bare domain unless that looks length-prefixed |
| `RetryProof.SysKeeps` | brook-quicclient/src/server/proxy-dispatcher.js:259-371 | every step of the loop and of every attempt, returned ones included, keeps the invariant |
| `RetryResults.OneAttemptServes` | brook-quicclient/src/server/proxy-dispatcher.js:259-379 | over every interleaving: at most one reply, payload only with success, all payload and all client bytes from and to one attempt each |
| `RetryResults.NothingTakenBack` | brook-quicclient/src/server/proxy-dispatcher.js:259-379 | replies, payload and client bytes only grow, and payload stops when the writer is closed |
| `RetryResults.FailureIsLast` | brook-quicclient/src/server/proxy-dispatcher.js:266-270 | after a failure reply nothing reaches the client |
| `RetryResults.LaterIsFutile` | brook-quicclient/src/server/proxy-dispatcher.js:351-360 | an attempt after one that was up cannot reach the client |
| `RetryResults.WorkerIsStrict` | brook-quicclient/src/workers/wt-session.worker.js:155-158 | when the worker is about to start another attempt, success was replied if and only if a tunnel replied after its own end |
| `RetryWitness.WorkerRetriesAfterSuccess` | brook-quicclient/src/workers/wt-session.worker.js:155-158 | a run that reaches this gap |
| `RetryResults.RetryExact` | brook-quicclient/src/server/proxy-dispatcher.js:351-360 | over every interleaving, whatever was replied: when an outcome is examined the loop goes on to another attempt if and only if it was a failure with no client byte taken and no payload, for a reason other than abort or overflow, one is left, and (worker) nothing was replied; else it succeeds or fails |
| `RetryResults.TurnExact` | brook-quicclient/src/workers/wt-session.worker.js:80-170 | what follows a session that failed, a run that threw and a stop, for both policies |
| `RetryResults.ClientIsAnswered` | brook-quicclient/src/server/proxy-dispatcher.js:261-373 | a loop that has ended has replied exactly once, unless the dispatcher was stopped, and has closed both client streams |
| `RetryResults.StreamsClosedExactly` | brook-quicclient/src/server/proxy-dispatcher.js:259-379 | the client streams are closed if and only if some attempt closed them, the loop ended or the client was dropped |
| `RetryWitness.DispatcherRetriesAfterSuccess` | brook-quicclient/src/server/proxy-dispatcher.js:351-360 | a run in which the dispatcher retries after success was replied, the writer already closed |
| `RetryLoop.ProxyLoop.SendSuccessOnce` | brook-quicclient/src/server/proxy-dispatcher.js:261-265 | replies only if nothing was replied |
| `RetryLoop.ProxyLoop.SendFailureOnce` | brook-quicclient/src/server/proxy-dispatcher.js:266-270 | replies only if nothing was replied |
| `RetryLoop.ProxyLoop.OneAttempt` | brook-quicclient/src/workers/wt-session.worker.js:80-170 | one turn of the loop, for both policies |
| `RetryLoop.ProxyLoop.ProcessClient` | brook-quicclient/src/server/proxy-dispatcher.js:278-373 | the loop of at most three attempts and the final failure reply |
| `RetryLoop.LoopEnds` | brook-quicclient/src/server/proxy-dispatcher.js:281-283 | the loop always ends within three attempts and flags are never reset |
| `WtStream.WtKeeps` | brook-quicclient/src/webtransport/wt-stream-adapter.js:28-155 | every arrival, registration, reaction and close keeps the invariant |
| `WtStream.ReplayShape` | brook-quicclient/src/webtransport/wt-stream-adapter.js:30-38 | replay hands over each buffered item once and in order |
| `WtSession.AdapterFifo` | brook-quicclient/src/webtransport/wt-stream-adapter.js:28-132 | handlers are given the arrivals in order without gap or duplicate, FIN last; the rest is buffered within 4 MiB; at most two close calls |
| `WtSession.OverflowExact` | brook-quicclient/src/webtransport/wt-stream-adapter.js:113-116 | overflow happens exactly when an arrival would exceed the limit unregistered; then nothing buffered is given out |
| `WtSession.ClosedTwice` | brook-quicclient/src/webtransport/wt-stream-adapter.js:93-106 | over every run: the registered handler is told of the close twice if and only if FIN came through the open adapter's pump and it did not leave in time; never more often |
| `WtSession.ToldTwiceReached` | brook-quicclient/src/webtransport/wt-stream-adapter.js:93-101 | a registered handler that does not react to FIN is told twice |
| `WtSession.ErrorIsTold` | brook-quicclient/src/webtransport/wt-stream-adapter.js:121-132 | over every run: the handler registered last has been told of one error if the reader failed while the adapter was open and it was registered, else of none; after all data and before the close |
| `WtSession.CloseIsTold` | brook-quicclient/src/webtransport/wt-stream-adapter.js:134-150 | a handler registered when the adapter closes is told, unless it leaves at the error; one that has left is told nothing |
| `WtSession.LateHandlerIsTold` | brook-quicclient/src/webtransport/wt-stream-adapter.js:30-39 | a handler that registers late is given all that was kept and, behind FIN, told of the close once |
| `WtSession.PumpLives` | brook-quicclient/src/webtransport/wt-stream-adapter.js:91-132 | the pump reads on until the adapter is closed, and takes at most one more item after that |
| `WtSession.AdapterMeetsContract` | brook-quicclient/src/webtransport/wt-stream-adapter.js:28-132 | a tunnel that is the one handler of an adapter, driven by the calls of any adapter run, meets the contract its proofs rest on |
| `WtSession.WtStreamSession.RegisterStream` | brook-quicclient/src/webtransport/wt-stream-adapter.js:28-39 | the buffer is emptied first, then replayed |
| `WtSession.WtStreamSession.PumpGot` | brook-quicclient/src/webtransport/wt-stream-adapter.js:108-120 | hand on, buffer, or overflow |
| `WtSession.WtStreamSession.PumpFinished` | brook-quicclient/src/webtransport/wt-stream-adapter.js:93-106 | FIN and close to the handler, or FIN to the buffer; then close |
| `WtSession.WtStreamSession.PumpFailed` | brook-quicclient/src/webtransport/wt-stream-adapter.js:122-131 | error to the handler, then close |
| `WtSession.WtStreamSession.CloseSession` | brook-quicclient/src/webtransport/wt-stream-adapter.js:134-144 | closes once |
| `PortBridge.BridgeKeeps` | brook-quicclient/src/workers/worker-tunnel-bridge.js:14-109 | every message, read and cancellation keeps the invariant |
| `PortBridge.BridgeFifo` | brook-quicclient/src/workers/worker-tunnel-bridge.js:34-96 | nobody waits while something is queued; the k-th read gets the k-th chunk; queued bytes are exact and within 4 MiB |
| `PortBridge.AbortExact` | brook-quicclient/src/workers/worker-tunnel-bridge.js:46-50 | the queue is dropped exactly on an abort or an overflow |
| `PortBridge.ReadsAnswered` | brook-quicclient/src/workers/worker-tunnel-bridge.js:14-96 | over every run: a read is rejected only after an abort or overflow; else read k is answered with chunk k or done |
| `PortBridge.WaitersAnswered` | brook-quicclient/src/workers/worker-tunnel-bridge.js:54-104 | reads that wait when the end, an abort or a cancellation comes are all answered: done, rejected, done |
| `PortBridge.TakenUntilClosed` | brook-quicclient/src/workers/worker-tunnel-bridge.js:34-64 | every chunk is taken until the bridge closes, and none after |
| `PortBridge.PortStreamBridge.OnClientData` | brook-quicclient/src/workers/worker-tunnel-bridge.js:39-53 | resolve, queue, or abort |
| `PortBridge.PortStreamBridge.OnClientFin` | brook-quicclient/src/workers/worker-tunnel-bridge.js:54-64 | end all waiting reads, or queue the end |
| `PortBridge.PortStreamBridge.OnClientAbort` | brook-quicclient/src/workers/worker-tunnel-bridge.js:65-75 | drop the queue and reject all waiting reads |
| `PortBridge.PortStreamBridge.ReadNext` | brook-quicclient/src/workers/worker-tunnel-bridge.js:79-96 | the four answers of a read |
| `PortBridge.PortStreamBridge.CancelReads` | brook-quicclient/src/workers/worker-tunnel-bridge.js:98-104 | end all waiting reads |
| `HttpHeader.FindHeaderEnd` | brook-quicclient/src/protocols/http-proxy-parser.js:9-19 | the scan finds the least place where an empty line ends |
| `HttpHeader.PrefixStable` | brook-quicclient/src/protocols/http-proxy-parser.js:9-19 | a header end found on a prefix is the one of every extension |
| `HttpHeader.ReadHeader` | brook-quicclient/src/protocols/http-proxy-parser.js:36-76 | the accumulating loop |
| `HttpHeader.SplitIndependent` | brook-quicclient/src/protocols/http-proxy-parser.js:42-74 | for every chunking the same header, and the same body as leftover and unread bytes, if the header ends within 65537 bytes |
| `HttpHeader.DependsExactly` | brook-quicclient/src/protocols/http-proxy-parser.js:43-48 | beyond that bound, and only there, the outcome depends on the chunks |
| `HttpHeader.BodySurvives` | brook-quicclient/src/protocols/http-proxy-parser.js:103-152 | body bytes pass the rewrite unchanged |
| `Socks5.Socks5Parser.EnsureBytes` | brook-quicclient/src/protocols/socks5-parser.js:27-59 | reads until enough is there, losing nothing; the cap cannot fire below 1026 bytes |
| `Socks5.Socks5Parser.HandleHandshake` | brook-quicclient/src/protocols/socks5-parser.js:61-89 | for every chunking the outcome and the replies are those of the whole stream |
| `Socks5.Socks5Parser.HandleRequest` | brook-quicclient/src/protocols/socks5-parser.js:91-144 | the request likewise; what follows it is left over |
| `Socks5.Socks5Parser.SendSuccess` | brook-quicclient/src/protocols/socks5-parser.js:148-156 | one reply at most |
| `Socks5.Socks5Parser.SendFailure` | brook-quicclient/src/protocols/socks5-parser.js:158-168 | one reply at most |
| `Socks5.ValidIsAccepted` | brook-quicclient/src/protocols/socks5-parser.js:61-144 | every well-formed stream is accepted with its destination, which the server decodes |
| `Socks5.AcceptedIsValid` | brook-quicclient/src/protocols/socks5-parser.js:61-144 | and only such streams are accepted |
| `Socks5.RepliesExact` | brook-quicclient/src/protocols/socks5-parser.js:61-125 | the bytes of every reply: method 0 or 255, or code 7 or 8 with a zero address; which refusal sends which |
| `Address.Ipv6RoundTrip` | brook-quicclient/src/core/byte-utils.js:61-120 | parsing undoes formatting on all 16-byte values |
| `Address.AbbreviationIsZeroFill` | brook-quicclient/src/core/byte-utils.js:67-99 | `head::tail` parses like its zero-filled expansion, with two words for a dotted last one on either side; refused if that one is, or if there are too many words |
| `Address.WordsExact` | brook-quicclient/src/core/byte-utils.js:70-110 | words of hexadecimal digits without abbreviation are an address if and only if there are eight, none above 0xFFFF; each gives two bytes |
| `Address.DottedTail` | brook-quicclient/src/core/byte-utils.js:73-89 | a dotted last word stands for four bytes in order, or the address is refused |
| `Address.WrappingIgnored` | brook-quicclient/src/core/byte-utils.js:63-64 | brackets and white space around an address do not count |
| `Address.TwoAbbreviations` | brook-quicclient/src/core/byte-utils.js:67-68 | an address with two double colons is refused |
| `Address.BuildIpv6Text` | brook-quicclient/src/core/byte-utils.js:113-120 | the formatting loop |
| `Address.FillWords` | brook-quicclient/src/core/byte-utils.js:103-110 | the parsing loop over eight words |
| `Address.EncodeAddress` | brook-quicclient/src/core/byte-utils.js:144-187 | each of the three forms is encoded as the destination it names |
| `Address.GoDecodesAddress` | brook-quicserver.go/socks5.go:49-87 | the server decodes every encoded host and port to the same target |
| `Address.FormattedIpv6Encodes` | brook-quicclient/src/core/byte-utils.js:166-174 | a formatted IPv6 address is encoded as itself |
| `Address.FormattedIpv4Encodes` | brook-quicclient/src/core/byte-utils.js:149-164 | a dotted IPv4 address is encoded as itself |
| `Address.QuadExact` | brook-quicclient/src/core/byte-utils.js:149-153 | four numbers of one to three digits are an IPv4 address if and only if none is above 255 |
| `Address.NameIsSentAsName` | brook-quicclient/src/core/byte-utils.js:175-187 | a host without colons that holds a character other than digits and dots is sent as its 1 to 255 bytes, or refused |
| `Dns.BuildDnsQuery` | brook-quicclient/src/core/dns-resolver.js:217-247 | the query with its length prefix |
| `Dns.QueryShape` | brook-quicclient/src/core/dns-resolver.js:217-247 | every query, byte by byte: length, identifier, flags, one question, name, type A, class IN |
| `Dns.ParseDnsResponse` | brook-quicclient/src/core/dns-resolver.js:249-288 | the parser's loops end and use no byte out of range |
| `Dns.ResponseRoundTrip` | brook-quicclient/src/core/dns-resolver.js:249-288 | exactly the A records of a length-prefixed response, in order |
| `Dns.UnprefixedRoundTrip` | brook-quicclient/src/core/dns-resolver.js:251 | the same without prefix unless the identifier looks like one |
| `Dns.IdentifierTakenForPrefix` | brook-quicclient/src/core/dns-resolver.js:251 | a 33-byte response with identifier 31 whose answer is lost |
| `Dns.TtlExact` | brook-quicclient/src/core/dns-resolver.js:277 | a time to live comes out as sent if and only if it is below 2^31 |
| `Dns.SkipsQueryName` | brook-quicclient/src/core/dns-resolver.js:255-261 | the name skipper undoes the query builder |
| `Crc32.TableCrc` | scripts/generate-icons.js:9-23 | the table-driven form equals division bit by bit |
| `Crc32.CrcOfEnd` | scripts/generate-icons.js:9-23 | the checksum of the four letters `IEND` is 0xAE426082 |
| `Crc32.BitsAtOnce` | scripts/generate-icons.js:13-15 | k division steps take in k bits put into the register at once |
| `Crc32.TableStep` | scripts/generate-icons.js:19-21 | eight steps are one look-up of the low byte |
| `Crc32.BurstDetected` | scripts/generate-icons.js:9-23 | a change within four neighbouring bytes always shows |
| `Png.ChunkRoundTrip` | scripts/generate-icons.js:25-36 | a chunk can be read back |
| `Png.DamagedChunkRefused` | scripts/generate-icons.js:25-36 | a chunk damaged within four neighbouring bytes is refused |
| `Png.CreateChunk` | scripts/generate-icons.js:25-36 | length, kind, data, checksum |
| `Png.PixelAt` | scripts/generate-icons.js:50-62 | every pixel stands at its place behind the filter byte of its row |
| `Png.FillScanlines` | scripts/generate-icons.js:50-62 | the two loops with one running offset fill all rows |

## Left out

- AES-GCM, HKDF, SHA-256, random nonces, TLS, QUIC and WebTransport: ideal or arbitrary functions, and a reliable ordered stream.
- Real time: timers are events that may fire whenever they are armed; durations are not modelled, so there is no bound on half-close, which later data extends anyway.
- brook-quicclient/src/webtransport/wt-connection-manager.js: its slot bookkeeping after a reset is not single-flight, and slots are chosen before an await.
- The base-key cache of brook-quicclient/src/core/brook-crypto.js: it is keyed by a 32-bit hash and agrees with direct derivation only for passwords that do not collide.
- server.go: connection classification and probe races depend on wall-clock waits and library behaviour.
- The simple unencrypted protocol of the Go server behind its detection (brook-quicserver.go/brook_stream.go from line 457 on).
- Teardown of the two server legs after one of them ends, and their deadlines.
- BrookTunnelClass.BrookTunnel.Seal: sealing a piece is one step; the awaits between sealing the length and sealing the payload are not separate, because no other task touches the client nonce.
- BrookTunnelClass.BrookTunnel.CleanUp: an exception thrown by releasing the transport stream inside cleanup is not modelled; a run throws only before it registers.
- The variables of a tunnel are grouped into records by the task that owns them, instead of some forty separate fields; the nonces are separate buffers.
- BrookTunnelClass.BrookTunnel.KeyDerived: callbacks for logging, byte statistics and handshake notification are left out, and so is the counter of bytes sent.
- RetryLoop.ProxyLoop.ProcessClient: the loop is proved over the results of its attempts; the interleaving with tunnels that still run is the state machine of `Retry`.
- Gauges of concurrent attempts on one socket: `Retry` gives each attempt a gauge of its own; sharing is treated in `Gauges`.
- WtSession.WtStreamSession.RegisterStream: one stream identifier per adapter, as the program uses it, instead of a map; what a handler does from inside a call is a parameter.
- The bridge's own `close` (brook-quicclient/src/workers/worker-tunnel-bridge.js:157-160), which leaves waiting reads unanswered, and its outgoing messages.
- HttpHeader.BodySurvives: the text of the rewritten header (URL parsing, header filtering, character decoding) is a parameter.
- HttpHeader.ReadHeader and Socks5.Socks5Parser.EnsureBytes: the negotiation deadline is left out.
- Address.EncodeAddress: UTF-8 and the reading of decimals in a dotted IPv6 tail are parameters; white space is the ASCII kind; `parseHostPort` is not modelled.
- Destination.DestinationRoundTrip: targets stay structured; the text handed to the dialer (brook-quicserver.go/socks5.go:17-42) is the library's formatting.
- Dns.ResponseRoundTrip: names that mix labels with a trailing pointer, and a pointer in the question, which the parser does not handle; the resolver's cache and its stream handling.
- zlib compression and file writing of the icon script.
- User interface, logging, session tracking, TCP listener, network monitor, worker spawning, build scripts, benchmarks, demo applications.
