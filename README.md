# PeerShare core, modelled in Dafny

PeerShare sends files between two phones over a WebRTC data channel. A small WebSocket relay
introduces the peers. This project models four parts of the system:

- **The signaling relay** (`backend/signaling-server.js`, module `SignalingServer`).
  - Its state is the `peers` map from peer ID to connection, plus each connection's `myId`.
  - Event by event, `register` adds entries and `close` deletes them.
  - `offer`, `answer` and `candidate` messages go to their `to` peer. When that peer is not reachable, the sender gets a `peer-offline` reply.
  - The model has a pure `Step` over a `RelayState` and a `Relay` class whose handlers update `peers`, `myIds` and an outbox of deliveries.
  - The class also has a `down` flag for a process killed by an exception that escapes a listener.
- **The client session registry** (`src/services/PeerConnection.ts`, module `PeerConnection`).
  - The `Registry` class models the module-level `conns`, `pendingCandidates` and `myId`.
  - Its methods cover the offer, answer and candidate branches of the signaling handler, the FIFO candidate drain, `close`, `destroyPeer` and the start of `connectToPeer`.
  - `send`, `onData` and `safeAddCandidate` are pure functions.
  - The legacy in-memory `sendFile` chunker is a method with a loop.
- **The streaming sender** (`src/services/sendFile.ts`, module `SendFile`).
  - `sendFileStream` is a method, and its chunk loop and `bufferedAmount` backoff loop are methods too.
  - The file system and the channel's buffer level are parameters.
  - The result records everything the sender did: the frames sent, the progress calls, the waits at the high-water gate, and the temporary file made and unlinked.
- **The receiver** (`src/services/receiveFile.ts`, module `ReceiveFile`).
  - `handleMessage` is a pure `Step` over the active transfer and the files on disk.
  - The `writeQueue` chain is a fold of `Step` over the arrivals.
  - The `FileReceiver` class holds the same state in fields. Its `HandleMessage` and `Deliver` are proved equal to `Step` and the fold.

Two shared modules support these. `Common` holds the wire vocabulary. `Chunking` holds the `min(CHUNK, remaining)` cutting that both senders use.

The module `EndToEnd` connects the two file modules. A successful `sendFileStream` produces frames that, handed in order to the receiver with every storage call succeeding, leave a byte-identical copy of the file at its final path. The receiver's progress calls then repeat the sender's.

The data channel's ordering and reliability guarantee is an assumption of that lemma: frames arrive in the order they were sent.

Where the intended protocol and the code differ, the model follows the code:

- The protocol calls a second `file-meta` during an active transfer a protocol violation. The code silently replaces the active transfer (`src/services/receiveFile.ts:43-57`), and so does `ReceiveFile.Step`.
- The protocol says a failure discards the in-flight transfer. In the code, a parse, close, finalize or write failure only calls `onError` and leaves `activeTransfer` set (`src/services/receiveFile.ts:102-105`, `121-124`). The model keeps it too.

## Model

| member | source | states |
|---|---|---|
| SignalingServer.Route | backend/signaling-server.js:34-39 | a relayed message goes, unchanged, to the `to` connection exactly when that ID is mapped and its connection is open; otherwise one `peer-offline{to}` goes back to the sender |
| SignalingServer.Step | backend/signaling-server.js:14-48 | an unparseable or `null` message changes nothing and sends nothing; `register` with a non-empty id maps it to the sender, records `myId` and sends nothing; offer/answer/candidate send exactly the one `Route` delivery and leave the map alone; other messages are ignored; close deletes `myId` from `peers` when set and changes nothing otherwise |
| SignalingServer.PeersAreLastRegistrants | backend/signaling-server.js:22-26 | after any trace, every mapped ID is non-empty and maps to the connection that registered it last (last writer wins) |
| SignalingServer.RegisteredIdsStayMapped | backend/signaling-server.js:22-26 | in a trace without disconnects, an ID is mapped if and only if someone registered it |
| SignalingServer.SendsOnlyRelayedOrOffline | backend/signaling-server.js:29-41 | every message the relay ever sends is a relayed offer/answer/candidate or a `peer-offline` reply |
| SignalingServer.StaleCloseEvictsLiveRegistration | backend/signaling-server.js:43-48 | a connection that re-registers an ID before the old connection's close arrives loses the mapping, and an offer to it gets `peer-offline` |
| SignalingServer.StepGuarded | backend/signaling-server.js:43-48 | messages behave exactly as `Step`; the corrected close deletes the connection's ID when it still maps to that connection, and otherwise (the ID now belongs to another connection, or it has none) changes nothing and sends nothing |
| SignalingServer.RunAsWrittenDiesOnNull | backend/signaling-server.js:14-22 | as written, the relay process survives a trace if and only if no message in it is `null`, and then it behaves exactly as `Run` |
| SignalingServer.NullBodyKillsRelay | backend/signaling-server.js:22 | as written, one `null` message from any client takes the relay down, and a registered peer can no longer be reached; dropping the message would have forwarded the offer |
| SignalingServer.NullBodyChangesNothing | backend/signaling-server.js:16-20 | with a `null` body dropped like unparseable JSON, such a message changes no state and sends nothing |
| SignalingServer.GuardedCloseKeepsLiveRegistration | backend/signaling-server.js:43-48 | with the corrected close, an ID stays mapped to its last registrant for as long as that connection has not closed |
| SignalingServer.Relay.constructor | backend/signaling-server.js:11-13 | the relay starts running, with an empty `peers` map and no `myId` |
| SignalingServer.Relay.OnMessage | backend/signaling-server.js:14-42 | a `null` body takes the process down, and a dead process handles nothing; otherwise the message handler changes `peers`, `myIds` and the outbox exactly as `Step` says, case by case, and keeps the empty ID out of `peers` |
| SignalingServer.Relay.OnClose | backend/signaling-server.js:43-48 | while the process runs, the close handler deletes the connection's `myId` from `peers` when it has one, and otherwise changes nothing |
| PeerConnection.SafeAddCandidate | src/services/PeerConnection.ts:18-37 | a falsy candidate is never applied and yields undefined; otherwise the result is true if and only if `addIceCandidate` accepted it, and false if and only if it threw |
| PeerConnection.Drain | src/services/PeerConnection.ts:54-64 | the applied candidates followed by the remainder are the queue in its original order; every applied candidate was accepted; the remainder is empty or starts with a candidate that failed |
| PeerConnection.DrainUnique | src/services/PeerConnection.ts:54-64 | those three properties determine the drain: it applies the longest accepted prefix of the queue |
| PeerConnection.DrainIdempotent | src/services/PeerConnection.ts:54-66 | draining again right after a drain applies nothing and leaves the queue as it is |
| PeerConnection.Enqueue | src/services/PeerConnection.ts:244-247 | queueing appends the candidate at the end of that peer's list, leaves every other peer's list alone and never creates an empty list |
| PeerConnection.AfterDrain | src/services/PeerConnection.ts:65-66 | after a drain the peer's entry is gone when nothing is left and holds the remainder otherwise; other peers are untouched and no list is empty |
| PeerConnection.Send | src/services/PeerConnection.ts:99-111 | `send` fails with `Dc not open` if and only if the channel is absent or not open; strings and bytes pass through unchanged and any other value is serialized |
| PeerConnection.OnData | src/services/PeerConnection.ts:314-326 | binary data reaches the handler unchanged; text reaches it parsed when it parses and raw when it does not |
| PeerConnection.SendOnDataRoundTrip | src/services/PeerConnection.ts:99-111 | a structured value sent on an open channel reaches the peer's `onData` handler as the same value |
| PeerConnection.SendFile | src/services/PeerConnection.ts:328-346 | the legacy chunker fails with `Dc not open` if and only if the channel is not open; otherwise it sends `fileMeta{name,total}`, one offset-tagged chunk per 64 KiB piece, then `fileComplete{name}` |
| PeerConnection.LegacyChunksCoverFile | src/services/PeerConnection.ts:337-344 | the legacy chunks' offsets run from 0 without gaps to the file size; every chunk is non-empty and all but the last are 64 KiB; together they are the file |
| PeerConnection.Registry.constructor | src/services/PeerConnection.ts:13-16 | the registry starts with no sessions, no queued candidates and no `myId` |
| PeerConnection.Registry.OnSignalingOpen | src/services/PeerConnection.ts:84-87 | opening the signaling socket sets `myId` and touches neither map |
| PeerConnection.Registry.DrainPendingCandidates | src/services/PeerConnection.ts:40-67 | the drain is a no-op when the queue is absent or empty, or the session is missing or has no remote description; otherwise the candidates are tried in FIFO order up to the first failure, which goes back to the head, and the queue map ends as `AfterDrain` says |
| PeerConnection.Registry.OnOffer | src/services/PeerConnection.ts:173-183 | an offer installs a fresh responder session in place of any existing one; if the remote description is set, the peer's queue is drained |
| PeerConnection.Registry.OnAnswer | src/services/PeerConnection.ts:208-225 | an answer for an unknown peer, or one whose remote description fails, changes nothing; otherwise the session gets its remote description and the peer's queue is drained |
| PeerConnection.Registry.OnCandidate | src/services/PeerConnection.ts:226-267 | a null candidate is ignored; one for a peer without a session or without a remote description is appended to that peer's queue; otherwise it is applied directly, and appended to the queue when that does not succeed; `conns` never changes |
| PeerConnection.Registry.OnSignal | src/services/PeerConnection.ts:170-271 | the signaling handler ignores messages of other types and messages without `from`; an offer with an SDP always leaves a session for its sender; a candidate never touches `conns` |
| PeerConnection.Registry.ConnectToPeer | src/services/PeerConnection.ts:279-282 | connecting is refused if and only if the client has no `myId`; otherwise an initiator session with a connecting channel replaces any session for that peer |
| PeerConnection.Registry.Close | src/services/PeerConnection.ts:112-120 | `close` removes the peer from `conns` whatever its prior state and changes nothing else |
| PeerConnection.Registry.DestroyPeer | src/services/PeerConnection.ts:348-358 | `destroyPeer` leaves `conns` empty and `myId` unset |
| PeerConnection.CloseTwice | src/services/PeerConnection.ts:112-120 | calling `close` twice has the same effect as calling it once |
| Chunking.SplitJoined | src/services/sendFile.ts:48-72 | the pieces cut from a file, laid end to end, are the file |
| Chunking.SplitContiguous | src/services/sendFile.ts:55-70 | the pieces start at offset 0, each starts where the previous one ends, and the last ends at the file size |
| Chunking.SplitWellSized | src/services/sendFile.ts:55-56 | every piece is non-empty and at most CHUNK bytes, and all but the last are exactly CHUNK bytes |
| Chunking.SplitSlices | src/services/sendFile.ts:55-66 | each piece holds exactly the file's bytes between its offset and its end |
| Chunking.EndsIncrease | src/services/sendFile.ts:70 | the offsets after successive pieces strictly increase, and the last one is the file size |
| SendFile.ResolveFile | src/services/sendFile.ts:14-21 | only `content://` URIs are copied to a temporary path; every other URI is used as it is |
| SendFile.AllGatedEach | src/services/sendFile.ts:50-53 | the gate record the loop keeps says, for every chunk sent, that the last poll before its read found the buffer at or below the mark and every earlier poll found it above |
| SendFile.WaitForRoom | src/services/sendFile.ts:51-53 | the backoff loop stops at the first poll at which `bufferedAmount` is at or below the high-water mark, the poll at which `Backoff` lets the chunk through |
| SendFile.BackoffFinds | src/services/sendFile.ts:51-53 | the backoff as written lets a chunk through at the first poll that finds the buffer at or below the mark |
| SendFile.StuckBackoffNeverSends | src/services/sendFile.ts:51-53 | as written, when the buffer never falls to the mark, no number of polls lets the chunk through, so the send never reaches its `finally` block |
| SendFile.WaitForRoomOrClose | src/services/sendFile.ts:51-53 | the corrected backoff stops at the first poll that finds room or a channel that is no longer open; it finds room exactly when the channel is still open, and a buffer that never drains always ends it without room |
| SendFile.StreamedStep | src/services/sendFile.ts:55-71 | one turn of the chunk loop sends the next `min(CHUNK, remaining)` bytes of the file, advances the offset past them and reports it |
| SendFile.StreamedStops | src/services/sendFile.ts:50-72 | where the chunk loop stops, at the end of the file or at a failed read, it has sent the file's pieces in order up to that point |
| SendFile.StreamChunks | src/services/sendFile.ts:48-72 | the chunk loop sends the file's pieces in order, each gated by the high-water mark and followed by `onProgress(offset, total)`; it sends them all unless a read fails, and then it stops at the first failing read |
| SendFile.SendFileStream | src/services/sendFile.ts:23-83 | it fails with `DataChannel not ready` before any file access when the channel is not open; otherwise it sends `file-meta{name,size}`, the gated chunks and `file-complete{name}` on success; a staged copy of a `content://` URI is unlinked on every outcome and the original is never unlinked |
| SendFile.ChunksReassemble | src/services/sendFile.ts:48-72 | the chunks of a complete send are the file: their lengths are CHUNK except the last, and their bytes laid end to end give the content back |
| SendFile.ProgressIncreasesToTotal | src/services/sendFile.ts:70-71 | the progress values of a complete send strictly increase, all carry the total, and the last one equals the total |
| SendFile.EmptyFileSendsMetaThenComplete | src/services/sendFile.ts:50 | a zero-byte file yields no chunk and no progress call |
| ReceiveFile.Step | src/services/receiveFile.ts:37-125 | one message keeps `received` equal to the bytes written and fires at most one callback; nothing changes when nothing fires; files change only on `file-complete`; `onStart` comes with a fresh empty transfer; `onProgress` with the payload appended; `onComplete` with the transfer cleared and its bytes at the path given; `onError` leaves the transfer in place; which input leads to which of these is stated by `MetaStarts`, `CompleteSaves` and the lemmas below |
| ReceiveFile.StrayBinaryDropped | src/services/receiveFile.ts:106-113 | a binary message with no active transfer, or with no `ArrayBuffer` behind it, is dropped with no callback and no change |
| ReceiveFile.StrayCompleteIgnored | src/services/receiveFile.ts:58-59 | a `file-complete` with no active transfer is ignored |
| ReceiveFile.OtherTextIgnored | src/services/receiveFile.ts:41-58 | text whose `type` is neither `file-meta` nor `file-complete`, JSON that is not an object included, is ignored |
| ReceiveFile.FailuresChangeNothing | src/services/receiveFile.ts:102-124 | text that does not parse or is `null`, a stream that does not open, a failed close on an active transfer, and a failed write on an active transfer each fire exactly one `onError` with their cause and change nothing |
| ReceiveFile.IosMoveFailureKeepsTransfer | src/services/receiveFile.ts:85-105 | on iOS a failed move fires `onError`, keeps the transfer active with its stream closed, and leaves the older file at the document path deleted |
| ReceiveFile.AndroidFallsBackToTempPath | src/services/receiveFile.ts:65-84 | on Android, when the media-store copy or the unlink of the temporary file fails, the transfer still completes once, at the temporary path, which holds its bytes; a copy that succeeded stays in the media store, and every other file stays as it was |
| ReceiveFile.NameOf | src/services/receiveFile.ts:44 | the transfer's name is the meta's name when it has one, and a non-empty default otherwise |
| ReceiveFile.MetaStarts | src/services/receiveFile.ts:43-57 | a `file-meta` whose stream opens starts a transfer with `received = 0` and the declared size, replacing any active one unchecked, and fires `onStart` once |
| ReceiveFile.CompleteSaves | src/services/receiveFile.ts:58-100 | a `file-complete` on an active transfer whose close and platform save succeed puts its bytes at the final path, replacing what was there, keeps every other file as it was, clears the transfer and fires `onComplete` once with its name and size |
| ReceiveFile.FoldConcat | src/services/receiveFile.ts:34-36 | handling one batch of messages and then another is the same as handling them together in order |
| ReceiveFile.RunKeepsInv | src/services/receiveFile.ts:34-36 | any sequence of messages keeps `received` equal to the bytes written and fires at most one callback per message |
| ReceiveFile.ReceiveChunks | src/services/receiveFile.ts:106-120 | binary messages on an active transfer append their payloads in arrival order; `received` grows by exactly their lengths, and each reports the running total |
| ReceiveFile.ReceiveWholeFile | src/services/receiveFile.ts:34-130 | meta, payloads and complete with every storage call succeeding fire `onStart`, one progress call per payload and one completion, and the final path holds the payloads concatenated while every other file stays as it was |
| ReceiveFile.NineBytesInThreeChunks | src/services/receiveFile.ts:106-120 | a size-9 meta and three 3-byte payloads report progress 3, 6, 9 and complete once with a 9-byte file, adding only that file |
| ReceiveFile.FileReceiver.constructor | src/services/receiveFile.ts:30-32 | a receiver starts with no active transfer |
| ReceiveFile.FileReceiver.HandleMessage | src/services/receiveFile.ts:37-125 | the imperative handler updates the active transfer and the files, and emits callbacks, exactly as `Step` says |
| ReceiveFile.FileReceiver.Deliver | src/services/receiveFile.ts:34-36 | handling the queued messages one at a time, in order, produces the state and callbacks of the fold of `Step` |
| ReceiveFile.Attach | src/services/receiveFile.ts:26-28 | attaching fails with `attachFileReceiver: DataChannel missing` if and only if the connection has no data channel |
| EndToEnd.ConcatPayloads | src/services/receiveFile.ts:114-118 | what the receiver writes for the sender's chunks is the sender's pieces laid end to end |
| EndToEnd.ProgressMirrors | src/services/sendFile.ts:70-71 | the receiver's running byte counts are the sender's offsets after each chunk |
| EndToEnd.SentFrames | src/services/sendFile.ts:44-74 | a successful send's frames are the meta, one chunk per piece of the file, then the complete, and its progress calls are the offsets after each piece |
| EndToEnd.FileArrivesIntact | src/services/sendFile.ts:44-74 | a successful send, received with every storage call succeeding, leaves no active transfer, the sent content at the final path and every other file as it was, and the callbacks `onStart`, the sender's progress calls repeated, then `onComplete` |

## Left out

- WebRTC internals, the WebSocket, and the express/http setup are left out. This covers `RTCPeerConnection`, offer and answer creation, ICE events, `connectWs` and `initializePeer`'s wiring. `setRemoteDescription` and `addIceCandidate` are oracles: a success flag and an accept predicate.
- Timers and polling are left out. This covers the 50 ms open checks, `sleep(10)` and the 30 s `connectToPeer` timeout. The timeout's only effect on the registry is `close`, which is modelled. The backoff is modelled as a poll count.
- SendFile.SendFileStream: assumes that before every chunk the buffer falls to the high-water mark after finitely many polls. Without that assumption the source waits forever; see Findings.
- SendFile.WaitForRoom: the level recorded for a chunk is the one read at its last poll. The send comes after the file read, and the buffer can change in between, for example while another send runs on the same channel.
- The race between an awaiting drain and candidates arriving at the same time is left out. The drain is modelled as atomic.
- JSON and base64 are left out. Messages are datatypes, and a falsy JSON field is the empty string.
- The relay's connection IDs are numbers, not socket objects.
- A JSON `null` body makes the relay's `msg.type` throw. `Step` and `Run` drop it, and `RunAsWritten` and the `Relay` class model the crash. See Findings.
- PeerConnection.Enqueue: an array-valued `candidate` is left out. `concat` spreads it, so an empty array stores an empty list for a peer without a session, and the drain never deletes that list. With such input the source does not keep `NoEmptyQueue`.
- Each receiver step uses a single clock stamp, although the code reads `Date.now()` twice (name and temp path).
- `Number(size)` is an integer. A `NaN` size is not modelled.
- The temporary file of a transfer that a second `file-meta` replaces is not tracked in `files`.
- The function that `attachFileReceiver` returns to detach the listener is left out.
- The `writeQueue` catch is left out. Every handler error is already caught inside the step.
- The receiver's `file-complete` frame carries its size as 0, because the frame has no size field.
- PeerConnection.Registry.OnOffer: the answer sent back after the drain, and the wait for the channel to open, are not modelled. Both go through the WebRTC library and timers.
- PeerConnection.Registry.OnSignal: states only what the routing guarantees; what each branch does is stated by `OnOffer`, `OnAnswer` and `OnCandidate`.
- PeerConnection.OnData: re-invoking the handler with the raw value when the handler itself throws is not modelled.
- SendFile.SendFileStream: a failure of the `file-meta` or a chunk `send` itself is not modelled. Progress and frames are kept in two separate logs rather than interleaved.
- SendFile.SendFileStream: `chunkSize` must be positive. With 0 the source loop never ends.
- ReceiveFile.Step: on iOS, `exists` and `unlink` of an old file at the document path are assumed to succeed. Only the final `mv` can fail.
- PeerConnection.Registry.Close: `close` removes the entry by peer ID, not by session object. When both peers connect at once, an incoming offer replaces our initiator session with a responder. The initiator's 30 s timeout then calls `close` and removes the newer responder session. `Close(remoteId)` cannot tell the two sessions apart, so the model does not show this.
- The UI screens, the SQLite history database and the theme are left out.

## Findings

| source | as written | input that shows it | evidently intended | confidence | as-written member | corrected member |
|---|---|---|---|---|---|---|
| backend/signaling-server.js:43-48 | the close handler deletes `peers[myId]` whatever connection the ID now maps to | connection 1 registers `111111`, connection 2 registers `111111`, connection 1 closes, then an offer to `111111` arrives: it gets `peer-offline` although connection 2 is open | delete the entry only while it still maps to the closing connection | not executed | SignalingServer.StaleCloseEvictsLiveRegistration | SignalingServer.GuardedCloseKeepsLiveRegistration |
| backend/signaling-server.js:16-22 | a body that parses to `null` passes the `try`, then `msg.type` throws inside the listener and nothing catches it | a client sends the text `null` | drop it like unparseable JSON | plausible; not executed | SignalingServer.NullBodyKillsRelay | SignalingServer.NullBodyChangesNothing |
| src/services/sendFile.ts:51-53 | the backoff polls `bufferedAmount` with no exit other than room on the channel | the channel closes with more than the high-water mark still queued; `bufferedAmount` is not reset by a close, so the loop never ends and the staged copy is never unlinked | stop waiting once the channel is no longer open (the corrected wait is modelled on its own; the failing send and its cleanup are not) | plausible; not executed | SendFile.StuckBackoffNeverSends | SendFile.WaitForRoomOrClose |

The `Relay` class and `Step` model the close handler as written. `StepGuarded` and `RunGuarded` define the corrected close that the first row's last column refers to.

For the `null` body, `Step` and `Run` drop the message, which is the corrected behaviour. `RunAsWritten` and the `Relay` class's `down` flag model the crash.

`SendFileStream` keeps the source's backoff, under the assumption listed in "Left out". `WaitForRoomOrClose` is the corrected wait.
