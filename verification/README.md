# A verified model of croc's transfer core

croc sends files from one client to another through a relay. This project
models the four parts of it in which things happen at the same time, and proves
what they promise over every interleaving, every segmentation of the byte
streams and every run.

**The transfer.** `Transfer.dfy` runs two clients against each other. A state
holds both `ClientState`s and program points (`Protocol.dfy`), two FIFO control
channels, and the data plane (`Pipeline.dfy`): the queue to the reader task,
the buffers held by spawned encrypt tasks, the data connection, the queue to the
writer task and the spawned writer tasks with their shared open files. The data
connection (`Transport.dfy`) is not a queue by assumption: it is the sender's
frame channel, its socket writer, two TCP streams, the relay's 1024-byte copy
buffer, the receiver's half-read frame and its payload channel, moved by partial
reads and writes of any size, and it is proved to be a faithful queue of messages. A
writer task (`FileTasks.dfy`) decrypts, locks, seeks, writes in pieces and
unlocks, each a step of its own; the cursor belongs to the open file and two
open files may be one file, also under two spellings of its path. The receiver
creates a file and gives it its length in two steps, between which tasks of
earlier files may write.

`EndToEnd.TransferCompletes` is the main result: for every scheduler, every run
of an honest and agreed transfer reaches a state in which both sessions have
returned and all tasks are done; there the destination holds the source files
if and only if no file was announced with two different contents; and on
the way nobody panics or fails. It rests on an inductive invariant that ties both
clients to the exact contents of both control channels (`Transfer.Control`) and
every byte under way to the file and offset it was cut from (`Pipeline.PipeInv`), on
a step enabled in every state that is not final, and on a lexicographic measure
that every step lowers. `Pings.dfy` runs the same machine with keepalive pings on
the data connection, where the receiver runs ahead of the sender, and proves what
they cost. `Refusals.dfy` follows the transfers that are never agreed to their end,
`Safety.dfy` has what every configuration keeps, honest or not, and `Peers.dfy` what a
single client makes of a peer that sends whatever it likes.

**The relay.** `Rooms.dfy` is the room protocol of the relay for any number of
connection handlers, with the map lock, the per-room locks and every await
between them as steps. A room is an entry of a heap, so a name can come to stand
for a newer room while a handler still holds the old one. Its theorems are in
`RelayTheorems.dfy` and `RelayTurns.dfy`: bridges are made between the two clients of one room and
only once, removal hits the room that was relayed, the unwraps cannot fail, a client
receives whole pings and then its peer's bytes, a relay ends only when a direction
failed or both are at end of file, every turn of a handler leads where it should, a
handler that waits for nobody can go on, and handlers can deadlock if and only if
three connections ask for one room name.

**Frames, text and keepalive.** `Framing.dfy` is the frame format, byte by byte, with
its round trip and its behaviour on streams cut anywhere; `Utf8.dfy` says where text can
be cut. `Keepalive.dfy` is the sending client's
wait: which streams end it, where it leaves the stream, and that it composes with
what the relay provably sends.

**Code that updates state in place** is modelled as such and proved against the
functions and machines above: the connection with its reader, writer and copy
loops (`CrocRaw.dfy`), the session object (`ClientSession.dfy`), whose turns are
shown to be steps of the joint machine (`SessionTurns.dfy`), the chunk and counting
loops (`Chunks.dfy`), open files with a cursor (`OpenFiles.dfy`), the
wait loop (`Keepalive.dfy`) and the room objects and map of the relay, whose
methods are shown to be steps of the room machine (`Server.dfy`).

## What does not hold

Some things one would expect of the code are false. Each is proved with the exact
condition under which it does hold.

- *No panicking arm is reached.* `EndToEnd.PanicsExactlyWhen`: one can be reached
  if and only if no first few characters of the secret have just five bytes, the
  sending user gave no files (an `unwrap`), or the receiving user refuses (the refusal
  is an error message that the sender has not implemented). The first happens when the
  secret is shorter (`connect` only asks for four bytes) and when the cut is inside a
  character: "abcdéf" is seven bytes long, and the cut falls between the two bytes of
  its é. `Refusals` says which of the two ends panics when.
- *All files arrive.* `EndToEnd.DeliveredExactlyWhen`: if and only if entries
  that name one file, in whatever spelling, have the same content; otherwise a later
  entry truncates and overwrites an earlier one.
- *A ping does no harm.* `Pings.PingsCostExactly`: with `p` pings ahead of the chunks on
  the data connection, the first `p` frames counted are pings, whose writer tasks
  crash, and as many chunks never reach a file; all tasks get chunks if and only if
  there are no pings or all files are empty. Every other frame goes `p` places too
  late, that is, to whichever file that place belongs to
  (`Pings.PingsComeFirst`, `ClientSessions.StraysShiftFiles`).
- *The relay does not deadlock.* `RelayTheorems.DeadlocksExactlyWhen`: a cycle of
  waits is reachable if and only if three connections ask for one name. The
  comment in `src/relay/server.rs:82-85` is right that no ping follows the start of a relay
  (`RelayTheorems.NoPingAfterBridge`), but the room lock is not held for ever: the handler
  releases it after asking for the map lock, in the opposite order to
  `negotiate_info`.

Also, the receiver sends `Finished` twice, once after its file loop and once in
answer to the sender's; and for empty files it can have several requests under way at
once. Both are part of the invariant.

## Model

| member | source | states |
|---|---|---|
| `EndToEnd.TransferCompletes` | src/proto/client_session.rs:119-410 | Every maximal run of an honest, agreed transfer (a secret that can be cut, files, a user who says yes), under any scheduler and segmentation, reaches a state where both sessions returned and all tasks finished; the files then equal the sources exactly when no file was announced with two contents; no state of the run has a panicked or failed session. |
| `EndToEnd.DeliveredExactlyWhen` | src/relay/fs.rs:61-88 | In every reachable final state, every announced path names a file that holds its source content, if and only if entries that name one file have equal contents. |
| `EndToEnd.NoMixing` | src/proto/client_session.rs:187-239 | In every reachable state every frame handed to the writer task, and every task still writing, carries a chunk of the very file it is written to; the ranges to read, the buffers, the frames on the connection and the frame the receiver holds all belong to the file being received; between files the data path is empty. |
| `EndToEnd.NoForeignBytes` | src/relay/fs.rs:61-88 | In every reachable state of an agreed transfer in which files announced twice agree, every byte of every file created is its source's or zero: nothing of what it held before or of another file. |
| `EndToEnd.NoPanicNoFailure` | src/proto/client_session.rs:149-186 | No reachable state of an honest, agreed transfer has a session in a `todo!`, failed `unwrap` or `assert!`, or with an error. |
| `EndToEnd.PanicsExactlyWhen` | src/proto/client_session.rs:131-377 | For every honest configuration with a secret that is UTF-8 text, a panicking state is reachable if and only if no first few characters of that text have five bytes, the sender has no files, or the user refuses. |
| `EndToEnd.SplitCharacterPanics` | src/proto/client_session.rs:131-136 | With "abcd", any character of more than one byte and anything after it as the secret, which passes every length check, a panicking state is reachable whatever else is configured. |
| `Refusals.SenderPanicsExactlyWhen` | src/proto/client_session.rs:169-179 | The sender can panic if and only if the secret is shorter than five bytes, or can be cut after five and there are no files or the user refuses. |
| `Refusals.ReceiverPanicsExactlyWhen` | src/proto/client_session.rs:131-136 | The receiver can panic if and only if the secret cannot be cut after five bytes. |
| `Refusals.NothingIsTouched` | src/proto/client_session.rs:348-356 | In every reachable state of an honest transfer that is not agreed, the data plane is as it was at the start, no file has been asked for and neither session has returned. |
| `Refusals.RefusalIsFinal` | src/proto/client_session.rs:348-356 | In every reachable state in which the error message is on the channel, the user has refused, the receiver has stopped with that error, and nothing else is on the channel. |
| `Refusals.UnagreedEnds` | src/proto/client_session.rs:119-186 | Every maximal run of a transfer that is not agreed ends, with each session exactly where the reason leaves it: refused and panicked, panicked and waiting, or panicked at the cut. |
| `Utf8.CutsExactlyWhen` | src/proto/client_session.rs:135 | The test on the bytes holds of the encoding of a text exactly when the first few of its characters have five bytes. |
| `Utf8.BoundaryExactlyWhen` | src/proto/client_session.rs:263 | Any position in the encoding of a text is the end of its first few characters exactly when it is the end or the byte there continues no character. |
| `Safety.StoppedForGood` | src/proto/client_session.rs:119-243 | In any configuration, a client that has returned, failed or panicked never changes, sends or creates anything again. |
| `Safety.QueuesAreBounded` | src/relay/fs.rs:102-103 | In every reachable state of any configuration the four bounded queues are within their capacity and the relay's buffer within 1024 bytes. |
| `Safety.NothingWithoutConsent` | src/proto/client_session.rs:338-365 | In every reachable state of any configuration, also with a peer that lies about sizes: without the user's yes, the folders and a list nothing is created, read, sent or asked for; what is asked for was announced, and the receiver gets past no negative size and fails for one only if there is one. |
| `Peers.AnyPeer` | src/proto/client_session.rs:143-186 | Whatever its peer sends, a client still at work holds a session exactly when it has exchanged keys, has its peer's address before it comes to files, and receives files only with consent. |
| `Peers.SessionsComeFromKeys` | src/proto/client_session.rs:256-304 | A session is made of exactly the exchanges that are accepted, from the key both can compute and the sender's salt, and answered as they should be. |
| `Peers.BadExchangesStop` | src/proto/client_session.rs:256-291 | Any other exchange stops the client without a session, with a panic or with the error that says what was wrong. |
| `Peers.AddressesExactlyWhen` | src/proto/client_session.rs:307-327 | An address is taken exactly when keys are exchanged and it comes next; the sender answers with its own and its files. |
| `Peers.ListsExactlyWhen` | src/proto/client_session.rs:328-367 | A file list is taken exactly by a receiver that waits for one, and the user, the folders and the list decide what comes of it. |
| `Peers.RequestsExactlyWhen` | src/proto/client_session.rs:167-175 | A request is served exactly by a sender that has announced that file; every other request and every error message panics. |
| `EndToEnd.SessionAgreement` | src/proto/client_session.rs:256-304 | In every reachable state, two ends that both hold a session hold the same key and salt, and no chunk is requested, sealed or under way before both do. |
| `EndToEnd.Progress` | src/proto/client_session.rs:143-243 | Every reachable state that is not final has an enabled step, for queues of any capacity from one up. |
| `EndToEnd.StepBelow` | src/proto/client_session.rs:216-239 | Every step from a reachable state lowers a ten-part lexicographic measure: phase, files, frames, requests to serve, chunks to queue, and the stages of the data plane. |
| `EndToEnd.RunEnds` | src/proto/client_session.rs:143-243 | From every point of it on, a run that goes on while it can becomes final. |
| `TransferSteps.StepKeeps` | src/proto/client_session.rs:143-243 | Every step of either client or any task keeps the joint invariant. |
| `TransferSteps.ReachableInv` | src/proto/client_session.rs:119-243 | The joint invariant holds in every reachable state. |
| `TransferSteps.RequestServed` | src/proto/client_session.rs:368-409 | A request for an announced file starts the chunk loop at that file, or does nothing when it is empty. |
| `Pipeline.ReadKeeps` | src/relay/fs.rs:24-47 | The reader task's turn turns a genuine range request into a buffer holding that offset and those source bytes, keeping the pipeline invariant. |
| `Pipeline.SendKeeps` | src/relay/fs.rs:41-46 | An encrypt task may queue its chunk at any time, in any order relative to the others, without breaking the pipeline invariant. |
| `Pipeline.FileCompletes` | src/proto/client_session.rs:216-239 | When the receiver has counted a file's frames, all its chunks were queued and none is left on the way. |
| `Pipeline.CreateFileKeeps` | src/proto/client_session.rs:197-204 | Creating the next file, also over a file in use, keeps the pipeline invariant. |
| `Pipeline.SizeFileKeeps` | src/proto/client_session.rs:206-214 | Giving it its length, also when tasks of earlier files have written to it since, leaves a file of the announced length and keeps the pipeline invariant. |
| `Pipeline.DrainedIsDelivered` | src/relay/fs.rs:61-88 | Once nothing is under way and all writers have settled, every file holds its source. |
| `FileTasks.StepKeepsExclusion` | src/relay/fs.rs:76-82 | Under every interleaving of writer tasks, a file's lock names exactly the task between lock and release, and after that task has sought the cursor is at its own next byte. |
| `FileTasks.MutualExclusion` | src/relay/fs.rs:76-82 | Two tasks past the lock of one file are the same task. |
| `FileTasks.StepWritesSource` | src/relay/fs.rs:76-82 | No step changes the length of a file, and any range that matches the source goes on matching it, including what a writer has written so far. |
| `FileTasks.StepKeepsCovered` | src/relay/fs.rs:65-86 | A chunk that is in the file or with a task stays so through every step. |
| `FileTasks.AllLandedIsWhole` | src/relay/fs.rs:63-87 | When all tasks are complete and every chunk was covered, the file equals the source. |
| `FileTasks.DiskProgress` | src/relay/fs.rs:65-86 | Unless all tasks have ended, some task can step: a blocked one waits for one that can go on. |
| `FileTasks.StepDecreases` | src/relay/fs.rs:65-86 | Every step of a writer task leaves less to do. |
| `Chunks.SplitFile` | src/proto/client_session.rs:388-406 | The chunk loop's ranges are non-empty, at most 65536 long, contiguous from 0 to the file size, and as many as the receiver counts; the k-th starts at k times 65536. |
| `Chunks.CutIsDisjoint` | src/proto/client_session.rs:388-393 | Ranges of an exact cut are pairwise disjoint and inside the file. |
| `Chunks.CutCovers` | src/proto/client_session.rs:388-393 | Every position of the file lies in one of the ranges. |
| `Chunks.CountFrames` | src/proto/client_session.rs:216-237 | For every advertised size, also a negative one, the counting loop takes the next frames in order, exactly as many as the chunk count or as there are. |
| `Chunks.CountAgrees` | src/proto/client_session.rs:216 | The receiver's `div_ceil` exceeds k exactly when the sender's loop reaches offset k times 65536; it is zero exactly for the empty file. |
| `Chunks.PingsDisplaceChunks` | src/proto/client_session.rs:220-233 | For one file: of frames that begin with pings, all chunks are forwarded if and only if there is no ping or the file is empty. |
| `ClientSessions.StraysShiftFiles` | src/proto/client_session.rs:187-239 | For any list of files: when stray frames precede the chunks, every file is given exactly its own chunks if and only if there are no stray frames or no chunks. |
| `Pings.PingsComeFirst` | src/proto/client_session.rs:220-233 | In every run of the joint machine that starts with p pings on the data connection, the first p writer tasks hold the pings and no other does, each task writes to the file its place belongs to, and neither session panics. |
| `Pings.PingsCostExactly` | src/relay/fs.rs:63-87 | When such a receiver has returned and all frames have tasks, there are as many tasks as chunks and the first p hold pings; all hold chunks if and only if p is zero or all files are empty. |
| `Chunks.BufferRoundTrip` | src/relay/fs.rs:39-40 | The offset and data of a chunk buffer are what the receiver reads from it. |
| `Transport.PathIsFifo` | src/proto/croc_raw.rs:43-110 | Over every interleaving of cloned senders, partial writes, relay copies and partial reads, what was sent equals what was received followed by what is under way, in channel order. |
| `Transport.WireHoldsWholeFrames` | src/proto/croc_raw.rs:67-81 | For some n the bytes that left the socket are the frames of the first n messages in channel order but for what is left to write of the n-th, which is the end of its frame, and the channel holds exactly the whole frames of the other messages. |
| `Transport.InternalKeeps` | src/relay/server.rs:202-209 | No copy, read or delivery step loses, repeats or reorders a message, and the reader never stops. |
| `Transport.DeliverStep` | src/proto/croc_raw.rs:83-109 | What the reader task delivers is the payload of the oldest frame under way, and it is then ready for the next. |
| `Transport.ReaderDelivers` | src/proto/croc_raw.rs:82-110 | Whatever bytes arrive and however they are cut, the reader delivers exactly the messages that parsing them gives, and stops exactly at four bytes that are not the magic. |
| `Transport.PathProgress` | src/proto/croc_raw.rs:63-115 | While bytes are under way and the session's queue has room, some step is enabled. |
| `Framing.RoundTrip` | src/proto/croc_raw.rs:133-140 | Parsing the frames of any messages shorter than 2^32 bytes gives back those messages. |
| `Framing.CutStream` | src/proto/croc_raw.rs:83-109 | A stream cut anywhere yields exactly the messages whose frames lie whole before the cut. |
| `Framing.ParsedIsFrame` | src/proto/croc_raw.rs:208-225 | Whatever parses as a message is that message's frame followed by the rest. |
| `Framing.FramingInjective` | src/proto/croc_raw.rs:227-238 | Different message sequences have different bytes. |
| `Framing.FrameBytes` | src/proto/croc_raw.rs:45-48 | Byte by byte, a frame is "croc", the length with its least significant byte first, and the message. |
| `Framing.MessageExactlyWhen` | src/proto/croc_raw.rs:207-226 | A stream yields a message and a rest exactly when it is that message's frame followed by that rest. |
| `Framing.NoMessageExactlyWhen` | src/proto/croc_raw.rs:207-226 | It is refused exactly when four bytes are there and are not "croc", and is too short exactly when it has fewer or ends inside some frame. |
| `Bytes.LERoundTrip` | src/proto/croc_raw.rs:47 | Little-endian encoding in a given width is undone by decoding for every number that fits. |
| `Bytes.LECanonical` | src/proto/croc_raw.rs:94-99 | Every byte string is the little-endian encoding of the number it decodes to. |
| `Bytes.LEDigits` | src/proto/croc_raw.rs:47 | Byte k of an encoding is the digit that counts the k-th power of 256. |
| `CrocRaw.Connection.ReadExact` | src/proto/croc_raw.rs:210-213 | However the bytes arrive, the buffer is filled with exactly the next n, or the stream ends before. |
| `CrocRaw.BuildFrame` | src/proto/croc_raw.rs:45-48 | The buffer built is the frame of the message, or an error for 2^32 bytes and more. |
| `CrocRaw.Write` | src/proto/croc_raw.rs:227-238 | One whole frame is appended to what was sent, or nothing when the message is too long. |
| `CrocRaw.Read` | src/proto/croc_raw.rs:207-226 | For every segmentation, one read returns what the parser says and leaves the stream behind that frame; the error cases consume what the code consumes. |
| `CrocRaw.ReaderTask` | src/proto/croc_raw.rs:82-110 | The endless reader loop delivers exactly the messages that parsing the stream gives. |
| `CrocRaw.WriterTask` | src/proto/croc_raw.rs:67-81 | The writer loop sends the queued frames in channel order, each in one piece. |
| `CrocRaw.CopyAll` | src/relay/server.rs:198-210 | Reads of at most 1024 bytes until end of file pass on all bytes in order. |
| `ClientSessions.ClientSession.Open` | src/proto/client_session.rs:127-142 | The receiver opens the key exchange, the sender waits; a secret too short for either, or not cuttable as text by the receiver, panics; nothing else of the session changes. |
| `ClientSessions.ClientSession.ProcessKeyExchange` | src/proto/client_session.rs:256-306 | All fields and messages after the call are those of the protocol function, including what is left behind and sent before each error, the cut of the secret and a key exchange that leaves no key. |
| `ClientSessions.ClientSession.ProcessIpExchange` | src/proto/client_session.rs:307-327 | The state check, the sender's answer and the recorded address are those of the protocol function. |
| `ClientSessions.ClientSession.ProcessFilesInfo` | src/proto/client_session.rs:328-367 | The sender panics, a wrong state fails, a refusal sends an error message, folders that cannot be made fail, no list finishes, a list starts the transfer. |
| `ClientSessions.ClientSession.SendFile` | src/proto/client_session.rs:368-410 | The ranges handed to the reader task all carry the requested index, cut that file exactly and are as many as the receiver counts; in every other case nothing is handed over. |
| `ClientSessions.ClientSession.EndRound` | src/proto/client_session.rs:176-184 | The two checks after each message announce the files or start the file loop, as the protocol function does. |
| `ClientSessions.ClientSession.ProcessMessage` | src/proto/client_session.rs:149-186 | A whole round of the message loop, for every message, leaves the session that the protocol function gives, sends what it sends, and hands to the reader task the chunks it starts to queue. |
| `ClientSessions.ClientSession.ReceiveFiles` | src/proto/client_session.rs:187-241 | The file loop creates and requests the files in order up to the first negative size, where it fails after creating that file; file i is given the next frames of the connection, as many as its size announces or as are left; without a negative size it ends with Finished. |
| `SessionTurns.OpenTurn` | src/proto/client_session.rs:127-142 | Opening a session object is a step of the joint machine between reachable states, and sends what the machine puts on its channel. |
| `SessionTurns.SenderTurn` | src/proto/client_session.rs:149-186 | So is the sender's handling of any message; the chunks it hands over are those the machine queues from there on. |
| `SessionTurns.QueuesInOrder` | src/proto/client_session.rs:388-406 | From the head of the chunk loop the machine queues exactly those chunks, in order, one a step. |
| `SessionTurns.ReceiverTurn` | src/proto/client_session.rs:149-186 | So is the receiver's handling of any message, up to the head of the file loop. |
| `SessionTurns.LoopTurn` | src/proto/client_session.rs:187-204 | So is a turn of the file loop: the next file is created, or Finished is sent. |
| `SessionTurns.RequestTurn` | src/proto/client_session.rs:206-214 | So is giving the file its length and asking for it, or failing at a negative size. |
| `OpenFiles.OpenFile.ReadExact` | src/relay/fs.rs:33 | Partial reads at the cursor fill the buffer with the bytes from the old cursor to the new, or fail at the end of the file. |
| `OpenFiles.OpenFile.WriteAll` | src/relay/fs.rs:81 | Partial writes at the cursor amount to one overwrite of all the data at the old cursor. |
| `OpenFiles.ReadChunk` | src/relay/fs.rs:26-40 | The buffer holds the offset and the file's bytes there, whatever the cursor was; it fails exactly when the range leaves the file. |
| `OpenFiles.WriteChunk` | src/relay/fs.rs:71-82 | The data lands at the offset in front of it, whatever the cursor was, and nothing else changes; a chunk too short to hold an offset panics before the file is touched. |
| `OpenFiles.RunTask` | src/relay/fs.rs:63-87 | A whole writer task, uninterrupted, panics, logs or writes in exactly the cases in which the machine's task does, and writes what that one writes. |
| `OpenFiles.CarryChunk` | src/relay/fs.rs:24-82 | After reading a range on one side and writing it on the other, that range of the destination is the source's and the rest is unchanged. |
| `RoomSteps.StepKeeps` | src/relay/server.rs:39-188 | Every step of every handler keeps the lock, map, room and handler invariants. |
| `RoomStreams.StreamsStepKeeps` | src/relay/server.rs:101-124 | Every step keeps the form of what each client has been sent, also while a ping is half written. |
| `RelayTheorems.UnwrapsAreSafe` | src/relay/server.rs:70-74 | In every reachable state a full room has both sessions, and no handler has panicked. |
| `RelayTheorems.BridgesArePairs` | src/relay/server.rs:127-130 | Whoever is bridged is bridged, mutually, with the client in the other seat of the same room. |
| `RelayTheorems.RelaysOwnRoom` | src/relay/server.rs:63-74 | A relaying handler relays the two clients that took the seats of the room it holds, and all three asked for the same name. |
| `RelayTheorems.SeatedAndBridgedOnce` | src/relay/server.rs:158-187 | No step changes a seat once taken or a bridge once made. |
| `RelayTheorems.RemovalIsExact` | src/relay/server.rs:77-78 | When a relaying handler removes its name, the map gives the very room it relayed. |
| `RelayTheorems.FreeRoomHasFirst` | src/relay/server.rs:159-184 | Every room in the map whose lock is free has its first session. |
| `RelayTheorems.OutputIsPingsThenPeer` | src/relay/server.rs:82-86 | What a client was sent after the answer to its room name is a number of whole pings followed by a prefix of what its peer sent; after a failed ping, pings cut in the last one. |
| `RelayTheorems.NoPingAfterBridge` | src/relay/server.rs:82-86 | A bridged client's output grows by nothing but the next bytes of its peer's input. |
| `RelayTheorems.BridgeConserves` | src/relay/server.rs:198-223 | What was written and what is in the copy buffer, at most 1024 bytes, is a prefix of the peer's input, and all of it when the direction ended at end of file. |
| `RelayTurns.RelaysEndExactly` | src/relay/server.rs:219-222 | In every reachable state a bridge that no handler relays has a direction that failed, or both at end of file. |
| `RelayTurns.WholeStreamsArrive` | src/relay/server.rs:74-77 | A handler that is done relaying and waits to remove the room has such a bridge, and if no direction failed each client was sent all that the other sent. |
| `RelayTurns.HandlersEndOnlyWhen` | src/relay/server.rs:55-124 | A handler ends only because its client did not get the answer, its room was full, its name stands for no room, its room has no first client, a ping failed, or it has removed its room. |
| `RelayTurns.TurnsLeadTo` | src/relay/server.rs:63-188 | The first to ask for a name takes the first seat of a new room, the next the second, others are refused; a seated handler relays a room it finds full and keeps any other alive; the first client of that is sent a whole ping, again and again. |
| `RelayTurns.HandlersGoOn` | src/relay/server.rs:39-124 | A handler that is not done and waits neither for a lock nor for its clients has an enabled step. |
| `RelayTheorems.CycleShape` | src/relay/server.rs:158-161 | Every cycle of waits consists of a negotiator that holds the map and waits for a room, and the handler that relayed that room and waits for the map. |
| `RelayTheorems.EmbraceNeedsThree` | src/relay/server.rs:158-171 | The waiting negotiator has no seat and asks for a room whose two seats two other clients have taken. |
| `RelayTheorems.WaitsAreShort` | src/relay/server.rs:65-104 | Short of that cycle, a chain of waits has at most three links. |
| `RelayTheorems.EmbraceIsForever` | src/relay/server.rs:70-77 | No step of any handler undoes the cycle. |
| `RelayTheorems.DeadlocksExactlyWhen` | src/relay/server.rs:65-161 | A cycle of waits is reachable if and only if three connections ask for one room name. |
| `Server.RoomServer.TakeMap` | src/relay/server.rs:158-160 | A handler that finds the map locked waits and changes nothing; otherwise it holds the map and has the room of that name, if there is one; the turn is a run of the room machine. |
| `Server.RoomServer.CreateRoom` | src/relay/server.rs:173-186 | The first to ask for a name gets a new room's first seat, under its own name, and the map gets that room and nothing else; when the answer is lost nothing changes; the map is given back; the turn is the machine's step of that kind. |
| `Server.RoomServer.JoinRoom` | src/relay/server.rs:160-172 | A locked room is waited for with the map held; the answer is "room full" exactly when both seats of an unlocked room are taken, and is lost exactly when they are not and it could not be sent; otherwise the handler takes the second seat under its own name; the map is given back; each is the machine's step of that kind. |
| `Server.RoomServer.LookUpOwn` | src/relay/server.rs:64-67 | The room looked up is the one the map gives at that time; a locked map is waited for; the turn is a run of the room machine. |
| `Server.RoomServer.TakeFrom` | src/relay/server.rs:70-81 | A locked room is waited for; both sessions are taken, second and first, exactly when the room is full, and its lock is kept; the turn is a run of the room machine. |
| `Server.RoomServer.EmptyRoom` | src/relay/server.rs:75-76 | After the relay the room has no sessions and its lock is still held; the turn is a run of the room machine. |
| `Server.RoomServer.RemoveRoom` | src/relay/server.rs:77-78 | A locked map is waited for with the room held; otherwise the room object removed from the map is the one that was relayed, and its lock is released; the turn is a run of the room machine. |
| `Keepalive.HandleKeepalive` | src/relay/client.rs:94-133 | The loop ends well exactly when the stream's wait ends with the handshake, leaves the stream right behind it, and has answered each address request once. |
| `Keepalive.WaitSkips` | src/relay/client.rs:102-129 | Pings and requests for addresses, in any number and order, are skipped, and each request is answered once. |
| `Keepalive.WaitEndsExactlyWhen` | src/relay/client.rs:99-132 | The wait ends well on exactly the streams that are `[1]` and "ips?" messages followed by "handshake", leaves what comes after, and counts the requests. |
| `Keepalive.WaitFailsExactlyWhen` | src/relay/client.rs:130 | It ends with an error at exactly the first message that is none of the three. |
| `Keepalive.WaitMeetsRelay` | src/relay/client.rs:69-93 | In every run of the relay, once the peer's handshake was passed on, the wait ends and what is read next is exactly what the peer sent next. |
| `Cryptography.CipherIsLawful` | src/crypto/aes.rs:89-147 | A message is sealed as twelve bytes of nonce and the ciphertext made with it, and opened by cutting there; so the laws of the AEAD give those the transfer relies on: opening undoes sealing, sealing adds 28 bytes, opening adds none. |

## Left out

- Cryptography is a parameter with laws: two ends with the same word agree on a key,
  AES-GCM decryption undoes encryption and adds a tag of 16 bytes. Nothing is said
  about secrecy.
- serde's JSON encoding: a control message is a value, and the control channel a
  FIFO of values. `Keepalive` and `CrocRaw` do work on bytes.
- I/O errors, disconnects and reads past the end of a source in the transfer
  machine, but for empty folders that cannot be made and a negative size. The relay
  machine does have failing pings, failing answers, failing copies and clients that
  close.
- Honest transfers announce each file with its length at the time it is sent; a
  file that changes in between is not modelled. Which file a path names does not
  change during a transfer.
- Pings reach the data connection only ahead of the chunks, in `Pings`; the theorems of
  `EndToEnd` are about data connections without pings.
- Both clients are given the same secret, and the control connection is already
  bridged when the transfer machine starts; that includes `connect`, which cuts the
  secret after three bytes for the room name.
- TCP streams hold any number of bytes; the bounded queues of the code are
  bounded, with one capacity for all of them, which may be any number from one up.
- Locks are granted to any waiter, in any order; the fairness of tokio's mutex is
  not needed and not modelled.
- Writer tasks still at work when the process exits are lost with it: delivery is
  claimed once all spawned tasks have finished, not when `process_client` returns.
- Password and banner: `negotiate_info` is modelled from the room name on, on both
  sides, and `negotiate_symmetric_key` not at all; they are straight-line message
  exchanges. The answer to the room name is an outcome, and its bytes are not part of
  a client's output.
- `ClientSessions.ClientSession.ReceiveFiles`: takes the frames that will arrive as
  one sequence; waiting for them, and for room in the writer task's queue, is
  the transfer machine's part.
- `SessionTurns.RequestTurn`: asks that a file was created, which the machine's loop turn
  before it did.
- `OpenFiles.WriteChunk`: one task with the lock held; interleaved tasks are the subject of
  `FileTasks`.
- `Room::stop`, `opened`, `disable_local`, chunk ranges for resuming, prompts, totals
  and the command line: no part of the protocol's behaviour, or only easy members.
