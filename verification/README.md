# Peer-to-peer file transfer: verified model

A Dafny model of the peer-to-peer library under `utilities/p2p` and of the two utilities it leans on: packages and
their wire format, the send queue with its wake-up flag, the two-channel file transfer between two peers, the life
cycle of a TLS connection, and the generator of unique file names.

`dafny verify dfyconfig.toml` checks everything.

## How it is built

- `Bytes`, `Packages` — words in host and network order; `Package` as a class over a mutable body with a cursor, its
  arguments lvalues in memory that `Create` swaps in place.
- `Framing` — the byte stream of header and body, and a class for the two reads of `CoReceiveMessage`.
- `Frames`, `Wire` — the protocol's frames, and how packages carry them: made, flagged, told apart, read back.
- `AwaitableFlags`, `Outbox` — the flag; the queue that is FIFO per producer and free in its choice between producers;
  the handshake between `Send` and `CoSendMessage`, where every access to shared memory is a step.
- `Transfer` — two connected peers as a transition system. A peer has one io thread, so a step of a worker is what its
  coroutine does between two suspensions; `RequestFile` and `Send` may run on any thread and take a step per shared
  access. Each direction has a message wire, which carries frames, and a raw file wire. `Envs` gives both peers their
  readable files and the room in their send buffers.
- `Flow`, `Pipes`, `Refinement` — in each direction the protocol refines an ideal pipe in which announced files follow
  as one byte stream.
- `Delivery`, `Ledger`, `History`, `Progress` — message order; conservation of requests; what a run has issued, read and
  drained; the measure every step of work lowers, and what a system that cannot work any more looks like.
- `Stalls`, `Disk` — exactly when the work stops short, with a run in which it does; what the download directory holds.
- `Results` — what a user of the transfer can rely on.
- `ConnectionData`, `Connection`, `Clients` — `TCPConnection` as a class with queues of packages, three flags, bytes on
  sockets and two buffers, and the client on top of it. `Models(n)` says that the object stands for protocol state `n`;
  each method leaves it standing for the state one protocol step later. History lives in `n` alone.
- `Sessions` — two connection objects and the network between them: whichever takes a step, together they go on standing
  for the two peers of a run.
- `ConnectionStates`, `TlsLifecycle` — `CoStart`, `CoSeek`, `CoDisconnect`, `CoCloseSocket` and the four worker loops as
  one state machine and as the class `TLSConnection`, whose methods are proved to take the machine's steps.
- `UniqueNames` — the counter file, the carry loop and both overloads of `GetUniqueName`.

Some statements describe what the code does rather than what one might wish. A wake-up of the sender can be lost
(`Outbox.WakeupCanBeLost`), exactly when a whole `Send` falls between a failed dequeue and the reset that follows it
(`Outbox.StrandedExactly`); two peers can then come to rest with a request unanswered (`Stalls.StallIsReachable`), and
they come to rest unfinished in no other way (`Stalls.DoneExactly`). A TLS connection is `CONNECTING` for good exactly
when an operation of its start has failed (`TlsLifecycle.StuckExactly`). A file of 4 GiB or more is cut to its size modulo 2^32
(`Results.WholeFileExactly`), and passing one lvalue twice to `Create` sends one copy byte-reversed
(`Packages.CreateFaithful`, `Packages.SameLvalueTwice`).

## Model

| member | source | states |
|---|---|---|
| Bytes.Wrap32IsMod | utilities/p2p/inc/Package.h:312-316 | the 32-bit wrap-around used for sizes and offsets is reduction modulo 2^32 |
| Bytes.NativeToBig | utilities/p2p/inc/Package.h:47-51 | swapping a little-endian word's memory gives its network-order bytes |
| Bytes.BigToNative | utilities/p2p/inc/Package.h:53-57 | swapping received bytes in place makes the host read the network-order value |
| Bytes.ReadBE | utilities/p2p/inc/Package.h:47-57 | a word written in network order is read back, if it fits its width |
| Bytes.HighBytesFirst | utilities/p2p/inc/Package.h:47-57 | of a word in network order the bytes that come first are the most significant ones, at any width |
| Bytes.WordOrder | utilities/p2p/inc/Package.h:47-57 | the value of two, four and eight bytes in network order, byte by byte |
| Packages.TwoPassesAgree | utilities/p2p/inc/Package.h:252-255 | the folded header size is the final offset, and every copy of the second fold is inside the body, exactly when the total is below 2^32 |
| Packages.LvaluesAfterCreate | utilities/p2p/inc/Package.h:289-303 | after Create an lvalue is as swapping leaves it iff it was named an odd number of times, and as it was otherwise |
| Packages.LvaluesByIndex | utilities/p2p/inc/Package.h:283-303 | after Create a string, and any lvalue named an even number of times, is as it was; of any other the word is reversed byte by byte, or each element of the vector |
| Packages.StringsStay | utilities/p2p/inc/Package.h:283-288 | strings may be named any number of times: memory is as it was, the body is their encoding, and a second Create writes the same body |
| Packages.CreateTwiceRestores | utilities/p2p/inc/Package.h:289-303 | a second Create over the same lvalues restores all memory |
| Packages.CreateFaithful | utilities/p2p/inc/Package.h:279-305 | the body holds the arguments' network encoding iff no argument names an lvalue that earlier ones left visibly reversed |
| Packages.DistinctLvaluesFaithful | utilities/p2p/inc/Package.h:244-258 | with distinct lvalues the body is the arguments' encoding |
| Packages.SameLvalueTwice | utilities/p2p/inc/Package.h:300-303 | the concrete case in which it is not: one 16-bit lvalue passed twice |
| Packages.RoundTrip | utilities/p2p/inc/Package.h:183-241 | reading the same types in the same order returns every scalar, vector and string and consumes exactly its bytes |
| Packages.EncodingLayout | utilities/p2p/inc/Package.h:283-305 | a word goes out most significant byte first; a string is a four-byte count, most significant byte first, and its bytes; so is the count of a vector |
| Packages.VectorLayout | utilities/p2p/inc/Package.h:293-299 | byte i of element k of a vector of w-byte words stands at 4 + k * w + i, most significant byte first |
| Packages.Memcpy | utilities/p2p/inc/Package.h:286-287 | copies the data and leaves every other byte of the body alone |
| Packages.SwapElements | utilities/p2p/inc/Package.h:293-295 | the loop over a vector's elements reverses the bytes of each |
| Packages.Package.constructor | utilities/p2p/inc/Package.h:103-105 | a package with a fresh body of header.size bytes and its cursor at 0 |
| Packages.Package.CalculateElementSize | utilities/p2p/inc/Package.h:308-318 | adds the element's encoded size to the header size, modulo 2^32 |
| Packages.Package.InsertElementToBody | utilities/p2p/inc/Package.h:279-305 | writes the element's encoding at the offset, changes no other byte and returns the next offset; leaves a string as it is, reverses a word's bytes, and those of each vector element |
| Packages.Package.CalculateSize | utilities/p2p/inc/Package.h:252-252 | the first fold over the arguments |
| Packages.Package.InsertElements | utilities/p2p/inc/Package.h:253-255 | the second fold: the body is the sequence of insertions, memory is what they leave, and strings are as they were |
| Packages.Package.Create | utilities/p2p/inc/Package.h:243-275 | both folds together, with no copy out of bounds; strings and lvalues named evenly often are as they were, any other has its words' bytes reversed |
| Packages.Package.GetValue | utilities/p2p/inc/Package.h:183-241 | returns the value the unread bytes begin with and moves the cursor past it |
| Packages.ReadAll | utilities/p2p/inc/Package.h:183-241 | successive GetValue calls decode the unread bytes type by type |
| Packages.CreateAndRead | utilities/p2p/inc/Package.h:183-275 | Create on distinct lvalues followed by GetValue returns the values they had, and the cursor ends at header.size |
| Framing.HeaderBack | utilities/p2p/inc/Package.h:42-58 | a header survives the wire whatever its padding bytes hold |
| Framing.HeaderLayout | utilities/p2p/inc/Package.h:42-51 | the twelve bytes of a header: type at 0 and 1, size at 4 to 7, both most significant byte first, flags at 8, padding elsewhere |
| Framing.PackageLayout | utilities/p2p/inc/TCPConnection.h:229-238 | when a package stands in whole at the front of the stream, and its type, flags, body and what follows it, byte by byte |
| Framing.ParseStream | utilities/p2p/inc/TCPConnection.h:229-238 | the stream of any packages, with arbitrary padding, is split into exactly those packages |
| Framing.ParseMore | utilities/p2p/inc/TCPConnection.h:229-238 | reading is incremental: bytes that complete no package wait for those that follow |
| Framing.SegmentationIrrelevant | utilities/p2p/inc/TCPConnection.h:229-238 | however the stream is segmented, the same packages and the same remainder result |
| Framing.PrefixDecodesPrefix | utilities/p2p/inc/TCPConnection.h:229-238 | from any prefix of the stream exactly the packages wholly contained in it are decoded |
| Framing.MessageReader.Take | utilities/p2p/inc/TCPConnection.h:230-238 | one read of a header or a body consumes what it needs and completes the first package exactly when its bytes are there |
| Framing.MessageReader.Receive | utilities/p2p/inc/TCPConnection.h:229-238 | over any chunk, the loop of reads returns the packages of pending bytes plus chunk and keeps the remainder pending |
| AwaitableFlags.AwaitableFlag.Reset | utilities/system/inc/AwaitableFlag.h:15-18 | clears the flag; it stays set iff a Signal came after the last Reset |
| AwaitableFlags.AwaitableFlag.Signal | utilities/system/inc/AwaitableFlag.h:20-24 | sets the flag, and it stays set until the next Reset |
| AwaitableFlags.AwaitableFlag.Wait | utilities/system/inc/AwaitableFlag.h:26-32 | returns at once on a set flag, otherwise at the first poll preceded by a Signal, and never without one |
| Frames.Overtake | utilities/p2p/inc/TCPConnection.h:337-337 | a dequeue that prefers one producer changes the order within no producer |
| Outbox.StepInv | utilities/p2p/inc/TCPConnection.h:336-350 | flag, consumer place and ticket times stay consistent under every interleaved access |
| Outbox.StepConserved | utilities/p2p/inc/TCPConnection.h:58-64 | no access drops, duplicates or reorders a package within its producer |
| Outbox.RunInv | utilities/p2p/inc/TCPConnection.h:336-350 | both hold after any run of any number of producers |
| Outbox.StrandedExactly | utilities/p2p/inc/TCPConnection.h:347-349 | a package whose Send has returned lies there with the sender waiting on a false flag iff the flag was reset last and its enqueue and Signal both fell between the failed dequeue and that Reset; with no Send under way, every package left is one of those |
| Outbox.WakeupCanBeLost | utilities/p2p/inc/TCPConnection.h:347-349 | a concrete run of two producers that strands a package |
| Outbox.SignalDrains | utilities/p2p/inc/TCPConnection.h:62-63 | from a set flag outside the window, everything queued is taken before the flag is cleared or a dequeue fails |
| Outbox.PromptNeverLoses | utilities/p2p/src/Client.cpp:11-11 | with all producers on the io thread, a waiting sender with a false flag has an empty queue |
| Outbox.WaitingMeansCaught | utilities/p2p/inc/TCPConnection.h:347-349 | with no Send under way, everything beside a sender waiting on a false flag was caught in the window |
| Results.ContentIsPrefix | utilities/p2p/inc/TCPConnection.h:395-410 | what is transferred of a file is its first bytes, as many as its size modulo 2^32 |
| Flow.OutboxRuns | utilities/p2p/inc/TCPConnection.h:336-350 | every step of a peer is a run of the queue-and-flag machine on its out-queue |
| Flow.StepFlow | utilities/p2p/inc/TCPConnection.h:336-346 | a step appends what it sends and otherwise changes the order of no class of outgoing frames |
| Pipes.AnnounceInv | utilities/p2p/inc/TCPConnection.h:395-400 | announcing a file before its first byte keeps announcements and bytes aligned |
| Pipes.PullInv | utilities/p2p/inc/TCPConnection.h:302-309 | reading a chunk takes exactly the next bytes owed to the file being received |
| Pipes.FinishInv | utilities/p2p/inc/TCPConnection.h:311-311 | a file closed with nothing owed holds its whole content |
| Pipes.EventInv | utilities/p2p/inc/TCPConnection.h:270-411 | every event of a direction keeps it aligned and everything delivered correct |
| Refinement.RequesterStep | utilities/p2p/inc/TCPConnection.h:277-315 | every step of the requesting peer is an event of the ideal pipe, or a stutter |
| Refinement.ServerStep | utilities/p2p/inc/TCPConnection.h:369-416 | every step of the serving peer is an event of the ideal pipe, or a stutter |
| Refinement.StillKnown | utilities/p2p/inc/TCPConnection.h:69-70 | a recorded name is never removed or replaced and an id never reassigned |
| Refinement.StepInv | utilities/p2p/inc/TCPConnection.h:224-426 | one step of either peer keeps the invariant of both directions |
| Refinement.RunInv | utilities/p2p/inc/TCPConnection.h:224-426 | the invariant holds after every run of at most 2^64 requests a peer |
| Refinement.Integrity | utilities/p2p/inc/TCPConnection.h:278-311 | in every reachable state every file either peer has closed bears the name registered for its id and the bytes of the path sent with that id |
| Results.WholeFileExactly | utilities/p2p/inc/TCPConnection.h:395-395 | the transferred bytes are the whole file iff it is shorter than 2^32 |
| Results.StreamsAligned | utilities/p2p/inc/TCPConnection.h:302-309 | in every reachable state, bytes owed by announcements equal bytes in flight then bytes still to write, in content and order |
| Results.NodeStores | utilities/p2p/inc/TCPConnection.h:293-311 | closing changes one file of the download directory, to the content requested under that id, and does so for the first time |
| Results.CloseStores | utilities/p2p/inc/TCPConnection.h:293-311 | the same for either peer after every run |
| History.IdsIssued | utilities/p2p/inc/TCPConnection.h:69-69 | in every run, of any length, the counter stands at the value fetch_add gives after that many requests, and the k-th call has got the k-th such value |
| History.IdAtIsMod | utilities/p2p/inc/TCPConnection.h:69-69 | the k-th value of the counter is k modulo 2^64 |
| Results.IdsDistinctExactly | utilities/p2p/inc/TCPConnection.h:69-69 | in every run the k-th id each peer's calls have got is k modulo 2^64, so they are pairwise distinct iff there are at most 2^64 of them |
| History.RunDrains | utilities/p2p/inc/TCPConnection.h:240-256 | what a queue has given up, then what it holds, is all that has arrived for it, in order |
| Results.QueuesDrainInOrder | utilities/p2p/inc/TCPConnection.h:277-315 | the same from the start of every run; a file queue is fully drained whenever its worker is parked with its flag false |
| Results.HandledIsPrefix | utilities/p2p/src/Client.cpp:171-181 | handler calls are a prefix of all the flag-free packages received, across all threads |
| Results.UnknownIdUnreachable | utilities/p2p/inc/TCPConnection.h:287-293 | every queued announcement has a registered name, so neither the unknown-id branch nor an empty Get is reached |
| Results.StaysConnected | utilities/p2p/inc/TCPConnection.h:382-393 | with servable requests and openable downloads no worker ever disconnects |
| Disk.StepHolds | utilities/p2p/inc/TCPConnection.h:293-311 | every step keeps in the directory the file closed last under each name, unless one is being received there |
| Disk.ClosedIsLast | utilities/p2p/inc/TCPConnection.h:69-70 | with distinct names no other file is ever stored or received in a closed file's place |
| Results.ClosedFilesOnDisk | utilities/p2p/inc/TCPConnection.h:293-311 | in every reachable state the directory holds the file closed last under each name, and with distinct names every closed request's content under that request's name |
| Results.EveryRunCompletes | utilities/p2p/inc/TCPConnection.h:224-426 | from any point of a run the protocol's own work is bounded, and where it stops every request has been answered once with its file, every message handled, and under distinct names the directory holds each requested content under its name |
| Delivery.SenderStep | utilities/p2p/inc/TCPConnection.h:337-346 | a step of the sending peer keeps each thread's messages in send order along the whole way |
| Delivery.ReceiverStep | utilities/p2p/inc/TCPConnection.h:240-256 | so does a step of the receiving peer; requests and announcements never reach handlers |
| Delivery.MessagesArriveInOrder | utilities/p2p/src/Client.cpp:165-185 | what handlers have seen of a thread, then what is still on its way, is what that thread sent |
| Ledger.AskingStep | utilities/p2p/inc/TCPConnection.h:66-75 | at the asking end only an allocation adds a request |
| Ledger.ServingStep | utilities/p2p/inc/TCPConnection.h:369-400 | at the serving end nothing adds or loses a request |
| Ledger.StepBalanced | utilities/p2p/inc/TCPConnection.h:66-75 | every step keeps each request in exactly one place |
| Ledger.RequestsConserved | utilities/p2p/inc/TCPConnection.h:66-75 | after every run each id is in one place only: a call, a request or announcement on its way, a file being received or given up, or a closed file |
| Progress.WorkLowers | utilities/p2p/inc/TCPConnection.h:224-426 | every step but a new request, a new message and a disconnect lowers the measure of frames and bytes |
| Progress.WorkIsBounded | utilities/p2p/inc/TCPConnection.h:224-426 | so from any state the work ends after at most that many steps |
| Progress.FileFlagsNeverLose | utilities/p2p/inc/TCPConnection.h:277-315 | in every reachable state a parked file worker with a false flag has an empty deque |
| Progress.QuietIsComplete | utilities/p2p/inc/TCPConnection.h:224-426 | two connected peers that can do nothing, with no wake-up lost, have nothing left to do |
| Progress.LostOnlyInWindow | utilities/p2p/inc/TCPConnection.h:347-349 | in every reachable state of two peers a lost wake-up means that every package left was enqueued and signalled between the failed dequeue and the reset |
| Progress.StuckOnlyWhenDone | utilities/p2p/inc/TCPConnection.h:224-426 | after every run, even with buffers of one frame and one byte, connected peers can work, or the sender of one lost its wake-up in that window, or all is done |
| Stalls.DoneExactly | utilities/p2p/inc/TCPConnection.h:336-350 | after every run that leaves two connected peers with nothing they can do, all requests are answered and all messages handled iff neither sender has lost its wake-up in the window |
| Stalls.StallIsReachable | utilities/p2p/inc/TCPConnection.h:347-349 | for every request and any socket room, a run of two peers that ends connected and idle with the request issued, its wake-up lost and no file received |
| Progress.IoSendsComplete | utilities/p2p/src/Client.cpp:11-11 | with all sends on the io thread, connected peers that can do nothing are done |
| Wire.MakePackage | utilities/p2p/inc/TCPConnection.h:397-398 | creating a package from two temporaries yields their encoding |
| Wire.PackRequest | utilities/p2p/inc/TCPConnection.h:72-73 | the package of a request carries it: type 0, bit 1 of the flags set and bit 2 clear, a body of eight bytes of id, four of length and the path |
| Wire.PackInfo | utilities/p2p/inc/TCPConnection.h:397-398 | the package of an announcement carries it: type 0, bit 2 of the flags set, a body of eight bytes of id and four of size |
| Wire.UnpackRequest | utilities/p2p/inc/TCPConnection.h:374-378 | CoSendFile reads from a request the id and path RequestFile packed |
| Wire.UnpackInfo | utilities/p2p/inc/TCPConnection.h:281-285 | CoReceiveFile reads from an announcement the id and size CoSendFile packed |
| Wire.DestinationOf | utilities/p2p/inc/TCPConnection.h:240-256 | bit 2 of the flags leads to the file receiver, else bit 1 to the file sender, else a package goes to the handlers, whatever the other bits are |
| Wire.FlagsTellFrames | utilities/p2p/inc/TCPConnection.h:240-250 | the two flag tests, in their order, lead a package to the worker its frame is meant for |
| Wire.UnpackBack | utilities/p2p/inc/TCPConnection.h:240-285 | a package that carries a frame is routed and unpacked to that frame |
| Wire.WireRoundTrip | utilities/p2p/inc/TCPConnection.h:229-256 | frames packed, written with arbitrary padding, cut into arbitrary segments, reassembled, routed and unpacked reach each worker exactly as sent to it, in order |
| ConnectionData.EnqueueAs | utilities/p2p/inc/TCPConnection.h:62-62 | enqueuing a package that carries a frame is the protocol's enqueue of that frame |
| ConnectionData.PopAs | utilities/p2p/inc/TCPConnection.h:337-337 | dequeuing a producer's first package is the protocol's dequeue of its frame |
| ConnectionData.WriteAs | utilities/p2p/inc/TCPConnection.h:338-346 | header and body appended to the wire's bytes are one more frame on the wire |
| ConnectionData.ReadAs | utilities/p2p/inc/TCPConnection.h:229-238 | the first complete package on the wire carries its first frame, and the bytes behind it the rest |
| ConnectionData.FillAs | utilities/p2p/inc/TCPConnection.h:402-406 | reading a chunk into the reused buffer changes nothing in what is still to be sent |
| ConnectionData.SendAs | utilities/p2p/inc/TCPConnection.h:408-409 | a part of the buffer given to the socket is the next part of what is to be sent |
| ConnectionData.ArriveAs | utilities/p2p/inc/TCPConnection.h:306-308 | bytes that arrive behind those in the buffer, flushed when the chunk is full, extend what the file has got by themselves |
| ConnectionData.ClosedAs | utilities/p2p/inc/TCPConnection.h:302-311 | when the loop is over the stream has got exactly the bytes the protocol has received |
| Connection.TCPConnection.constructor | utilities/p2p/inc/TCPConnection.h:16-19 | a new connection is DISCONNECTED and unused |
| Connection.TCPConnection.Established | utilities/p2p/inc/TCPConnection.h:155-160 | once both sockets are up, an unused connection stands for the protocol's first state |
| Connection.TCPConnection.Disconnect | utilities/p2p/inc/TCPConnection.h:77-93 | the object is DISCONNECTED, its flags are set and its workers take no further step |
| Connection.TCPConnection.FetchAddId | utilities/p2p/inc/TCPConnection.h:69-69 | returns the counter, which is the id of the new call, and adds one, with wrap-around at 2^64 |
| Connection.TCPConnection.Send | utilities/p2p/inc/TCPConnection.h:58-64 | a package that carries a frame stands last in the out-queue before the sender is signalled, and the flag is set |
| Connection.TCPConnection.SendMessage | utilities/p2p/inc/TCPConnection.h:58-64 | a user's flag-free package becomes the protocol's message, in two steps |
| Connection.TCPConnection.RequestFile | utilities/p2p/inc/TCPConnection.h:66-75 | id, name, flagged package, enqueue and Signal are the four steps of the protocol, in that order: the counter moves on, the name stands under the id, and the package that asks for the path, bytes and flags included, stands last in the out-queue |
| Connection.TCPConnection.PollSender | utilities/p2p/inc/TCPConnection.h:334-349 | Wait returns iff the flag is set, and a poll that finds it false is no step |
| Connection.TCPConnection.TryDequeue | utilities/p2p/inc/TCPConnection.h:337-337 | takes some producer's first package out of the queue iff there is one |
| Connection.TCPConnection.WritePackage | utilities/p2p/inc/TCPConnection.h:338-346 | the socket gets the package's type, size and flags in network order, padding, and the body, which is one more frame on the wire |
| Connection.TCPConnection.ReceiveBytes | utilities/p2p/inc/TCPConnection.h:229-257 | however few bytes arrive at a time, a completed package reaches the queue that bits 2 and 1 of its flags name and its worker is signalled; nothing else is a step |
| Connection.TCPConnection.Dispatch | utilities/p2p/inc/TCPConnection.h:240-256 | a package with bit 2 goes to the info queue and sets the receive flag, else one with bit 1 to the request queue and sets the send flag, else to the incoming queue; nothing else changes |
| Connection.TCPConnection.ServeRequest | utilities/p2p/inc/TCPConnection.h:369-400 | takes the first request and, if its file cannot be read, disconnects and sets all flags, else enqueues the packed announcement of its size modulo 2^32 and enters the loop with that size; on an empty queue it resets the flag and waits |
| Connection.TCPConnection.Announce | utilities/p2p/inc/TCPConnection.h:395-402 | the announcement leaves `size` as it is: the loop that follows sends exactly that many bytes |
| Connection.TCPConnection.FillBuffer | utilities/p2p/inc/TCPConnection.h:402-406 | fills the buffer with min(size, 131072) bytes of the file, which is no step |
| Connection.TCPConnection.WriteSome | utilities/p2p/inc/TCPConnection.h:408-409 | async_write gives the socket the next bytes of the buffer, in parts of any size |
| Connection.TCPConnection.TakeAnnouncement | utilities/p2p/inc/TCPConnection.h:277-300 | takes the first announcement and, if its id is unknown or the file cannot be opened, disconnects and sets all flags, else truncates the file of its registered name; on an empty queue it resets the flag and waits |
| Connection.TCPConnection.BeginRead | utilities/p2p/inc/TCPConnection.h:302-304 | asks for min(size, 131072) bytes, which is no step |
| Connection.TCPConnection.ReadSome | utilities/p2p/inc/TCPConnection.h:306-308 | async_read takes the next bytes of the file wire into the buffer, in parts of any size, and a full chunk goes to the file |
| Connection.TCPConnection.ReceiveFile | utilities/p2p/inc/TCPConnection.h:302-311 | the whole loop, from any point of a chunk, stores exactly the announced bytes and leaves those of the next file on the wire |
| Connection.TCPConnection.NextPackage | utilities/p2p/src/Client.cpp:172-172 | the oldest package that has arrived carries the protocol's oldest message |
| Connection.TCPConnection.Arrive | utilities/p2p/inc/TCPConnection.h:229-238 | a package of the peer's that comes in as bytes is one more frame on the incoming wire |
| Connection.TCPConnection.Depart | utilities/p2p/inc/TCPConnection.h:346-346 | when the peer has read a package, its bytes and its frame are off the outgoing wire |
| Connection.TCPConnection.ArriveFile | utilities/p2p/inc/TCPConnection.h:306-307 | likewise for file bytes that come in |
| Connection.TCPConnection.DepartFile | utilities/p2p/inc/TCPConnection.h:408-409 | likewise for file bytes the peer has read |
| Sessions.MoveFaces | utilities/p2p/inc/TCPConnection.h:434-435 | what a move does to the peer that faces the one that moves: its links are the mover's, crossed |
| Sessions.LinksAfter | utilities/p2p/inc/TCPConnection.h:224-426 | the four steps that touch a wire, and what each puts on it or takes off it |
| Sessions.StandAtStart | utilities/p2p/inc/TCPConnection.h:155-160 | two connections that have come up stand for the two peers at the start of a run |
| Sessions.LocalStep | utilities/p2p/inc/TCPConnection.h:224-426 | after a step that touches no wire, the object that took it and the one that faces it stand for the two peers |
| Sessions.WriteAcross | utilities/p2p/inc/TCPConnection.h:338-346 | so they do after one writes a package and the network brings its bytes to the other |
| Sessions.ReadAcross | utilities/p2p/inc/TCPConnection.h:229-257 | and after one reads any part of the bytes that have come in |
| Sessions.WriteFileAcross | utilities/p2p/inc/TCPConnection.h:402-410 | and after one writes a part of a chunk |
| Sessions.ReadFileAcross | utilities/p2p/inc/TCPConnection.h:302-309 | and after one reads a part of a chunk |
| Sessions.StandNext | utilities/p2p/inc/TCPConnection.h:224-426 | hence after every move of a run the two objects stand for the two peers of the next state |
| Sessions.DownloadsHoldRequests | utilities/p2p/inc/TCPConnection.h:293-311 | what is requested through one object, served by the other and closed is what the first one's directory holds under the request's name |
| Clients.Client.Connect | utilities/p2p/src/Client.cpp:72-81 | each connect makes a connection object of its own, which is not connected until it is up |
| Clients.Client.Send | utilities/p2p/src/Client.cpp:92-99 | a package is dropped without a trace unless the connection is CONNECTED; then it is that connection's Send |
| Clients.Client.RequestFile | utilities/p2p/src/Client.cpp:101-108 | likewise for a request, whose id, name and package are that connection's |
| Clients.Client.HandleIncomingPackages | utilities/p2p/src/Client.cpp:170-182 | a connected client calls one handler a package: the i-th call is of the handler registered for the type of the i-th package that has arrived, with that package |
| TlsLifecycle.EstablishInv | utilities/p2p/inc/TLSConnection.h:119-150 | connecting and its failures keep the life-cycle invariant and move one state at most |
| TlsLifecycle.CloseInv | utilities/p2p/inc/TLSConnection.h:250-269 | so does every segment of every CoDisconnect |
| TlsLifecycle.RunInv | utilities/p2p/inc/TLSConnection.h:276-474 | a worker's segment keeps the invariant and never changes the connection's state |
| TlsLifecycle.FlagsAfter | utilities/p2p/inc/TLSConnection.h:287-296 | which flags are set after a segment: an announcement that arrives sets that of the file receiver, a request that of the file sender, announcing that of the message sender, and only a worker that finds its queue empty clears its own |
| TlsLifecycle.WakesItsWorker | utilities/p2p/inc/TLSConnection.h:287-296 | a worker in Wait can run once the package, request or announcement meant for it has come, and with a false flag it cannot |
| TlsLifecycle.LeavesExactly | utilities/p2p/inc/TLSConnection.h:334-345 | while connected a worker leaves exactly on a failed operation or a missing file, and exactly the senders' failures and a missing file call CoDisconnect |
| TlsLifecycle.LifeCycle | utilities/p2p/inc/TLSConnection.h:119-269 | in every run the states are a prefix of DISCONNECTED, CONNECTING, CONNECTED, DISCONNECTING, DISCONNECTED, and all five iff a closing run has ended |
| TlsLifecycle.SingleShutdown | utilities/p2p/inc/TLSConnection.h:250-260 | of any number of CoDisconnects at most one passes the CONNECTED check, and exactly one once closing has begun |
| TlsLifecycle.EarlyExitUnreachable | utilities/p2p/inc/TLSConnection.h:255-258 | CONNECTED means both sockets open, so the exit that signals nobody is never taken |
| TlsLifecycle.ClosingRunEnds | utilities/p2p/inc/TLSConnection.h:193-223 | while DISCONNECTING one closing run exists and at most two more of its segments end it |
| TlsLifecycle.FailedStartStays | utilities/p2p/inc/TLSConnection.h:146-149 | after a failed start the state is CONNECTING in every later state and no Disconnect passes |
| TlsLifecycle.StartCanFail | utilities/p2p/inc/TLSConnection.h:146-149 | a run that reaches such a state: the first connect fails |
| TlsLifecycle.CanConnect | utilities/p2p/inc/TLSConnection.h:126-137 | a start that has not failed can still reach CONNECTED |
| TlsLifecycle.StuckExactly | utilities/p2p/inc/TLSConnection.h:146-149 | a reachable CONNECTING state stays so in every continuation iff its start has failed, which is iff one of its operations has |
| TlsLifecycle.WorkerStepLowers | utilities/p2p/inc/TLSConnection.h:271-474 | on a closed connection every segment of a worker brings it nearer its exit |
| TlsLifecycle.Quiescence | utilities/p2p/inc/TLSConnection.h:265-268 | once a closing run has ended, the flags stay set and the sockets closed in every later state, the workers take at most eight segments, and a worker that has not left can take one |
| TlsLifecycle.AllLeave | utilities/p2p/inc/TLSConnection.h:271-474 | a run that goes on until no worker can move has all four gone |
| TlsLifecycle.TLSConnection.CoStart | utilities/p2p/inc/TLSConnection.h:119-191 | the four awaited operations of CoStart and CoSeek as steps of the machine: the first opens the message socket, the third the file socket, the last makes the connection CONNECTED and starts the workers; a failure calls CoDisconnect |
| TlsLifecycle.TLSConnection.CoDisconnect | utilities/p2p/inc/TLSConnection.h:193-269 | CoDisconnect through both CoCloseSocket calls, segment by segment: who passes the check, which socket is closed next, and the state and flags at the end |
| TlsLifecycle.TLSConnection.CoSendMessage | utilities/p2p/inc/TLSConnection.h:377-408 | its loop, segment by segment: a failed write calls Disconnect and ends it, an empty queue clears its own flag, nothing else changes a flag |
| TlsLifecycle.TLSConnection.CoSendFile | utilities/p2p/inc/TLSConnection.h:410-474 | its loops, segment by segment: a missing file or a failed write calls Disconnect and ends it, announcing sets the message sender's flag, an empty queue clears its own |
| TlsLifecycle.TLSConnection.CoReceiveFile | utilities/p2p/inc/TLSConnection.h:317-375 | its loops, segment by segment: a missing name or file calls Disconnect, a failed read just ends it, an empty queue clears its own flag |
| TlsLifecycle.TLSConnection.CoReceiveMessage | utilities/p2p/inc/TLSConnection.h:271-315 | its loop, segment by segment: an announcement sets the file receiver's flag, a request the file sender's, a message none |
| UniqueNames.AddsOne | utilities/system/src/UniqueFileNamesGenerator.cpp:73-85 | a call adds exactly one to the text's decimal value |
| UniqueNames.DigitsAfter | utilities/system/src/UniqueFileNamesGenerator.cpp:73-85 | digit by digit: the last digit that is not a nine goes up by one and the nines behind it become zeros; nines alone become a one and as many zeros |
| UniqueNames.GrowsAtNines | utilities/system/src/UniqueFileNamesGenerator.cpp:83-85 | the text grows by one digit iff it is all nines, and never shrinks |
| UniqueNames.CallCost | utilities/system/src/UniqueFileNamesGenerator.cpp:73-85 | nine times a call's iterations is ten, less the rise of the digit sum, less nine for a new digit |
| UniqueNames.CostIdentity | utilities/system/src/UniqueFileNamesGenerator.cpp:73-85 | nine times the iterations of n calls is ten times n, less the rise of the digit sum, less nine for each new digit |
| UniqueNames.LinearWork | utilities/system/src/UniqueFileNamesGenerator.cpp:73-85 | ten ninths of an iteration a call and one per digit of the first text, at most |
| UniqueNames.NamesDistinct | utilities/system/src/UniqueFileNamesGenerator.cpp:71-71 | any two calls of a run return different names |
| UniqueNames.NoStaleTail | utilities/system/src/UniqueFileNamesGenerator.cpp:87-89 | rewriting from position 0 without truncation leaves the file equal to the new text |
| UniqueNames.Increment | utilities/system/src/UniqueFileNamesGenerator.cpp:73-85 | the carry loop computes the successor, in as many iterations as stated |
| UniqueNames.UniqueFileNamesGenerator.Unique | utilities/system/src/UniqueFileNamesGenerator.cpp:56-128 | whichever overloads were called, all names handed out are distinct and the total work is linear |
| UniqueNames.UniqueFileNamesGenerator.GetUniqueName | utilities/system/src/UniqueFileNamesGenerator.cpp:56-92 | returns path, one separator, prefix, stored text and suffix, where a path that is empty or ends in a separator gets no other and an absolute prefix replaces it; leaves the successor in the file |
| UniqueNames.UniqueFileNamesGenerator.AssignUniqueName | utilities/system/src/UniqueFileNamesGenerator.cpp:94-128 | the overload that assigns its argument does the same, separator included |
| UniqueNames.UniqueFileNamesGenerator.Read | utilities/system/src/UniqueFileNamesGenerator.cpp:59-69 | the whole file, or a zero when it is empty |
| UniqueNames.UniqueFileNamesGenerator.Write | utilities/system/src/UniqueFileNamesGenerator.cpp:87-89 | the file holds exactly the new text |

## Left out

- asio sockets: in `Transfer` a direction's two wires are reliable FIFO channels, frames on the message wire and bytes on
  the file wire; `Connection` puts the frames on the wire as bytes, a package at a time, and reads them in any parts.
- asio timers: `Wait` is assumed to poll again after every poll that finds the flag false, because the timer's expiry is
  never set and an async_wait on it is over at once; so a cancel that falls between the load and the async_wait is not
  missed. A poll that finds the flag false is no step.
- moodycamel queues: taken as FIFO per producer with free choice between producers; one connection per sending thread,
  since its producer token is `static thread_local`.
- Failed reads of the TCP receive workers: they only end the worker, because the handlers catch a type asio does not
  throw; in `Transfer` wires do not fail while the peers are connected. `TlsLifecycle` models the failures.
- TCP start and shutdown: `Transfer` begins when both peers are connected, and `Disconnect` ends the connection at once;
  CoStart's retry loop, a second Disconnect that stops the context, and DestroyContext are not modelled.
- File system: what a peer serves is fixed during a run and read in full, and downloads go to a directory of their own,
  where a file's content shows when it is closed; whether a download can be opened is a parameter of the step.
- User packages are assumed to carry neither file flag, as a package that does would be taken for the protocol's own.
- Connection.TCPConnection.Disconnect: the branch for two sockets that are closed already, which stops the io_context, is
  not modelled.
- Connection.TCPConnection.ReceiveFile: states the loop when all its bytes have arrived; until then the loop is
  `Connection.TCPConnection.BeginRead` and `Connection.TCPConnection.ReadSome`, one part of a chunk at a time.
- Clients.Client.RequestFile: the same bound on paths as the next line.
- Connection.TCPConnection.RequestFile: paths whose request would not fit a 32-bit package size are excluded, where the
  code's size field would wrap; `Transfer` itself puts no bound on paths.
- Clients.Client.Connect: how the connection comes up is `TlsLifecycle`'s subject; client modes, addresses and
  certificates are not modelled.
- Clients.Client.HandleIncomingPackages: the incoming queue belongs to one connection, so packages an earlier connection
  left in the client's shared queue are not modelled; every type that arrives is assumed to have a handler.
- Packages.ReadAll: well-formed bodies only, as the next line says.
- Packages.Package.GetValue: the reference form on well-formed bodies only; the by-value form, which leaves values in
  network order, and the behaviour on malformed bodies are not modelled.
- TlsLifecycle.ClosingRunEnds: that the TLS shutdown of a socket completes is the peer's doing and an assumption.
- TlsLifecycle.Quiescence: assumes one Start or Seek per object and that operations begun on closed sockets fail.
- UniqueNames.UniqueFileNamesGenerator.GetUniqueName: the counter text is assumed shorter than 2^31 digits, the file
  open and holding only digits, and path, prefix and suffix fixed; SetFilePath, which overwrites the first digit, is
  not modelled.
- ConcurrentUnorderedMap: a map with atomic operations.
- AddressResolver, CertificateManager, Settings, logging and profiling: plumbing around the modelled code.
