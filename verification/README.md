# Verification of the TRTC-ASR C++ SDK core

A Dafny model of the parts of the SDK whose correctness is hardest to see by
reading one function, with proofs of what the headers and the standards promise
of them. `dafny verify dfyconfig.toml` checks everything.

**Realtime session** (`Session*.dfy`). One `SpeechRecognizer` object of either
protocol generation (v2 and v3), its shared state, and every thread that can
touch it: any number of application threads in `Start`, `Write` and `Stop`, the
reader thread with a listener that returns, throws or calls back into the
object, and the detached watchdog. `Session.dfy` is a transition system: a
thread is a program counter, one step is one atomic action of the code
(compare-and-swap, store, load, lock, send, wait, wake, notify), and the peer,
the listener, the clock and the scheduler choose freely. The program counters
and their sources are

| procedure | transition function | source |
|---|---|---|
| `Start`, `Connect` | `Session.StartStep` | src/speech_recognizer.cc:149-237, src/v3.cc:784-889 |
| `Write` | `Session.WriteStep` | src/speech_recognizer.cc:239-268, src/v3.cc:891-921 |
| `Stop` | `Session.StopStep` | src/speech_recognizer.cc:270-332, src/v3.cc:923-976 |
| `WaitForReadLoopOrClose` | `Session.WaitStep` | src/speech_recognizer.cc:39-71 |
| `ReadLoop`, `ReadLoopInner`, `DispatchEvent`, `Finish`, `MarkTerminalReceived`, `SignalDone` | `Session.ReaderStep` | src/speech_recognizer.cc:24-37, 334-501 and include/trtc_asr/speech_recognizer.h:53-73 |

The proof is by rely and guarantee (`SessionInvariant`, `SessionSteps`,
`SessionReader`, `SessionReach`): one inductive invariant, kept by every step of
every thread. The theorems about whole runs are in `SessionTheorems`,
`SessionStart`, `SessionCallbacks`, `SessionWait` and `SessionProgress`. What each
call of `Start`, `Write` and `Stop` does from its first step to its return, and what
each frame makes the reader do, is in `SessionRuns`, `SessionCalls`,
`SessionWriteCall`, `SessionStopCall`, `SessionStartCall` and `SessionDispatch`; these
state outcomes as literal events and callbacks, apart from the transition functions.

**WebSocket byte layer** (`WsCodec`, `WsClient`, `WsStream`, `WsWriters`,
`Sigpipe`). The frame codec, the client's methods over a socket that delivers and
accepts bytes in arbitrary portions, stalls or fails, runs of successive reads,
and any number of threads writing on one connection.

**Signature arithmetic** (`Fips180`, `Fips180Constants`, `Fips180Example`, `Sha256`,
`Hmac`, `Base64`, `UserSig`, `UserSigDocument`) and
**companions** (`Query`, `SignatureParams`, `Polling`). Imperative code proved
against the definitions of FIPS 180-4, RFC 2104, RFC 4648 and RFC 8259, the query
string against the reading of it, and the polling loop's bound. The definitions of
FIPS 180-4 are themselves tied down by the origin of the constants and by the digest
of "abc", worked out round by round.

Results where the code does less than a reader may expect:

- A `Read` whose deadline passes between the two header bytes returns "timeout"
  and drops the first byte (src/ws_client.cc:544-551). `WsStream.TimeoutBoundary`
  states that the next read is aligned if and only if no byte of that header
  arrived, and `WsStream.LostByteForges` gives bytes for which the next read then
  returns a message nobody sent.
- A failed `Write` does not stop the session (src/speech_recognizer.cc:264-267).
  `WsWriters.NeverInterleaved` states that the wire is the frames of the successful
  sends if and only if every other send failed before its first byte, as a pong with
  no time left does (`WsWriters.LatePong`); `WsWriters.TornFrame` gives a run in which
  the next frame's header is read as payload of a torn one.
- A failed v3 `Start` normally closes its connection, but not when reading the
  ack itself throws (src/v3.cc:834, 841-846). `SessionStart.FailedStartLeavesOpen`
  gives the exact condition on the ack, and `SessionStart.FailedStartOpen` a run.
- The ack deadline of a v3 `Start` is looked at only when a read times out
  (src/v3.cc:809-815): `SessionStart.AckDeadline` says when the wait ends, and
  `SessionStart.AckWaitUnbounded` that other frames can put that off for ever.

## Model

| member | source | states |
|---|---|---|
| SessionReach.InvNext | src/speech_recognizer.cc:24-465 | every atomic step of every thread, every clock tick and every new thread keeps the session invariant |
| SessionReach.Reachable | src/speech_recognizer.cc:24-465 | the invariant holds in every state of every run, for any number of threads and any interleaving |
| SessionSteps.OpStepOk | src/speech_recognizer.cc:149-332 | each step inside Start, Write, Stop or the wait re-establishes its own thread's invariant, holds exactly the mutexes its position says, and does to the shared state only what other threads may rely on |
| SessionReader.ReaderStepOk | src/speech_recognizer.cc:334-465 | the same for each step of the reader thread |
| SessionTheorems.LinkShape | src/v3.cc:784-852 | a connection log accepted by the protocol automaton reads: v2 audio frames and then at most one end frame; v3 the whole start frame, an ack whose code converts to 0, then the same |
| SessionTheorems.UplinkShape | src/speech_recognizer.cc:239-307 | in every run, with any number of concurrent writers and stoppers, every connection's log has that shape: no audio after end, at most one end, and in v3 no audio before a good ack |
| SessionRuns.BehaviourRuns | src/speech_recognizer.cc:149-465 | every behaviour is a run with named actions, so what is stated of the latter holds of all |
| SessionRuns.UplinkExact | src/speech_recognizer.cc:239-307 | in every run every log is exactly the sequence of what the actions put on that connection: an audio frame for each Write whose send put out a byte, the end frame of such a Stop, start frames, pongs and acks with code 0, in the order of the run |
| SessionWriteCall.WriteCall | src/speech_recognizer.cc:239-268 | in every run, whatever other threads do, a call of Write either found an argument invalid, or not Running at one of its two checks, or no connection, and has put nothing on any connection; or it found Running twice and has put on the connection it found one audio frame, whole if the send succeeded, in part if it broke off, nothing if no byte went out, and nothing on any other |
| SessionStopCall.StopCall | src/speech_recognizer.cc:270-332 | in every run a call of Stop ends in one of four ways: not Running, nothing sent; or it took Running to Stopping and stored Stopped, having found no connection, or sent the end frame whole and waited for done or given up, or failed to send and closed the connection; or, on the reader thread, it sent the end frame whole and left a watchdog; or it saw the session ended by itself and waited. Wherever it tried to send, its connection got one end frame, as far as that went, and no other connection anything |
| SessionStartCall.StartCall | src/v3.cc:784-889 | in every run a call of Start ends in one of three ways: not Idle, nothing sent; or Idle again, because the dial failed, the start frame was not sent whole, the read failed or timed out past the deadline, or the ack was a refusal; or Running was stored on a newly dialled and published connection that got, pongs aside, the whole start frame and then an acceptable ack (v3) or nothing (v2), and the reader thread exists |
| SessionTheorems.NothingButStart | src/v3.cc:791-795 | a connection log on which nothing but the start frame went out whole contains no other frame than pongs, whether or not an ack was read |
| SessionTheorems.FailedStartSentOnlyStart | src/v3.cc:784-889 | in every run, as long as the object is at Idle or Starting, whatever acks it was sent and however often Start was tried, no connection has carried any frame but a start frame and pongs |
| SessionStart.FailedStartLeavesOpen | src/v3.cc:802-852 | in every run, a Start that fails returns to Idle and leaves the connection it dialled open if and only if the last ack it read is not an object, or has a code that is neither number nor boolean, or has a code that converts to 0 and a speaker context with a field that is not a string; the open connection stays published |
| SessionStart.FailedStartOpen | src/v3.cc:839-847 | a concrete run of one Start whose ack has code 0 and a numeric continue_status: it ends at Idle with the ack read and the connection open and published |
| SessionStart.AckDeadline | src/v3.cc:804-815 | in every run, while a Start waits for its ack its deadline stands still, and a read that times out ends the wait exactly if the deadline has passed |
| SessionStart.AckDue | src/v3.cc:804-808 | in every run the deadline is set once, 5000 ms ahead or, with a speaker context, 15000 ms |
| SessionStart.AckWaitUnbounded | src/v3.cc:805-825 | for any length of time, a run in which the Start is still waiting then: the peer sends a frame that is no text in every millisecond, and no read times out |
| SessionTheorems.NeverBack | src/speech_recognizer.cc:24-29 | from Running on the lifecycle never moves backwards, in spite of the unsynchronised stores of Finish and Stop |
| SessionTheorems.RunningOnce | src/speech_recognizer.cc:149-332 | over a whole run: Running is entered at most once, at most one Stop wins the compare-and-swap, the only backward move is Starting to Idle, Stopped is never left |
| SessionTheorems.OneReader | src/speech_recognizer.cc:165-167 | at most one reader thread and one watchdog exist per object |
| SessionCallbacks.TraceShape | src/speech_recognizer.cc:334-501 | a callback trace accepted by the automaton is Start, ordinary callbacks, then one terminal tail |
| SessionCallbacks.CallbackOrder | src/speech_recognizer.cc:367-465 | in every run, whatever the listener throws or calls, the callbacks so far have that shape; completion comes at most once and last |
| SessionDispatch.Begins | src/speech_recognizer.cc:334-384 | in every run, from its creation to its first read the reader makes the one callback OnRecognitionStart, and the terminal failure if that throws; it comes to a read only if it did not throw and there was a connection, and to its end only if it did or there was none |
| SessionDispatch.Dispatch | src/speech_recognizer.cc:402-482 | in every run, from the read of a frame to the next read or the end the listener gets exactly this: slice 0, 1, 2 give OnSentenceBegin, OnRecognitionResultChange, OnSentenceEnd; no result or another slice nothing; binary and malformed frames a failure; a code other than 0 the terminal failure; final=1 completion, after OnSentenceEnd for slice 2; a callback that throws unshielded is followed by the terminal failure in place of the rest. The reader reads on exactly if the frame was not a last one and nothing threw, and the terminal flag is set exactly for a last one |
| SessionDispatch.FlagBeforeCallback | src/speech_recognizer.cc:433-454 | every callback of a last frame finds the terminal flag set, and no callback of another frame does |
| SessionDispatch.ReadEnds | src/speech_recognizer.cc:389-415 | in every run, after a failed read or a close frame the reader ends without a callback if it then finds the session being stopped, and otherwise with the terminal failure; after a poll that timed out it ends if it finds Stopped, without a callback, and reads on otherwise |
| SessionDispatch.ReadsPublished | src/speech_recognizer.cc:369-384 | in every run what the reader reads is the connection it found published when it began |
| SessionDispatch.PingAnswered | src/ws_client.cc:605-613 | in every run, before the read after a ping the reader puts a pong on the connection it reads, as far as the send goes |
| SessionCallbacks.TerminalSeesStopped | src/speech_recognizer.cc:393-454 | while a terminal callback runs the state is Stopped, and a Stop or Write begun then returns at once with not-running |
| SessionCallbacks.StopInCallback | src/speech_recognizer.cc:270-332 | a Stop made from a callback never enters the wait: it finds the connection, is never overtaken by the end of the session, and recognises the reader thread |
| SessionCallbacks.DoneIsFinal | include/trtc_asr/speech_recognizer.h:61-67 | after SignalDone no callback ever follows |
| SessionCallbacks.DoneReaderLeft | src/speech_recognizer.cc:361-365 | once done is set, the reader thread is past its loop and inside no callback |
| SessionWait.NoLostWakeup | include/trtc_asr/speech_recognizer.h:48-67 | a thread asleep in either wait finds its wake condition false, or the reader still owes the notification |
| SessionWait.NotifyWakesAll | include/trtc_asr/speech_recognizer.h:53-67 | in every run, a thread asleep when the reader notifies is out of the wait set afterwards, and no step of another thread puts it back before it has run |
| SessionWait.GivesUpOnlyLate | src/speech_recognizer.cc:59-69 | a waiter starts to give up only past its deadline with neither flag set, and otherwise returns only after done |
| SessionWait.StaysUndecided | src/speech_recognizer.cc:47-62 | once the terminal flag is up while a waiter is undecided, it never decides to give up |
| SessionWait.TerminalWaitsForDone | src/speech_recognizer.cc:47-55 | so it returns only after done, that is after every callback has finished |
| SessionWait.DeadlineFixed | src/speech_recognizer.cc:41-44 | no wake-up, spurious or not, moves the deadline; the grace period is the constant |
| SessionWait.GivesUp | src/speech_recognizer.cc:59-70 | past the deadline with no terminal response, each own step brings the waiter closer to its return |
| SessionWait.WaiterGivesUp | src/speech_recognizer.cc:39-71 | in every run, under any pattern of spurious wakes: past its deadline and with no terminal response recorded, a waiter takes at most twelve more own steps, the grace sleep included, before it returns |
| SessionWait.WaiterReturnsInTime | src/speech_recognizer.cc:39-71 | in every run in which the clock does not run on while the waiter could move, with no terminal response recorded: while the waiter waits, and when it returns, the time is at most its absolute deadline plus the grace period plus the time it was blocked on mutexes |
| SessionProgress.LockOrder | src/speech_recognizer.cc:31-71 | a thread that acquires a mutex holds only mutexes of a lower level: write_mu and done_mu before conn_mu, the socket's write lock and the thread-id mutex |
| SessionProgress.CanMove | src/speech_recognizer.cc:149-465 | only a mutex held by somebody else can keep a thread inside a call from moving |
| SessionProgress.NoDeadlock | src/speech_recognizer.cc:31-71 | in every state satisfying the invariant, whenever some thread has work left, some thread can move: there is no cycle of waits on mutexes |
| SessionProgress.ReaderStepPays | src/speech_recognizer.cc:334-465 | once the session has run and its connection has been closed, each step of the reader uses up its budget of buffered reads and positions |
| SessionProgress.ReaderEnds | src/speech_recognizer.cc:334-465 | the connection stays closed, and in the rest of any run the reader itself moves fewer than 100 times per read still possible, plus 100, on every exit path |
| SessionProgress.ReaderEndsAfterFinish | src/speech_recognizer.cc:24-37 | the same bound from Finish on, with no further hypothesis |
| SessionProgress.ReaderEndsAfterGivingUp | src/speech_recognizer.cc:63-69 | the same bound once a waiter has given up and closed the connection |
| SessionProgress.TerminalIsNear | src/speech_recognizer.cc:48-54 | the wait without a timeout is short: once the terminal response is announced the reader takes at most 55 steps of its own to its end, whatever the connection does |
| SessionProgress.ReaderNotStuck | src/speech_recognizer.cc:361-365 | the reader's only resting place is its exit; short of that, somebody can move |
| SessionProgress.CallInCallbackEnds | src/speech_recognizer.cc:316-328 | each step of an API call on the reader thread brings the call closer to its return, the wait excluded |
| SessionProgress.CallbackNotStuck | src/speech_recognizer.cc:316-328 | in every run, a call the listener makes on the reader thread is over within 14 steps of that thread, so the reader never waits for its own done |
| WsCodec.RoundTrip | src/ws_client.cc:234-264 | for every opcode 0 to 15, payload and mask key, parsing the encoded frame followed by anything gives back fin, opcode and payload and consumes exactly the frame; beyond 64 MiB, and only there, it is refused |
| WsCodec.ShortestForm | src/ws_client.cc:240-251 | no frame a reader would accept with the same payload and masking is shorter than the encoder's |
| WsCodec.LengthFieldReads | src/ws_client.cc:240-251 | any length below 2^64 is read back from the length field, with its size and the mask bit |
| WsCodec.WireFormat | src/ws_client.cc:234-251 | section 5.2 of RFC 6455 byte by byte: 128 plus the opcode, the mask bit with seven bits of length or 126 and two bytes or 127 and eight bytes, most significant first, and the size of the whole |
| WsCodec.MaskedPayload | src/ws_client.cc:252-262 | section 5.3: the four bytes before the payload are the key, and payload byte i is sent XORed with key byte i modulo 4 |
| WsCodec.XorBit | src/ws_client.cc:257-259 | the XOR used is the exclusive or, bit by bit |
| WsCodec.HelloFrames | src/ws_client.cc:234-264 | the unmasked and the masked "Hello" of section 5.7 |
| WsCodec.EncodeWsFrame | src/ws_client.cc:234-264 | the loops produce the frame that WireFormat and MaskedPayload describe |
| WsCodec.EncodeEightBytes | src/ws_client.cc:248-250 | the shift loop writes the 64-bit length most significant byte first |
| WsClient.Client.WriteAll | src/ws_client.cc:419-459 | under any short writes, retries and stalls a prefix of the buffer is appended to the wire, the whole of it exactly on success |
| WsClient.Client.SendText | src/ws_client.cc:619-624 | one frame with opcode 1 is handed over after all earlier ones; it is whole on the wire if and only if the call succeeds, within the write timeout |
| WsClient.Client.SendBinary | src/ws_client.cc:626-632 | the same for a frame with opcode 2 |
| WsClient.Client.ReadExact | src/ws_client.cc:461-529 | the bytes returned are the next ones in order, none is skipped or read twice, and the code tells all, timeout or error |
| WsClient.Client.ReadOne | src/ws_client.cc:544-603 | one frame off the socket equals the first frame of the byte stream; the rest of a frame has a budget of its own |
| WsClient.Client.Read | src/ws_client.cc:531-617 | the loop returns what the specification of a read says, and what it wrote are the pongs for the pings it skipped |
| WsClient.ReadSound | src/ws_client.cc:531-617 | every read moves over whole frames: on success the skipped ping and pong frames and then the message returned; a timeout has consumed only such frames and at most one header byte, and only past the deadline |
| WsClient.PingsAnswered | src/ws_client.cc:605-615 | each ping skipped (opcode 9) is answered once, in order, by a pong (opcode 10) with its payload, and nothing else is written |
| WsClient.SegmentationIndependent | src/ws_client.cc:461-617 | two successful reads of the same bytes, cut and timed in any two ways, return the same message and leave the same bytes |
| WsStream.StreamStarts | src/ws_client.cc:234-264 | a concatenation of encoded frames parses as exactly those frames |
| WsStream.PunctualIsClean | src/ws_client.cc:531-603 | a read of a stream of frames neither fails nor loses a byte if and only if its events deliver each header whole or not at all by the deadline, and each started frame inside its budget |
| WsStream.PunctualCallsClean | src/ws_client.cc:531-603 | the same for any number of successive reads |
| WsStream.MessagesInOrder | src/ws_client.cc:531-617 | over any number of reads with such events, whatever happens between them: none fails, the messages returned are the data frames among the first k frames sent, in order, the pongs answer the pings among them, and the next read starts on a frame boundary |
| WsStream.NothingMissing | src/ws_client.cc:531-617 | with such events, once all bytes are consumed, exactly the data frames sent have been returned |
| WsStream.PromptRead | src/ws_client.cc:553-617 | bytes that arrive in any portions make the read return the first data frame, if they and the pongs written on the way leave it before its deadline and within the ten seconds of one frame |
| WsStream.PromptWrite | src/ws_client.cc:419-459 | a frame is sent whole if the socket takes it, in any portions, before the deadline |
| WsStream.StalledFrame | src/ws_client.cc:553-561 | a frame that stops after its header is given up with an error ten seconds later |
| WsStream.TimeoutBoundary | src/ws_client.cc:544-551 | after a timeout the remaining bytes start on a frame boundary if and only if the socket delivered no byte of the header the deadline cut off; with a data frame next, if and only if nothing arrived |
| WsStream.LostByteForges | src/ws_client.cc:544-551 | concrete bytes and timing for which the read after a lost header byte returns a message that was never sent |
| WsWriters.Conserved | src/ws_client.cc:605-632 | in every run of any number of senders the wire is a prefix of each frame, frame after frame in lock order, and each thread's messages are among them once each in that thread's order |
| WsWriters.NeverInterleaved | src/ws_client.cc:605-632 | in every run the wire is the frames of the sends that succeeded, whole and in lock order, followed by what is being written, if and only if every send that has returned either succeeded or failed before its first byte |
| WsWriters.DecodesInOrder | src/ws_client.cc:605-632 | and then it decodes to exactly those messages, in that order |
| WsWriters.NothingDropped | src/ws_client.cc:619-632 | if every send that has returned succeeded, these are all the messages handed over |
| WsWriters.LatePong | src/ws_client.cc:605-613 | a concrete run in which a pong fails with no time left and the wire stays in order |
| WsWriters.TornFrame | src/speech_recognizer.cc:264-267 | a concrete run of two senders, the first failing within its frame, whose wire decodes to a frame nobody sent |
| Sigpipe.Suppressor.constructor | src/ws_client.cc:183-197 | entering a scope blocks the signal and remembers mask and pending signal |
| Sigpipe.Suppressor.Leave | src/ws_client.cc:199-224 | leaving restores the mask, swallows a signal raised inside, and keeps one that was pending before |
| Sigpipe.RunScope | src/ws_client.cc:183-224 | for any nesting of scopes and any writes to dead peers inside, a scope leaves mask and pending signal as it found them and no signal is delivered |
| Fips180.PaddedShape | src/usersig.cc:37-50 | the padded message is the shortest run of whole blocks with room for the message, one bit and the length: the message, the byte 0x80, zeros |
| Fips180.LengthField | src/usersig.cc:46-50 | the length field spells the number of bits if and only if the message is shorter than 2^61 bytes |
| Fips180.PaddedInjective | src/usersig.cc:37-50 | no two such messages are padded alike |
| Fips180.OneMoreBlock | src/usersig.cc:100-150 | hashing block by block: the hash value of whole blocks and one more is the compression of the former with the latter |
| Fips180.HashValue | src/usersig.cc:127-151 | compression adds to each word of the hash value, modulo 2^32, what the 64 rounds begun with it have left |
| Fips180.Chooses | src/usersig.cc:132 | Ch takes the bits of its second argument where the first has a bit, of its third elsewhere |
| Fips180.Majority | src/usersig.cc:135 | Maj takes the bit on which its first two arguments agree, and the third's where they differ |
| Fips180.SigmasAtBits | src/usersig.cc:122-134 | the four sigma functions on the words with the lowest and with the highest bit: the rotations and shifts of section 4.1.2 |
| Fips180Constants.CubeRoots0 | src/usersig.cc:102-103 | the first eight constants are the first 32 fractional bits of the cube roots of 2 to 19 |
| Fips180Constants.CubeRoots8 | src/usersig.cc:103-104 | the next eight, of 23 to 53 |
| Fips180Constants.CubeRoots16 | src/usersig.cc:104-105 | of 59 to 89 |
| Fips180Constants.CubeRoots24 | src/usersig.cc:106-107 | of 97 to 131 |
| Fips180Constants.CubeRoots32 | src/usersig.cc:107-108 | of 137 to 173 |
| Fips180Constants.CubeRoots40 | src/usersig.cc:108-109 | of 179 to 223 |
| Fips180Constants.CubeRoots48 | src/usersig.cc:110-111 | of 227 to 263 |
| Fips180Constants.CubeRoots56 | src/usersig.cc:111-112 | of 269 to 311 |
| Fips180Constants.SquareRoots | src/usersig.cc:72-79 | the initial hash value is the first 32 fractional bits of the square roots of 2 to 19 |
| Fips180Example.AbcHash | src/usersig.cc:100-151 | one block with "abc" in it, through all 48 schedule entries and 64 rounds, gives the hash value in the example of FIPS 180-4 |
| Fips180Example.AbcDigest | src/usersig.cc:22-68 | the digest of "abc" is ba7816bf 8f01cfea 414140de 5dae2223 b00361a3 96177a9c b410ff61 f20015ad |
| Sha256.Sha256.Schedule | src/usersig.cc:114-125 | the loop computes the message schedule of section 6.2.2 of FIPS 180-4 |
| Sha256.Sha256.RunRounds | src/usersig.cc:127-143 | the 64 turns compute the 64 rounds of section 6.2.2 on the working variables |
| Sha256.Sha256.Compress | src/usersig.cc:100-151 | the in-place update of the eight words is the compression of the buffered block |
| Sha256.Sha256.UpdateNoCount | src/usersig.cc:84-96 | for data of any length the buffer holds the bytes past the last whole block and the words are the hash value of all whole blocks |
| Sha256.Sha256.Update | src/usersig.cc:22-35 | the same, with the bit count kept modulo 2^64 |
| Sha256.Sha256.Final | src/usersig.cc:37-58 | the zero-fill loop terminates, the pad byte is not counted, and the output is the digest of everything absorbed |
| Sha256.Sha256.HashOf | src/usersig.cc:60-68 | the one-shot hash is the digest |
| Sha256.HashChunks | src/usersig.cc:22-58 | any split of a message into calls of Update gives the digest of the whole message |
| Hmac.HmacSha256 | src/usersig.cc:163-181 | the code computes the HMAC of section 2 of RFC 2104, keys longer than a block hashed first |
| Hmac.LongKey | src/usersig.cc:165-169 | a key longer than a block has the HMAC of its digest |
| Hmac.MacOfPads | src/usersig.cc:163-181 | byte by byte: the key or its digest, filled up with zeros, XORed with 0x36 before the text and with 0x5c before the inner digest |
| Base64.Base64Encode | src/usersig.cc:233-246 | the loop produces the encoding of section 4 of RFC 4648 |
| Base64.EncodedLength | src/usersig.cc:233-246 | the length is 4 * ceil(n / 3) |
| Base64.Sextets | src/usersig.cc:236-243 | the shifts and masks of the 24-bit word are the digits of its three bytes |
| Base64.Base64Decode | src/usersig.cc:248-266 | the loop over a wrapping 32-bit accumulator computes the decoding, and fails when it does |
| Base64.AccumulatorWraps | src/usersig.cc:258-263 | the wrapping accumulator and an unbounded one yield the same byte and the same pending bits |
| Base64.RoundTrip | src/usersig.cc:233-266 | decoding an encoding gives back every byte string |
| Base64.Vectors | src/usersig.cc:233-276 | test vectors of section 10 of RFC 4648, and the two last characters of the alphabet in both variants |
| Base64.DecodeFails | src/usersig.cc:252-257 | decoding fails if and only if an invalid character comes before the first padding character |
| Base64.DecodeMeans | src/usersig.cc:248-266 | n digits decode to the 6n / 8 bytes of the number they spell in base 64, the last 6n % 8 bits dropped |
| Base64.Base64UrlEncode | src/usersig.cc:268-276 | the in-place replacement is the variant alphabet applied to the encoding |
| Base64.Base64UrlDecode | src/usersig.cc:282-290 | the in-place replacement back, then decoding |
| Base64.UrlRoundTrip | src/usersig.cc:268-290 | the variant with `*`, `-` and `_` gives back every byte string |
| UserSig.JsonEscape | src/usersig.cc:208-229 | the loop escapes character by character |
| UserSig.JsonRoundTrip | src/usersig.cc:208-229 | a JSON reader (section 7 of RFC 8259) reads back exactly the string, whatever bytes it holds, and stops at the quote the document put there |
| UserSig.EscapeExample | src/usersig.cc:208-229 | the escapes written, one of each form |
| UserSig.ContentReads | src/usersig.cc:301-304 | the signed text, cut at its last three line breaks and each line at its colon, is TLS.identifier, TLS.sdkappid, TLS.time, TLS.expire in this order, each with the value of the request, whatever the user id holds |
| UserSig.ContentInjective | src/usersig.cc:301-304 | two requests with the same signed text have the same user id, application, time and expiry, even if ids contain line breaks |
| UserSigDocument.ReadMembersOf | src/usersig.cc:308-315 | a reader of flat JSON objects (sections 4, 6 and 7 of RFC 8259) gets back every list of members written with escaped strings and decimal integers |
| UserSigDocument.DocumentReads | src/usersig.cc:308-315 | the whole document reads back as its six members, none added, lost or changed, whatever bytes the user id holds |
| UserSigDocument.UserSigDocument | src/usersig.cc:292-315 | an empty key or user id is refused; otherwise a reader of the document finds version, user id, application, expiry and time under their names, and under TLS.sig the Base64 form of the MAC of the text rebuilt from the members it has read: a line for each of TLS.identifier, TLS.sdkappid, TLS.time, TLS.expire |
| Query.QueryEscape | src/signature_params.cc:121-138 | the loop escapes byte by byte |
| Query.EscapeRoundTrip | tests/mock_servers.cc:367-384 | percent-decoding undoes the escaping of every byte string |
| Query.EscapeExample | src/signature_params.cc:121-138 | a blank becomes a plus, reserved bytes upper-case digits, and the four unreserved marks stay |
| Query.EscapedHasNoSeparator | src/signature_params.cc:121-138 | the escaped text contains neither `&` nor `=` |
| Query.LessMeans | src/signature_params.cc:53-55 | the key order is that of std::string: a proper prefix, or smaller at the first difference |
| Query.PutKeeps | src/signature_params.cc:53-55 | an assignment keeps a map's keys strictly ascending |
| Query.PutGet | src/signature_params.cc:53-55 | an assignment sets its key, adds at most one entry and leaves every other key alone |
| Query.BuildQuery | src/signature_params.cc:26-36 | the loop writes the entries in order, separated |
| Query.RestExample | src/signature_params.cc:26-36 | a query of two entries, character by character |
| Query.ParseRest | tests/mock_servers.cc:98-116 | splitting a built query and decoding its pairs gives back the map's entries in order, whatever bytes the values hold |
| SignatureParams.BuildQueryStringWithSignature | src/signature_params.cc:38-51 | the query built is that of the parameters with the two signature entries |
| SignatureParams.SignedQuery | src/signature_params.cc:38-119 | reading it back gives ToMap's parameters untouched plus signature and usersig, both the UserSig, keys strictly ascending, nothing overwritten |
| SignatureParams.FillGets | src/signature_params.cc:53-119 | every parameter given reaches the map with the last value assigned to it |
| Polling.WaitForResultWithInterval | src/file_recognizer.cc:253-278 | the loop ends with the first request that ends it: success, failure and a throwing request at once, a timeout only past the deadline after an unfinished answer; at most timeout / interval + 2 requests |
| Polling.QueryBound | src/v3.cc:592-612 | requests that do not end the loop number at most timeout / interval + 1 |
| Polling.BoundReached | src/file_recognizer.cc:253-278 | a server that never finishes and answers at once is asked exactly timeout / interval + 2 times |

## Left out

- The session is a transition system on values, not a class: its point is the interleaving of threads, which a sequential method cannot show. A mutex release is folded into the guarded action before it. Callers are not held to the rule of calling `Write` and `Stop` only after `Start` has returned: the theorems cover them too.
- SessionWriteCall.WriteCall: whether a call returns or throws is not modelled, only the step it comes back from; the same holds for Start and Stop.
- Session.ReaderStep: does not model the mutex around the stored speaker_continue value, nor the response fields no branch inspects.
- Destructors, move of the reader thread handle, failure to create a thread, setters, validators, clamps and site-to-host mapping: each is settled by reading one branch.
- Fairness: progress is stated as bounds on a thread's own steps, bounds on the clock under prompt scheduling, and absence of mutex cycles, not as eventual scheduling.
- Sockets, TLS, poll and the clock: a read or write is a script of arbitrary events; the bytes `SSL_read` drains after a close notification are one more portion.
- WsClient.Client.ReadExact: does not model read_buf_, which nothing in the repository fills; the byte counts and time are not truncated to 32 bits.
- WsClient.Client.Read: the text of error messages and the fields of the output frame after a failure.
- The HTTP upgrade, URL parsing, UUIDs, nonces, telemetry and the process-wide SIGPIPE switch.
- Mask keys, the server's answers and request durations are parameters.
- Sigpipe.RunScope: does not model a failing pthread_sigmask or signals sent to the whole process.
- zlib and the vendored JSON parser: a downlink frame is malformed or a record of the fields the reader's branches inspect, an ack a record of the types and values Connect depends on.
- UserSigDocument.UserSigDocument: the compression of the document and its final encoding are not modelled together; the clock is a parameter.
- UserSig.JsonRoundTrip: the reader returns code points above 255 as malformed, since a user id is bytes.
- Query.EscapeRoundTrip: the decoder treats a percent sign without two hexadecimal digits as itself; the escaper never writes one.
- SignatureParams.BuildQueryStringWithSignature: ToMap's conditions and number formats are not modelled; which of its parameters are present, and their text, is arbitrary.
- Polling.WaitForResultWithInterval: requires a positive interval; with a zero interval the end depends on the clock alone.
- Cryptographic strength: only agreement with the standards is proved.
