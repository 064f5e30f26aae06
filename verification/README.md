# TUIC in Dafny

A model of TUIC (protocol version 0x04), a relay that carries TCP connections and UDP packets of a
SOCKS5 client over one QUIC connection to a server, with proofs about every run of it. The modules
follow the program:

- `Wire`, `Codec`: bytes, big-endian integers, UTF-8; the streaming reader and the writer of commands
  and addresses, as functions and as the classes `Reader` and `Buffer` that consume and append in place.
  `Format` and `Unicode` say in plain numbers which bytes these are and which a reader refuses.
- `Relay`: how a UDP packet becomes a stream or a datagram and is read back at either end.
- `Server`: one connection on the server as a transition system. Every stream and datagram is a task
  that reads its header, waits at the authentication gate, passes the relay-mode latch and then uses
  the session map. What is proved about its runs: `ServerAuth` (authentication, wakeups), `ServerGate`
  (which tasks can go on), `ServerSessions` (senders, draining, release), `ServerTrace` and `ServerOnce`
  (where packets and replies come from), `ServerProgress` and `ServerMap` (the session map),
  `ServerRaces` (sessions for one id), `ServerFate` and `ServerLosses` (what becomes of a packet),
  `ServerRelease` (what a disconnect releases), `ServerConnect` and `ServerAnswers` (TCP),
  `ServerConforming` (relay mode and rejection of a peer), `ServerErrors` (what exactly a connection
  is closed for), `ServerReplies` and `ServerRecords` (messages, sockets, addresses and replies
  against the steps of the run). `ServerFrame`, `ServerChains` and `ServerHistory` are tools for
  these.
- `SplitPoll`, `SplitWait`: the authentication gate, and the client's wait for a request, each alone
  and with its poll split between load and registration.
- `System`, `ServerView`, `EndToEnd`, `EndToEndRuns`, `ClientRecords`: that server and the client's use
  of a connection, joined by a network which delays, reorders and loses messages and cuts streams short.
- `Manager`, `ManagerRuns`: the client's connection manager, request tasks and incoming listener over
  any number of connections.
- `Cells`, `Streams`, `Socks5`: shared objects, address loops, stream counting, the heartbeat and the
  SOCKS5 packet loops in their imperative form. The contracts in `Cells` are stated with the functions
  that the transition systems apply.

## How to read it

A step of a transition system is one atomic section of the code, and steps of all parties interleave
in any order. What the code cannot know (arrival, socket results, timeouts, resolved addresses) is
chosen by the step. `UdpSessionMap::send` is split at its lock operations into lookup, creation,
cloning, insertion and enqueueing; setting a flag and waking its waiters are two steps; a `poll` is one.
`IsRun(run)` says that `run` is a finite sequence of states from the start of a connection. Theorems
about "every run" take any run and any position in it. `StepAt(run, i)` is the step taken at i.

A poll is enabled for a task whether or not it was woken, so that safety holds with spurious polls too.
What is said about progress does not rest on that: `NoTaskStuck`, `ManagerNotStuck` and
`ListenerNotStuck` take a parked task for stopped and say what wakes it, and `CanBeWokenIff` speaks of
continuations without spurious polls.

The protocol is modelled on values; the objects whose methods its steps call are classes. Fields that
exist only to state properties are logs: `Session.enqueued`, `sent` and `received`, the task number in
`Item` and `Reply`, `origin` and `via`, which tell what a task came from, and `missed` in
`SplitPoll` and `SplitWait`.

Where code and documentation differ the model follows the code:

- The protocol document has one UDP socket per associate id. That holds for an id for which no
  Dissociate has arrived and no two tasks were making a session at once (`OneSessionPerId`). Neither
  condition can be dropped: two makers can always end up with two sessions (`TwoMakersCanMakeTwo`, with
  a run from the start in `TwoSessionsForOneId`), and a packet handled after the Dissociate makes
  another (`PacketAfterDissociateMakesAnother`).
- The document has every Connect answered. A failed name lookup ends the task without a Response
  (`FailedLookupIsNotAnswered`); `ConnectAnsweredIff` says exactly which Connects are answered, and
  `AddressConnectIsAnswered` what a client can rely on.
- The document has a disconnect release all sessions. By itself it releases none
  (`DisconnectKeepsSession`): the map goes with the last task that holds it, and that releases all
  sessions exactly if every task has ended (`MapDropReleasesIff`).
- `set_closed` on the server does not wake those who wait at the gate, so a task may wait forever
  (`WaiterIsStranded`). `CanBeWokenIff` says exactly when it can still be woken, and
  `NobodyStrandedWithSessions` that no connection with sessions strands anyone.
- A session whose socket failed stays in the map and swallows what is sent to its id
  (`EndedSessionStaysMapped`, `SendIntoEndedIsLost`, with a run in `FailedSessionSwallows`).

Properties that do not hold of all inputs come with their exact condition: `RoundTripIff` (domain
length, IPv6 flow information and scope), `ModesAgreeIff` and `TrimmedIsWholeIff` (the 16-bit length
field), `ClientSliceOutOfBoundsIff` (a datagram that carries less than it announces), `LimitSuffices`
(the packet size limit), `PacketEntersIff` (packets that reach no session, with a run for each reason
in `ServerLosses`), `ClientIsRejectedIff` (streams cut inside their command, with a run in
`CutStreamIsRejected`), `LostIff` in `SplitPoll` and in `SplitWait` (wakeups lost in the middle of a
poll), and those named above.

## Model

| member | source | states |
|---|---|---|
| `Wire.GetPutU16s` | protocol/src/lib.rs:277-286 | Reading the segments of an IPv6 address back gives the segments that were written. |
| `Wire.PutGetU16s` | protocol/src/lib.rs:277-286 | Writing the segments that were read gives the bytes they were read from. |
| `Wire.U32Inverse` | protocol/src/lib.rs:119-124 | Writing and reading a big-endian 32-bit field invert each other, both ways round. |
| `Wire.BigEndian` | protocol/src/lib.rs:119-124 | A 16-bit and a 32-bit field put the most significant byte first. |
| `Unicode.ValidIffText` | protocol/src/lib.rs:247-252 | The name of a domain is accepted exactly if it is the concatenation of encoded Unicode scalar values. |
| `Unicode.TextIsUnique` | protocol/src/lib.rs:247-252 | Different texts have different encodings. |
| `Format.DomainBytes` | protocol/src/lib.rs:310-315 | A domain address is the byte 0x00, the length, the name and the port, at these offsets. |
| `Format.V4Bytes` | protocol/src/lib.rs:317-321 | An IPv4 address is the byte 0x01, four bytes and the port. |
| `Format.V6Bytes` | protocol/src/lib.rs:322-328 | An IPv6 address is the byte 0x02, eight big-endian segments and the port. |
| `Format.CommandBytes` | protocol/src/lib.rs:150-188 | Version 0x04, the type byte of each command, and each of its fields at its offset, in numbers. |
| `Format.FrameBytes` | server/src/connection/task.rs:100-116 | A packet on the wire, byte by byte: header, id, length modulo 65536, address, payload. |
| `Format.Refusals` | protocol/src/lib.rs:83-139 | For any bytes, exactly which ones are refused as a wrong version, as an unknown code and as a name that is not UTF-8. |
| `Codec.EncodedLength` | protocol/src/lib.rs:190-199 | serialized_len is the number of bytes written for every command, over-long domains included. |
| `Codec.AddressRoundTrip` | protocol/src/lib.rs:231-331 | An address with a domain of at most 255 bytes, followed by any bytes, is read back as itself without IPv6 flow information and scope, and leaves exactly those bytes. |
| `Codec.PacketRoundTrip` | protocol/src/lib.rs:118-128 | A Packet header in front of any payload is read back with id, length and address, and the payload is left unread. |
| `Codec.ConnectRoundTrip` | protocol/src/lib.rs:114-117 | A Connect in front of any bytes is read back with its address, and leaves those bytes. |
| `Codec.ShortRoundTrip` | protocol/src/lib.rs:98-113 | The commands without address are read back unchanged in front of any bytes. |
| `Codec.RoundTripIff` | protocol/src/lib.rs:83-188 | Decoding undoes encoding, in front of any further bytes, exactly if the domain has at most 255 bytes and an IPv6 address has no flow information and scope. |
| `Codec.LongDomainIsMisread` | protocol/src/lib.rs:312 | What a reader makes of a 256-byte domain: an empty name, with the name's first bytes as port and the others left in the stream. |
| `Codec.DecodedIsRepresentable` | protocol/src/lib.rs:83-139 | Nothing is ever decoded that could not be encoded again. |
| `Codec.AddressCanonical` | protocol/src/lib.rs:231-297 | An address that is read re-encodes to exactly the bytes consumed. |
| `Codec.Canonical` | protocol/src/lib.rs:83-199 | A command that is read re-encodes to exactly the bytes consumed, serialized_len is their number, and slicing there gives the unread rest. |
| `Codec.DecodedLengthBound` | protocol/src/lib.rs:201-203 | No command that can be read consumes more than max_serialized_len bytes. |
| `Codec.LengthBoundAttained` | protocol/src/lib.rs:343-345 | Some command that round-trips has max_serialized_len bytes. |
| `Codec.AddressPrefixStable` | protocol/src/lib.rs:231-297 | More bytes do not change an address that was read, nor an error other than end of input. |
| `Codec.PrefixStable` | protocol/src/lib.rs:83-139 | More bytes do not change a command that was read, nor an error other than end of input. |
| `Codec.ProperPrefixIsEof` | protocol/src/lib.rs:83-139 | Every proper prefix of a command with a domain of at most 255 bytes fails with end of input and nothing else. |
| `Codec.StreamRoundTrip` | protocol/src/lib.rs:83-188 | Any list of representable commands written one after the other is read back as the same list. |
| `Codec.StreamCanonical` | protocol/src/lib.rs:83-139 | A byte string that is read as a list of commands is exactly the encoding of that list. |
| `Codec.ErrorIsFoundEarly` | protocol/src/lib.rs:83-139 | A read that fails for another reason than end of input takes the shortest prefix that fails so: any shorter one is only an end of input. |
| `Codec.Buffer.WriteSegments` | protocol/src/lib.rs:324-326 | The loop over the segments appends all of them in order. |
| `Codec.Buffer.WriteAddress` | protocol/src/lib.rs:308-331 | The field-by-field writes append the address's encoding and change nothing before it. |
| `Codec.Buffer.WriteCommand` | protocol/src/lib.rs:150-188 | The field-by-field writes append the command's encoding and change nothing before it. |
| `Codec.Reader.ReadExact` | protocol/src/lib.rs:242 | Succeeds exactly if enough bytes are unread, and then takes the first ones. |
| `Codec.Reader.ReadDomain` | protocol/src/lib.rs:238-255 | Reading name and port in one piece, cutting them and checking the name agrees with the decoder, errors and what they leave unread included. |
| `Codec.Reader.ReadAddress` | protocol/src/lib.rs:231-297 | The step-by-step reader gives the decoder's address and leaves its rest, or fails with its error and leaves what is behind the wrong field. |
| `Codec.Reader.ReadCommand` | protocol/src/lib.rs:83-139 | The step-by-step reader gives the decoder's command and leaves its rest, or fails with its error and leaves what is behind the wrong field. |
| `Relay.TrimmedIsWholeIff` | client/src/relay/task.rs:57 | Trusting the length field and taking everything give the same packet exactly below 65536 bytes. |
| `Relay.FrameOnStream` | server/src/connection/task.rs:56-71 | A packet put on a stream is read back with its id, payload up to the length field, and address. |
| `Relay.FrameAsDatagramToServer` | server/src/connection/dispatch.rs:114-133 | A packet put in a datagram reaches the server's session layer with its id, whole payload and address. |
| `Relay.FrameAsDatagramToClient` | client/src/relay/incoming.rs:76-96 | Every datagram that the server builds is sliced in bounds by the client and gives the packet. |
| `Relay.ServerSliceInBounds` | server/src/connection/dispatch.rs:115-127 | For any bytes at all the server's slice is in bounds, and it is what the parser left unread. |
| `Relay.ClientSliceOutOfBoundsIff` | client/src/relay/incoming.rs:77-96 | The client's slice is out of bounds exactly for a Packet that carries fewer bytes than it announces. |
| `Relay.BareHeaderIsOutOfBounds` | client/src/relay/incoming.rs:86-90 | A header that announces a payload and carries none: the client's slice fails, the server takes an empty packet, a stream reader drops it. |
| `Relay.ModesAgreeIff` | client/src/relay/task.rs:57-73 | Client to server, stream and datagram deliver the same exactly if the payload is below 65536 bytes. |
| `Relay.ModesAgreeToClient` | server/src/connection/task.rs:84-116 | Server to client, stream and datagram always deliver the same, and it is the whole packet exactly below 65536 bytes. |
| `Relay.CutStream` | client/src/relay/incoming.rs:104-118 | A stream cut off anywhere delivers what the whole stream would or nothing. |
| `Relay.BuildDatagram` | server/src/connection/task.rs:100-116 | The datagram built in a buffer is the same bytes as the packet's stream. |
| `Relay.ReadStream` | client/src/relay/incoming.rs:105-118 | The imperative stream reader delivers, or drops, what the specification does. |
| `Server.TryLatch` | server/src/connection/udp.rs:28-38 | The compare-and-swap succeeds exactly if the cell then holds the caller's mode, never changes a set cell and never leaves it empty. |
| `ServerAuth.AuthenticationSafety` | server/src/connection/dispatch.rs:13-29 | In every run, a change of the latch, the session map or a session, a reply, a TCP attempt or a byte on a bidirectional stream comes only after a stream with an Authenticate from the token set. |
| `ServerAuth.LatchNeverChanges` | server/src/connection/udp.rs:28-38 | Once set, the relay mode of a connection stays the same to the end of the run. |
| `ServerAuth.NoLostWakeupAlways` | server/src/connection/authenticate.rs:29-52 | In every reachable state a waiter that is not runnable is in the list, and if the flag is already set some task's wake is still to come. |
| `ServerAuth.WakeReachesEveryone` | server/src/connection/authenticate.rs:33-37 | That wake leaves no waiter parked. |
| `ServerAuth.ClosedGateRefuses` | server/src/connection/authenticate.rs:43-45 | After set_closed every poll of the gate, at any later time, answers no. |
| `ServerGate.NoTaskStuck` | server/src/connection/dispatch.rs:9-197 | In every run a task that has not ended and is not parked at the gate can take its next step or waits for a session that can make room; a parked one is in the list, and if anything can wake it, a task or the timer is on the way to. |
| `ServerGate.CanBeWokenIff` | server/src/connection/mod.rs:195-240 | In every run, without spurious polls, a parked waiter can still be woken exactly if the select is running, the timer is about to drain, or a task is draining or has an Authenticate to read. |
| `ServerGate.WaiterIsStranded` | server/src/connection/mod.rs:234-240 | There is a run in which a connection ends before authentication and leaves a task parked that nothing can ever wake. |
| `ServerGate.NobodyStrandedWithSessions` | server/src/connection/authenticate.rs:29-52 | On a connection that has made a session every parked waiter has its wake to come. |
| `SplitPoll.LostIff` | server/src/connection/authenticate.rs:43-51 | With load and push as two steps, in every run a parked waiter is lost exactly if the list was drained with the flag set between the two and nobody else is on the way to drain it. |
| `SplitPoll.LostStays` | server/src/connection/authenticate.rs:43-51 | A lost waiter stays lost until someone new comes to drain the list. |
| `SplitPoll.AnsweredIff` | server/src/connection/authenticate.rs:43-48 | In every run a waiter is refused exactly if it checked when the connection was closed, and let through exactly if it loaded the flag when that was set. |
| `SplitPoll.AtomicPollsLoseNobody` | server/src/connection/authenticate.rs:33-51 | In every run in which no drain falls between a load and its push, nobody is ever lost. |
| `SplitPoll.WakeupIsLost` | server/src/connection/authenticate.rs:43-51 | There is a run with one task and one valid Authenticate that leaves the task parked behind an open gate. |
| `SplitWait.LostIff` | client/src/relay/request.rs:146-176 | With load and store as two steps, in every run the parked manager has a live request and no wake to come exactly if a request registered between the two is still live and none is being registered. |
| `SplitWait.NextRequestWakes` | client/src/relay/request.rs:146-176 | The next request that is registered wakes a lost manager, which then finds the count above one. |
| `SplitWait.AtomicPollsLoseNothing` | client/src/relay/request.rs:146-176 | In every run in which no waker is taken between a load and its store the manager is never lost. |
| `SplitWait.WakeupIsLost` | client/src/relay/request.rs:165-176 | There is a run with one request that leaves the manager parked while the request is live. |
| `ServerSessions.SenderConservation` | server/src/connection/udp.rs:73-115 | For every session ever created the live senders are its map entry plus the handles of sends in flight, in every run. |
| `ServerSessions.SendLoopEndsExactlyWhen` | server/src/connection/udp.rs:142-158 | A running session's send loop can end exactly if it is unmapped, no send holds it and all that was enqueued is sent. |
| `ServerSessions.SentInOrder` | server/src/connection/udp.rs:142-158 | What was sent is a prefix of what was enqueued; without a socket error the rest is in hand or queued, and after the loop's end there is none. |
| `ServerSessions.DrainedForever` | server/src/connection/udp.rs:80-113 | A session whose send loop ended normally is never touched again, so no packet goes into one of these. |
| `ServerSessions.SessionsReleased` | server/src/connection/udp.rs:52-115 | In every run all sessions are without senders exactly if the map is empty and no task holds one, and ended tasks hold none. |
| `ServerRelease.MapDropReleasesIff` | server/src/connection/mod.rs:62-97 | In every run whose select is over with entries in the map, dropping the map, and nothing else, releases all sessions exactly if every task has ended. |
| `ServerRelease.DisconnectKeepsSession` | server/src/connection/mod.rs:70-81 | For every id there is a run that ends with the connection over and closed, the id's session running and mapped, and no way for the map to be dropped yet. |
| `ServerSessions.ReleasedSessionDrains` | server/src/connection/udp.rs:142-158 | A session without senders and with a working socket can send all that it has, in order, and end. |
| `ServerTrace.NoTaskPanics` | server/src/connection/dispatch.rs:156-165 | In every run no unwrap, slice or unreachable of a task fails; a packet on its way back finds the latch set. |
| `ServerTrace.SessionPacketProvenance` | server/src/connection/udp.rs:73-109 | Every packet in a session is what some message of the peer carried, for that session's id, and no message enters twice. |
| `ServerTrace.ReplyProvenance` | server/src/connection/dispatch.rs:156-197 | Every reply is a packet that a session received, framed with that session's id, on the channel of the latch. |
| `ServerConnect.AnswerMeansConnection` | server/src/connection/task.rs:21-54 | Whatever prefix of a stream is read as a command, it is a success for the first reachable resolved address or a failure after all of them failed. |
| `ServerConnect.OneResponsePerStream` | server/src/connection/task.rs:42-51 | Once a whole Response is on a stream, at every later time its bytes are still there, they say the same, no second one can be written, and after a failure nothing follows. |
| `ServerConnect.StaysConnected` | server/src/connection/task.rs:35-46 | No later step takes back that the first reachable address was connected to. |
| `ServerAnswers.ConnectAnsweredIff` | server/src/connection/task.rs:21-54 | In every run the stream of a Connect whose task has ended carries a whole Response exactly if the gate was not closed to it, its lookup did not fail and the Response was not cut off. |
| `ServerAnswers.AddressConnectIsAnswered` | server/src/connection/task.rs:28-54 | A Connect to an IP address that was let through the gate does not end unanswered unless its Response is cut off. |
| `ServerAnswers.FailedLookupIsNotAnswered` | server/src/connection/task.rs:28-33 | For every domain there is a run in which the task of its Connect is done and has written nothing. |
| `ServerRecords.AnswerFollowsAttempts` | server/src/connection/task.rs:21-54 | In every run an answered stream carries a Response that tells whether an attempt succeeded, then the target's data; the attempts went through the addresses that were looked up, in order, up to the first success. |
| `ServerRecords.StreamIsWhatWasWritten` | server/src/connection/task.rs:42-54 | In every run a stream carries, for every task, the Response as far as it was sent and then the data of the target, in order, and nothing else. |
| `ServerConforming.LatchKeepsMode` | server/src/connection/udp.rs:28-38 | In every run whose Packets are all of one relay mode the latch is unset or holds that mode. |
| `ServerConforming.PeerIsRejectedIff` | server/src/connection/dispatch.rs:9-154 | In every run whose readable commands are all allowed to a client with a valid token, a task reports something other than a timeout exactly if one has read a message without a readable command. |
| `ServerConforming.PeerIsAnsweredInKind` | server/src/connection/dispatch.rs:165-193 | In every run whose Packets are all of one relay mode all replies use that mode. |
| `ServerErrors.UnreadableIsRejectedIff` | server/src/connection/dispatch.rs:11 | In every run, whatever the peer sends, the connection is closed for an I/O error exactly if a message that has no command in front was read. |
| `ServerErrors.WrongTokenIsRejectedIff` | server/src/connection/dispatch.rs:13-26 | In every run the connection is closed for a failed authentication exactly if an Authenticate with an unknown digest was read from a unidirectional stream. |
| `ServerErrors.AuthenticatedIff` | server/src/connection/dispatch.rs:17-19 | In every run the flag is set exactly if an Authenticate with a known digest was read from a unidirectional stream. |
| `ServerErrors.BadCommandIff` | server/src/connection/dispatch.rs:29-154 | In every run the connection is closed for a bad command exactly if a task behind the gate dispatched one that has no place on its channel, or a Packet in the other relay mode. |
| `ServerErrors.TimeoutIff` | server/src/connection/mod.rs:195-215 | In every run it is closed for a timeout exactly if the timer fired or a task polled the gate after the connection was closed. |
| `ServerErrors.ClosedIff` | server/src/connection/mod.rs:62-97 | In every run the connection is marked closed exactly if that step was taken, and it listens until one of its listeners has ended or the timeout has woken everyone. |
| `ServerOnce.NoReplyTwice` | server/src/connection/mod.rs:171-190 | In every run a packet that a session received is sent back at most once. |
| `ServerReplies.ReplyIsSentIff` | server/src/connection/dispatch.rs:156-197 | In every run the task of the k-th packet that a session received has, once ended, exactly one reply in the outbox if no send of it failed and none otherwise; either of the client's readers gets from it the session's id and that packet. |
| `ServerRecords.EveryMessageHasItsTask` | server/src/connection/mod.rs:99-169 | In every run the tasks started for messages are those of all messages that arrived, in order. |
| `ServerRecords.SessionFollowsItsSocket` | server/src/connection/udp.rs:142-176 | In every run a session has received what its socket delivered, in order, and has failed exactly if its socket reported an error. |
| `ServerProgress.EntryRemovedOnlyOnRequest` | server/src/connection/udp.rs:111-114 | A map entry disappears only after a Dissociate for its id arrived, or with the whole map at the end. |
| `ServerProgress.EntryReplacedOnlyByCreator` | server/src/connection/udp.rs:98-103 | A map entry is set only to a session that a send for the same id has created. |
| `ServerProgress.SendUsesMap` | server/src/connection/udp.rs:80-106 | A send enqueues only into a session that was the entry of its id, and creates one only after it has seen the id unmapped. |
| `ServerMap.MappedIff` | server/src/connection/udp.rs:98-114 | In every run a session is the entry of an id exactly if a task that made it for the id put it there and since then no other was put there, no Dissociate for the id was carried out and the map was not dropped. |
| `ServerRaces.OneSessionPerId` | server/src/connection/udp.rs:73-114 | In every run at most one session was ever made for an id for which no Dissociate arrived and no two tasks were making one at the same time. |
| `ServerRaces.TwoMakersCanMakeTwo` | server/src/connection/udp.rs:86-103 | Every run that comes to two tasks making a session for one id goes on to two sessions for it in some continuation. |
| `ServerRaces.RacingSendsMakeTwoSessions` | server/src/connection/udp.rs:82-104 | From any state in which two sends are about to look one unmapped id up, both can create a session; the later insert wins and the earlier session stays alive. |
| `ServerRaces.TwoSessionsForOneId` | server/src/connection/udp.rs:82-104 | For every id there is a run from the start of a connection, without a Dissociate for it, that ends with two live sessions. |
| `ServerRaces.PacketAfterDissociateMakesAnother` | server/src/connection/udp.rs:86-114 | For every id there is a run in which no two tasks ever make a session for it at once, and a packet handled after its Dissociate makes a second one. |
| `ServerFate.PacketEntersIff` | server/src/connection/udp.rs:73-109 | In every run a packet whose task has ended is in a session for its id exactly if the gate was not closed to it, its mode was the connection's, no bind failed for it and its session had not ended. |
| `ServerFate.PacketInModeEntersIff` | server/src/connection/dispatch.rs:37-133 | With a peer that keeps to one mode the wrong mode is never the reason. |
| `ServerLosses.FailedSessionSwallows` | server/src/connection/udp.rs:82-106 | For every id there is a run in which its session's socket fails, the session stays mapped and the next packet is sent to it and enters none. |
| `ServerLosses.ClosedGateLoses` | server/src/connection/dispatch.rs:119-153 | There is a run in which a packet is refused because the connection closed before it passed the gate. |
| `ServerLosses.FailedBindLoses` | server/src/connection/udp.rs:90-96 | There is a run in which a packet is gone because no socket could be bound for it. |
| `ServerLosses.OtherModeLoses` | server/src/connection/dispatch.rs:37-62 | There is a run in which a packet on a stream is refused after one in a datagram. |
| `ServerFate.EndedSessionStaysMapped` | server/src/connection/udp.rs:82-106 | A session that has ended stays the entry of its id until a Dissociate for it arrives, another session is inserted or the connection is over, and takes and sends nothing more. |
| `ServerFate.SendIntoEndedIsLost` | server/src/connection/udp.rs:106 | A packet whose send holds a session that has ended never enters any session. |
| `ServerFate.EnqueuedIsSentBeforeDrain` | server/src/connection/udp.rs:106-158 | A packet enqueued in a running session stays on its record and has been sent if the session ends normally; one sent to an ended session never enters any. |
| `ServerProgress.ReceivedPacketsAccounted` | server/src/connection/udp.rs:160-176 | While the connection is up every received packet is in its session's hand, in the channel or with a reply task, except the last one of a session that has ended. |
| `EndToEnd.UdpIntegrityToServer` | client/src/relay/task.rs:43-76 | In every run, whatever the network does, each packet that a server session sends is one that the client association of the same id took, unchanged up to the length field and IPv6 flow information. |
| `EndToEnd.NoPacketSentTwice` | client/src/relay/request.rs:60-67 | No packet of the client is sent twice by the server's sessions. |
| `EndToEnd.UdpIntegrityToClient` | client/src/relay/task.rs:91-103 | In every run each packet handed to an association was received by a server session for its id; it is the whole packet exactly below 65536 bytes. |
| `EndToEnd.ClientNeverPanics` | client/src/relay/incoming.rs:86-90 | In no run is the client's slice of a datagram of this server out of bounds. |
| `EndToEnd.NoPacketDeliveredTwice` | server/src/connection/mod.rs:171-190 | No packet that a session received is delivered to the client twice. |
| `EndToEnd.NoCrossDelivery` | client/src/relay/request.rs:54-71 | If an association's id was not repeated on the connection, a packet delivered to it came through a session that has sent that association's packets only. |
| `ServerView.ServerRunIsRun` | server/src/connection/mod.rs:40-97 | Every run of client, server and network, seen from the server, is a run of the server. |
| `EndToEndRuns.WholePacketEntersIff` | client/src/relay/task.rs:43-76 | In every run a client packet that arrived whole and whose task has ended is in a session for its association's id exactly if the gate was not closed to it, no bind failed for it and its session had not ended. |
| `EndToEnd.CompleteReplyIsDelivered` | client/src/relay/task.rs:95-99 | A reply read to its end is delivered to the association that is live under its id, and to nobody if there is none. |
| `EndToEnd.ConnectSoundness` | client/src/relay/task.rs:8-41 | In every run a stream is handed to SOCKS5 only if it belongs to a Connect of the client and the server connected to the first reachable address for it. |
| `ClientRecords.HandedIff` | client/src/relay/task.rs:15-36 | In every run a stream is handed to SOCKS5 exactly if a whole Response was read on it while the server was connected for it. |
| `ClientRecords.TakenIsSentWhenEmitted` | client/src/relay/request.rs:60-67 | In every run the client's record holds the packets that associations took, in order, and each is on the connection exactly if its task has sent it; what is on the connection is what was said, in order. |
| `ClientRecords.ClosedHearsNothing` | client/src/relay/request.rs:54-71 | In every run nothing is delivered to an association once its packet loop has ended. |
| `ClientRecords.HearsIff` | client/src/relay/request.rs:54-71 | In every run replies for an id go to an association exactly if it was made for the id and no association with the id was made or ended since. |
| `ClientRecords.UnrepeatedHearsIffOpen` | client/src/relay/request.rs:54-71 | In every run an association whose id was not repeated hears replies exactly while its packet loop runs. |
| `EndToEndRuns.ClientIsRejectedIff` | server/src/connection/dispatch.rs:9-154 | In every run with a valid token the server closes the connection for something other than a timeout exactly if it has read a stream that was cut inside its command. |
| `EndToEndRuns.ConformingClientIsNeverRejected` | server/src/connection/dispatch.rs:93-149 | In every run with a valid token and uncut streams the server closes the connection for nothing but an authentication timeout. |
| `EndToEndRuns.CutStreamIsRejected` | server/src/connection/dispatch.rs:11 | In both modes there is a run in which a valid client's Authenticate is cut off and the connection closed for it. |
| `EndToEndRuns.LatchIsTheClientsMode` | server/src/connection/udp.rs:28-38 | In every run, whatever the token and the network, the latch is unset or holds the client's relay mode. |
| `EndToEndRuns.RepliesReachTheListener` | client/src/relay/incoming.rs:42-63 | In every run every reply travels on the one kind of channel that the client listens to. |
| `ManagerRuns.FreeMutexMeansConnection` | client/src/relay/connection.rs:41-93 | In every run, while the manager does not hold the lock, the cell holds the newest connection. |
| `ManagerRuns.NoUnwrapFails` | client/src/relay/request.rs:48-50 | Across any number of failed connects and reconnects none of the unwraps of manager, requests and incoming listener fails. |
| `ManagerRuns.RequestUsesNewest` | client/src/relay/request.rs:48-53 | A request that gets the lock uses the newest connection there is. |
| `ManagerRuns.StrongCountMeansRequest` | client/src/relay/request.rs:136-168 | The register's strong count is above one exactly while a request is live or being registered. |
| `ManagerRuns.ParkedManagerIsNotNeeded` | client/src/relay/request.rs:146-177 | A parked manager is registered and has no live request, unless the listener is about to wake it, and that wake makes it runnable. |
| `ManagerRuns.ClosingWakesAll` | client/src/relay/connection.rs:369-389 | The drain after the closed flag is set leaves neither the manager nor the heartbeat parked. |
| `ManagerRuns.ManagerNotStuck` | client/src/relay/connection.rs:43-94 | In every run the manager, unless parked, can go on or waits for a lock that its holder can return; parked on Wait no request is live or its wake comes next, parked on a connection that is open or its wake comes next. |
| `ManagerRuns.ConnectsOnlyForRequest` | client/src/relay/connection.rs:45-50 | In every run, before the first attempt to connect and between any two, the manager has seen the count above one, with a request live or being registered. |
| `ManagerRuns.SleepsBetweenAttempts` | client/src/relay/connection.rs:50-59 | In every run, between an attempt to connect that failed and the next attempt, a sleep has ended. |
| `ManagerRuns.ConnectionsAreSuccesses` | client/src/relay/connection.rs:50-60 | There are as many connections as attempts that succeeded. |
| `ManagerRuns.HeartbeatOutlastsConnection` | client/src/relay/connection.rs:217-220 | In every run the heartbeat of a connection that is open has not stopped. |
| `ManagerRuns.ClosedAndStoppedIff` | client/src/relay/connection.rs:206-228 | In every run a connection is closed exactly if the incoming listener found its end, and its heartbeat has stopped exactly if it was polled after that. |
| `ManagerRuns.ListenerNotStuck` | client/src/relay/incoming.rs:18-73 | In every run the incoming listener can go on unless all announced connections are closed, and a parked heartbeat of a closed connection is woken next. |
| `ManagerRuns.ChainRefinesQueue` | client/src/relay/incoming.rs:133-157 | Every step on the chain of one-shot channels is a step of a first-in first-out queue of connections with at most one entry; none is skipped. |
| `ManagerRuns.AnnouncedOneAtATime` | client/src/relay/connection.rs:67-93 | When a connection is about to be announced, all earlier ones have been read and closed. |
| `Cells.UdpPacketFrom.CompareExchange` | server/src/connection/udp.rs:30 | Swaps exactly if the cell holds the expected value and tells the old one. |
| `Cells.UdpPacketFrom.Accepts` | server/src/connection/udp.rs:28-38 | The atomic cell does what the latch of the transition system does. |
| `Cells.IsAuthenticated.SetAuthenticated` | server/src/connection/authenticate.rs:29-31 | Does to the gate what the authenticating step does, and wakes nobody. |
| `Cells.IsAuthenticated.Wake` | server/src/connection/authenticate.rs:33-37 | The loop wakes all waiters in order and does to list and timer what the wake step does. |
| `Cells.IsAuthenticated.Poll` | server/src/connection/authenticate.rs:43-52 | Its three outcomes are the three moves of a task at the gate and those of the timer, and it registers the waiter exactly when pending. |
| `Cells.UdpSessionMap.Get` | server/src/connection/udp.rs:80-88 | Finds the entry of an id and counts the cloned sender, as the lookup step does. |
| `Cells.UdpSessionMap.Dissociate` | server/src/connection/udp.rs:111-114 | Removes an entry and drops its sender, as the Dissociate step does. |
| `Cells.UdpSessionMap.Insert` | server/src/connection/udp.rs:100-101 | Installs a session and drops the sender of the entry it replaces, as the insert step does. |
| `Cells.UdpSessionMap.Send` | server/src/connection/udp.rs:73-109 | Uninterrupted, the packet goes to the end of the mapped session's queue and the number of senders is as before, or one for a new session; with a full channel it waits with its sender; without a socket it fails and changes nothing; no other session changes. |
| `Cells.TryAddresses` | server/src/connection/task.rs:26-40 | A target is found exactly if some address is reachable, it is the first such, and none after it is tried. |
| `Cells.ConnectServer` | client/src/relay/connection.rs:116-132 | The connection is that of the first address that answers, and otherwise the error is the last one. |
| `Cells.IsClosed.Drain` | client/src/relay/connection.rs:372-374 | The loop wakes all waiters in order and does to list and heartbeat what the wake step does. |
| `Cells.IsClosed.Set` | client/src/relay/connection.rs:369-375 | Sets the flag, wakes all waiters in order and empties the list. |
| `Cells.IsClosed.Poll` | client/src/relay/connection.rs:381-388 | Ready exactly if the flag is set, and does to the connection what the polling steps of manager and heartbeat do. |
| `Cells.Register.Clone` | client/src/relay/request.rs:147-156 | Counts the new holder, takes the parked waker out and wakes the manager as the spawning step does. |
| `Cells.Register.Release` | client/src/relay/request.rs:39-44 | The end of a request gives back its count and leaves the waker alone. |
| `Cells.Register.Poll` | client/src/relay/request.rs:165-176 | Ready and registered as in the manager's polling step. |
| `Streams.Connection.NoActiveStream` | client/src/relay/connection.rs:275-277 | A strong count of one means exactly that no stream half is live. |
| `Streams.Connection.OpenSend` | client/src/relay/connection.rs:230-234 | Opening a stream adds one live half, failing to open adds none, and the count stays one more than the halves. |
| `Streams.Connection.OpenBoth` | client/src/relay/connection.rs:236-244 | Opening a bidirectional stream adds two live halves or none, and the count stays in step. |
| `Streams.Connection.PollIncoming` | client/src/relay/stream.rs:169-178 | The register taken for a poll is given back unless a stream arrives, so the count stays in step. |
| `Streams.Connection.Beat` | client/src/relay/connection.rs:217-226 | At a tick that the loop sees, a heartbeat is attempted exactly if a stream half or a UDP session is live, and it opens one half of its own or none. |
| `Streams.HeartbeatLoop` | client/src/relay/connection.rs:206-228 | Over any sequence of opens, accepts, drops, associations, ticks and ends of beats, until the loop sees the close, the ticks with a heartbeat are exactly those at which the connection is in use. |
| `Streams.HalvesCounted` | client/src/relay/connection.rs:230-244 | Over any possible sequence of events the live halves are one for every stream opened one way or accepted, two for every bidirectional one, less those dropped, and the heartbeat's own while it sends. |
| `Streams.SessionLiveIff` | client/src/relay/connection.rs:331-345 | An association is counted exactly if its last Associate is not followed by a Dissociate. |
| `Streams.TickDecides` | client/src/relay/connection.rs:217-226 | A tick finds the connection in use exactly if more halves were opened than dropped or some association was not dissociated. |
| `Streams.LoopAlways` | client/src/relay/connection.rs:206-228 | The loop is sending exactly from a tick at which it began to the end of that sending, and has ended exactly if it saw the close between two ticks. |
| `Socks5.FrameExceedsDatagram` | client/src/socks5/associate.rs:45-46 | For every address form a TUIC packet is longer than the SOCKS5 datagram it came from by the difference of the two maxima. |
| `Socks5.HeaderLength` | client/src/socks5/associate.rs:45-46 | The header length is that of the header of section 7 of RFC 1928 written field by field; only a 255-byte name attains the maximum. |
| `Socks5.ReceiveParses` | client/src/socks5/associate.rs:82-86 | A datagram cut to the buffer and parsed field by field gives the packet with its payload cut, or an error exactly if the cut is inside the header. |
| `Socks5.ForwardedFits` | client/src/socks5/associate.rs:82-84 | What is forwarded fits the limit loaded before it was received; a datagram within the buffer is forwarded whole, and one that fills it meets the limit exactly. |
| `Socks5.LimitSuffices` | client/src/socks5/associate.rs:105-107 | The subtraction underflows exactly below the constant, and all address forms can be received exactly from max_serialized_len on. |
| `Socks5.Turn` | client/src/socks5/associate.rs:82-101 | One turn forwards an unfragmented datagram and nothing else, and stops the loop on underflow or a cut header. |
| `Socks5.FirstLoop` | client/src/socks5/associate.rs:81-102 | Runs to the first unfragmented datagram and no further, and stops there if the socket cannot be connected. |
| `Socks5.SecondLoop` | client/src/socks5/associate.rs:104-123 | Forwards all unfragmented datagrams after that, up to the first error. |
| `Socks5.Socks5ToRelay` | client/src/socks5/associate.rs:76-124 | The two loops together forward what one loop over all datagrams would, and the socket is connected to the sender of the first unfragmented one; if that fails only the first is forwarded. |

## Left out

- Configuration, certificates, argument parsing and both `main` functions: no hard property.
- server/src/server.rs, client/src/socks5/mod.rs, bind.rs and connect.rs, client/src/relay/address.rs: accept loops and thin adapters.
- quinn, tokio, rustls, BLAKE3, name lookup, copy_bidirectional and the socks5 libraries: steps with any outcome; digests are opaque 32-byte values and tunnelled data is any bytes.
- Forwarding of poll_read and poll_write, Display, logging, numeric error codes.
- Weak memory: steps are sequentially consistent. A poll is one step, except in `SplitPoll` and `SplitWait`, which have one future each, alone.
- The server's own IsClosed future: nothing awaits it; its flag is `Gatekeeper.closed`.
- Congestion control, 0-RTT, cryptography, time: timeouts and ticks may happen at any moment.
- Aliasing between the clones of a connection: the interleaved protocols are on values, and the classes of `Cells` and `Streams` give update in place one object at a time.
- The client over several connections is proved in `ManagerRuns` and a single connection in `EndToEnd`; the two are not composed.
- Associations and Connects of the composed system carry encodable addresses: a SOCKS5 domain has a one-byte length (section 5 of RFC 1928).
- Client messages other than packets may be sent at any time in the composed system, which allows more runs than the code does.
- Looking an association up and putting the packet in its channel is one step on the client; a packet for an association that ends in between counts as delivered.
- The temporary strong count while `Wait` stores its waker.
- Fairness of the asynchronous mutex: waiting requests get it in any order.
- EndToEnd.NoCrossDelivery: only for an id that its connection has not repeated, since ids are random and the code does not check for repetition.
- Socks5.Turn: the library that reads SOCKS5 datagrams is not part of the repository; its header format is taken from section 7 of RFC 1928, and `ReceiveParses` shows what a cut datagram is in that format.
- relay_to_socks5 and the size limit's updates: forwarding without a decision, and a value that the model lets vary freely between datagrams.
