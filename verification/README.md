# cftun: verified model of the tunnel's protocols

cftun carries TCP and UDP over Cloudflare tunnels. This project models its concurrent protocols and
the client/server data path in Dafny 4.11 and proves what they keep, for every schedule and every
input. `dafny verify dfyconfig.toml` checks all of it.

## How it is modelled

Concurrent components are transition systems: a state, the atomic actions of every goroutine, and a
function from a state and an action to the next state, or to nothing when the action is blocked. Each
lock, atomic, flag, channel, map, pool and network operation is one sequentially consistent action; a
select takes any ready case and its default only when none is ready. A run is any sequence of
actions, with any number of goroutines (`Runs.dfy`). Sequential code keeps its own form: classes and
methods over arrays with loops, each proved against a function.

| file | what it models |
|---|---|
| `Runs.dfy`, `Tally.dfy`, `Bytes.dfy` | runs and invariants, totals over goroutines and queues, byte strings |
| `ConnPool.dfy`, `PoolSupply.dfy` | the pool of pre-dialled connections: `Dial`, `preDial`, `Close`; what it supplies |
| `Header.dfy` | the in-band destination header, encoder and decoder |
| `ArgoConn.dfy` | the header-once writer and the message-to-stream reader |
| `Server.dfy` | mode choice, decoding, truncating reads and the relay |
| `Tunnel.dfy` | pool, client and server together, from the client to the destination |
| `Downstream.dfy` | the remote loop, the locked writer and the client's reader together, on the way back |
| `UdpModel.dfy` | the UDP session table with its buffers, queues and goroutines |
| `UdpOwnership.dfy`, `UdpSessions.dfy`, `UdpReplies.dfy` | its invariants: buffers, sessions, replies |
| `UdpResults.dfy`, `UdpOrder.dfy`, `UdpInputs.dfy`, `UdpEnding.dfy` | its guarantees over every run: buffers and queues, the order of replies, the run's inputs and clock, and how sessions end |
| `UdpStarts.dfy`, `UdpStranded.dfy`, `UdpDrops.dfy` | exactly when its unlocked first send is too late, when a table entry is there for ever, and when a datagram is dropped with its buffer |
| `Frames.dfy`, `WsWriter.dfy` | frames of section 5.2 of RFC 6455 and the locked writer that emits them |
| `SafeStream.dfy` | the stream closer |
| `Teardown.dfy`, `Blocking.dfy` | the end of a relay, and exactly when it can be kept from ending |
| `Observable.dfy` | the log fan-out |
| `Allocator.dfy` | the power-of-two buffer allocator |

History variables (what was enqueued, read, announced and so on) are ordinary fields of the states and
influence no step; the results tie them to the actions of the run.

## What came out

- The pool's counter is exact up to the goroutines between a channel operation and its counter
  update, and the branch that closes a surplus connection is dead code.
- A pooled connection whose first chunk has fewer than two bytes is refused by the server: the decoder
  asks for four bytes behind the address where the port takes two (`Header.DecodeInvertsHeader`).
- Messages longer than the server's 32768-byte buffer lose exactly their tail, so the tunnel is
  lossless if and only if every message fits (`Server.LosslessIffFits`).
- The first send into a new UDP session is made without the session's mutex, and can hit a closed
  queue. Measured from the creation of the session, it panics in some run with a given delay if and
  only if the delay exceeds the idle timeout (`UdpStarts.PanicAfterDelayIff`). In a given state it can
  panic before more time passes if and only if the health check has found the session idle or is due
  and would find it idle now (`UdpStarts.FirstSendCanPanicIff`).
- A starter that is even later stores its session after the session's goroutines have deleted the key.
  `UdpStranded.EntryStaysIff` says exactly which entries no goroutine will remove. The late starter's
  own first send is then still outstanding and panics when it is made, so such an entry lasts until
  the process panics; up to then all further datagrams of its source are dropped with their buffers
  (`UdpStranded.StayingEntryDropsAll`).
- A datagram for a session that is flagged as closed is dropped together with its buffer, which never
  returns to the pool (`UdpDrops.LostForEver`). A datagram that a listener has in hand can still be
  sent if and only if its session is not flagged and, before the lock is taken, not about to be
  (`UdpDrops.FoundIsQueuedIff`, `UdpDrops.CheckedIsQueuedIff`).
- A websocket write that breaks off in the middle leaves a partial frame that the next writer does
  not know about; otherwise the receiver reads exactly the written frames
  (`WsWriter.WholeIffNothingBrokeOff`).
- CancelWrite never follows the close made by `Close`, but it can follow the one made by `CloseWrite`:
  while the lock is free, another CancelWrite can come if and only if the stream is not closing
  (`SafeStream.CancelCanComeIff`).
- When the client leaves first, a relay to a silent TCP peer is never torn down: the remote read has no
  deadline, the context is tested only in front of it, and nobody else closes the remote connection
  (`Blocking.SilentPeerIsNeverClosed`). `Blocking.RemoteCanCloseIff` and `Blocking.RemoteCanHangIff`
  say exactly when.
- A client that does not read can keep the relay from ending: no write deadline is set on this path, so
  a write to the client waits while holding the websocket's write lock, closing the websocket waits for
  that lock, and `SafeStreamCloser.Close`, which would set a deadline, comes only after it
  (`Blocking.UnreadWriteDeadlocks`). `Blocking.DoneCanComeIff` and `Blocking.JamCanComeIff` say exactly
  when; `Blocking.WebsocketCanEndIff` adds the case of a client that does not send. The comment at
  server/cfd/stream.go:223 relies on that deadline, which is not reached here.
- The allocator's comment speaks of frames of less than 65536 bytes; the code serves 65536 as well,
  and so does the model.

## Model

| member | source | states |
|---|---|---|
| `ConnPool.CounterIsExact` | client/tun/transport/argo/dialer.go:79-150 | in every interleaving connCount is the pool plus unsettled takers minus the unsettled publisher plus what Close drained, within [-1, PoolSize], and the 32-bit counter never wraps |
| `ConnPool.PoolIsNeverFullAtSend` | client/tun/transport/argo/dialer.go:100-106 | the default branch that closes a connection because the pool is full is never enabled |
| `ConnPool.EveryConnectionIsInOnePlace` | client/tun/transport/argo/dialer.go:79-150 | every opened connection occurs exactly once among pool, goroutines, callers, Close and the closed ones, and nothing else occurs |
| `ConnPool.HandedOutOnce` | client/tun/transport/argo/dialer.go:79-150 | a connection returned by a Dial stays that caller's alone in every continuation: never pooled, closed by the pool or handed out again |
| `ConnPool.HeaderSentTellsTheMode` | client/tun/transport/argo/dialer.go:110-150 | headerSent is true exactly for connections that were dialled with the Dial's own metadata, false for those that announced nothing |
| `ConnPool.EveryReturnStartsAPreDial` | client/tun/transport/argo/dialer.go:136-150 | there are as many preDial goroutines as finished Dials, successful or not |
| `ConnPool.QuietAfterStop` | client/tun/transport/argo/dialer.go:79-150 | after the stop channel is closed no Dial decides to connect, so at most the Dials that had decided still do; at most one preDial still connects, and at most one more connection enters the pool |
| `PoolSupply.PoolRefills` | client/tun/transport/argo/dialer.go:85-108 | while the pool is open and its connections can be made, it holds, whenever all goroutines have finished, one connection for each Dial that was not served from it, up to PoolSize |
| `PoolSupply.EveryCallCanFinish` | client/tun/transport/argo/dialer.go:85-150 | from every reachable state, also after Close, all Dials and preDials can finish |
| `PoolSupply.OldestFirst` | client/tun/transport/argo/dialer.go:79-150 | connections leave the pool in the order in which they were made |
| `PoolSupply.OutcomesAreExact` | client/tun/transport/argo/dialer.go:121-150 | there are as many connections as successful connects, and as many failed Dials as refusals by the network or the closed pool |
| `PoolSupply.OpenPoolRefusesNothing` | client/tun/transport/argo/dialer.go:138-141 | no Dial is refused by the pool unless Close was called |
| `PoolSupply.DialTakesWhatIsReady` | client/tun/transport/argo/dialer.go:138-149 | a Dial is refused only after Close, served from the pool only if it has a connection, and connects by itself exactly if neither is the case |
| `PoolSupply.NetworkMayAnswer` | client/tun/transport/argo/dialer.go:121-149 | the network can accept or refuse every connection being made, and the call then has one exactly if it was accepted |
| `PoolSupply.ClosedPoolDrains` | client/tun/transport/argo/dialer.go:78-83 | after Close all calls can finish and every pooled connection can be closed |
| `Header.ParseHeader` | client/tun/proxy/argo.go:84-100 | the in-place fill produces version, protocol, address bytes and big-endian port, zero-padded, in 8 or 20 bytes |
| `Header.DecodePacket` | server/cfd/packet.go:42-79 | the stepwise decoder computes `Decode`, with the error of each failing length test |
| `Header.DecodeInvertsHeader` | server/cfd/packet.go:42-79 | for every destination with matching version the header decodes to the same version, protocol, address, port and payload exactly when the payload has two bytes or more, and to "missing port fields" otherwise |
| `Header.TruncatedAnnouncement` | server/cfd/packet.go:42-79 | an announcement cut at any point is answered with the error that tells how far it got, and accepted from two payload bytes on |
| `Header.UnsupportedIff` | server/cfd/packet.go:47-66 | exactly the inputs of two bytes or more that start with neither 4 nor 6 are refused as unsupported |
| `Header.AnnouncementLayout` | client/tun/proxy/argo.go:84-100 | version, protocol, address and port are where the decoder looks, the port with its high byte first |
| `Header.HeaderInvertsDecode` | server/cfd/packet.go:42-79 | every accepted byte string is the header of the decoded destination followed by the payload |
| `Header.NoAddressIsMisread` | client/tun/proxy/argo.go:84-107 | without a valid address the announcement is refused, or read as an address made of port, padding and payload, exactly from 14 payload bytes on |
| `ArgoConn.ArgoConn.constructor` | client/tun/proxy/argo.go:33-50 | wrapping a pooled connection prepares the header and has sent nothing |
| `ArgoConn.ArgoConn.AddHeader` | client/tun/proxy/argo.go:102-107 | the buffer is the header followed by the chunk |
| `ArgoConn.ArgoConn.Write` | client/tun/proxy/argo.go:68-82 | one message per call, with the header in front until the first call, whose length is not counted in n; a refused message sends nothing |
| `ArgoConn.HeaderGoesOutOnce` | client/tun/proxy/argo.go:68-82 | over any calls the header precedes the first chunk and nothing else, and is never sent if that message is refused |
| `ArgoConn.GorillaConn.Read` | client/tun/transport/argo/connection.go:38-56 | fills the caller's buffer from the leftover bytes or else from one new message, keeps what does not fit, and leaves the rest of the buffer alone |
| `ArgoConn.StreamIsConserved` | client/tun/transport/argo/connection.go:38-56 | for any messages and read sizes, bytes delivered ++ readBuf ++ unread messages is the concatenation of all messages |
| `ArgoConn.ReadMakesProgress` | client/tun/transport/argo/connection.go:38-56 | a read with room consumes a message or shrinks the leftover |
| `ArgoConn.ReadIsGreedy` | client/tun/transport/argo/connection.go:38-56 | a read stops short of its buffer only at the end of a message, and begins a message only when the one before is used up |
| `ArgoConn.ReadsDrain` | client/tun/transport/argo/connection.go:38-56 | enough reads with room hand out every byte of every message |
| `Server.Search` | server/cfd/stream.go:106-122 | the value of the first field with the key, or the empty string if there is none |
| `Server.HalfAnnouncedIsInBand` | server/cfd/connection.go:114-124 | a request that lacks one of the two headers is served in-band |
| `Server.HandleConn` | server/cfd/connection.go:136-193 | the loop over one reused buffer dials and relays as the turn-by-turn function says, in both modes, with a context test, a failed or a short write at any turn |
| `Server.HandleQuicStream` | server/cfd/connection.go:98-134 | two searches choose the mode, and the connection is then served from the start state of that mode |
| `Server.PooledEndToEnd` | server/cfd/connection.go:136-193 | on a pooled connection the server dials the metadata's protocol, address and port; however writes fail or the stream ends, what it has written is a prefix of the chunks cut to the buffer, and all of them if nothing failed; it ends without dialling if the first chunk has fewer than two bytes |
| `Server.RelayOutcome` | server/cfd/connection.go:166-191 | if turn k is the first in which the context is done or the write fails or is short, the relay has written everything before it and what that write took, and is over |
| `Server.HeaderModeOutcome` | server/cfd/connection.go:114-134 | the same from the start of a connection in header mode |
| `Server.PooledOutcome` | server/cfd/connection.go:139-191 | the same from the start of a pooled connection, whose first write is not preceded by a context test |
| `Server.RefusedMeansNothing` | server/cfd/connection.go:118-153 | an unreachable destination or an undecodable first message ends the connection with nothing dialled or written |
| `Server.LosslessIffFits` | server/cfd/websocket.go:89-95 | what arrives equals what was sent if and only if every message, header included, fits 32768 bytes |
| `Server.EveryStepIsAPrefix` | server/cfd/connection.go:166-191 | after any number of messages that fit, with no write failing, the remote has exactly their chunks, a prefix of the client's bytes, and all of them at the end |
| `Tunnel.NamesAgree` | client/tun/metadata/network.go:15-26 | client and server name a protocol alike exactly for ICMP, TCP and UDP |
| `Tunnel.AcceptSeesTheMode` | server/cfd/stream.go:25-48 | the server takes header mode exactly for dials with metadata, and then names the same target as the in-band header exactly for known protocols |
| `Tunnel.EveryDialReachesItsDestination` | server/cfd/connection.go:98-134 | for every pool interleaving, finished Dial and chunks, client and server agree on the mode, the server dials that Dial's destination, and what it has written is a prefix of the chunks, all of them if no write failed |
| `Downstream.WritesAreAByteStream` | server/cfd/websocket.go:97-111 | for every interleaving of the server's writers without a broken write, the client's reads of any sizes hand out the written payloads in order, losing nothing |
| `Downstream.DownstreamIsAByteStream` | server/cfd/connection.go:195-244 | for every interleaving of the remote loop with pings and closes without a broken write, what the client has been handed plus what is to come is what the run's remote reads returned, except for the last chunk while its write is under way or if it was refused |
| `Downstream.LoopStopsForAReason` | server/cfd/connection.go:219-243 | the loop goes on after every successful write: it ends otherwise only when its context ends or its read fails |
| `UdpResults.EveryBufferHasOneHolder` | client/udp.go:74-142 | in every reachable state each buffer has exactly one holder, which finds in it the datagram it expects |
| `UdpResults.PooledBuffersAreUnused` | client/udp.go:114-142 | a pooled buffer is in the pool once and referred to by no goroutine or queue: no second Put, no use after Put |
| `UdpResults.QueuedPacketsAreIntact` | client/udp.go:90-95 | a queued packet's buffer still contains the datagram read into it |
| `UdpResults.OrderAndIsolation` | client/udp.go:74-126 | written ++ in hand ++ queued equals the enqueue history byte for byte, all of it from the session's own source and listener |
| `UdpResults.RepliesGoHome` | client/udp.go:129-142 | every datagram sent to a client was read on a session of that address and listener |
| `UdpResults.RepliesAreConserved` | client/udp.go:190-210 | each reply read is held, queued, with a worker or sent, as often as it was read |
| `UdpOrder.RepliesLeaveInOrder` | client/udp.go:129-142 | for any number of workers, a session's replies that were taken from the outbound queue, are queued and are about to be pushed are, in this order, what it read |
| `UdpOrder.OneWorkerSendsInOrder` | client/udp.go:129-142 | with one worker the client is sent a session's replies in the order in which they were read, byte for byte |
| `UdpInputs.ReadIsWhatWasSent` | client/udp.go:190-209 | what a session has read is what its remote end has sent, in order, each datagram cut to 65536 bytes |
| `UdpInputs.ReceivedAreAccounted` | client/udp.go:74-109 | each datagram received from a client is in a listener's or starter's hand, was queued, or was given up, as often as it was received |
| `UdpInputs.GivenUpForAReason` | client/udp.go:86-102 | datagrams are given up only with a lost buffer or because their session could not be opened |
| `UdpInputs.SendersWaitIffFull` | client/udp.go:90-95 | the queues hold 1024 and 65536 datagrams, and their senders wait exactly while they are full |
| `UdpInputs.StampIsLastRead` | client/udp.go:190-200 | the time the health check compares with is that at which the remote loop last began a read, and the clock is the sum of the run's ticks |
| `UdpInputs.SessionsStartNow` | client/udp.go:144-167 | a session is created and first stamped when its connection is made, for the source and listener of its datagram, with a timeout of the configured seconds, or 30 if there are none |
| `UdpInputs.PollsAreSpaced` | client/udp.go:174-188 | polls of a session are at least one timeout apart |
| `UdpInputs.LastStoreIsFound` | client/udp.go:83-104 | the session stored last under a key is the one a listener finds |
| `UdpEnding.EverySessionCanEnd` | client/udp.go:115-210 | from every reachable state a session can end, all its goroutines returned and every queued datagram written |
| `UdpEnding.NetworkCallsCanReturn` | client/udp.go:74-204 | in every reachable state every blocked read can return any datagram or an error, the opening of a session can succeed or fail, and any pooled buffer can be used again |
| `UdpResults.ClosedQueuesAreFlagged` | client/udp.go:169-200 | a closed queue implies the closed flag, a finished health check and an elapsed idle timeout; the remote loop ends only on the flag |
| `UdpResults.SessionsOnlyAdvance` | client/udp.go:174-210 | along every run flags never reset, histories only grow, and sessions keep address, listener and timeout |
| `UdpResults.OnlyALateFirstSendPanics` | client/udp.go:83-109 | no queue is closed twice, the locked send never hits a closed queue, and the unlocked first send does so only past the idle deadline |
| `UdpStarts.PanicAfterDelayIff` | client/udp.go:98-109 | for every configuration, listener, source, datagram and delay: a run in which that first send panics that long after its session was created exists if and only if the delay exceeds the listener's idle timeout |
| `UdpStarts.FirstSendCanPanicIff` | client/udp.go:98-188 | in every reachable state with a first send outstanding, it can panic before time passes if and only if the health check is reaping, or is due and the last remote read is more than the timeout ago, whoever has the mutex and however full the queue is |
| `UdpResults.TableLeadsHome` | client/udp.go:83-104 | a key leads to a session of that key; one whose goroutine has deleted the key is there only if it was stored afterwards |
| `UdpStranded.EntryStaysIff` | client/udp.go:83-210 | in every reachable state an entry stays in the table in every continuation if and only if every session of its key has an ended health check and a remote loop that will not read again, and no starter is about to open one |
| `UdpStranded.StayingEntryDropsAll` | client/udp.go:83-104 | under that condition, in every continuation no session gets another datagram of that source, listeners drop them and lose the buffers, and the panicking first send stays outstanding |
| `UdpStranded.StoreAfterEndIsReachable` | client/udp.go:98-104 | for every configuration, listener, source and datagram a run leads to such an entry, stored after the health check and the remote loop have deleted the key and ended |
| `UdpDrops.LostForEver` | client/udp.go:83-89 | the lost buffers only become more, and a lost one is in every continuation neither in the pool nor with any goroutine or queue |
| `UdpDrops.FoundIsQueuedIff` | client/udp.go:83-97 | in every reachable state the datagram of a listener that has found its session can still be queued if and only if the session is neither flagged nor about to be; otherwise every continuation past the check has lost the buffer |
| `UdpDrops.CheckedIsQueuedIff` | client/udp.go:86-97 | the same for a listener that holds the mutex: if and only if the session is not flagged |
| `UdpDrops.FirstSendIsQueuedIff` | client/udp.go:103-108 | the datagram of a starter can still be queued if and only if the queue is not closed |
| `UdpDrops.BufferLossIsReachable` | client/udp.go:86-89 | for every configuration, listener, source and datagrams a run loses a buffer |
| `UdpResults.IdleSessionsAreReapedInTime` | client/udp.go:150-188 | with exact sleeps and a first poll within T, a poll reaps exactly when the time is in (L+T, L+2T], and no session goes unreaped past L+2T |
| `Frames.ParseInvertsEncode` | server/cfd/websocket.go:97-111 | a frame of any length class is read back, whatever follows it |
| `Frames.PartialFrameIsNotRead` | server/cfd/websocket.go:97-111 | no proper prefix of a frame is taken for a frame |
| `Frames.WireFormat` | server/cfd/websocket.go:97-111 | FIN bit and opcode, the length in the shortest of three forms, then the payload |
| `WsWriter.WireIsWholePieces` | server/cfd/websocket.go:44-53 | in every interleaving the wire is what each finished call left, one after the other, plus the lock holder's part of its own frame |
| `WsWriter.WholeIffNothingBrokeOff` | server/cfd/websocket.go:97-111 | the finished calls left only whole frames if and only if no write broke off in the middle of one |
| `WsWriter.BrokenWriteTearsAFrame` | server/cfd/websocket.go:106-108 | a concrete run leaves a partial frame that nobody owns |
| `WsWriter.ReceiverReadsTheFrames` | server/cfd/websocket.go:44-111 | without a broken write a receiver parses exactly the finished frames, in lock order, and the rest is the holder's partial frame |
| `WsWriter.SuccessMeansSent` | server/cfd/websocket.go:44-111 | for every frame, as many calls report success as whole copies of it are on the wire |
| `WsWriter.SilentAfterClose` | server/cfd/websocket.go:82-111 | once any Close has returned, no continuation changes the wire |
| `WsWriter.FailuresHaveACause` | server/cfd/websocket.go:44-111 | before a Close, as many calls fail as the stream refuses or breaks off |
| `WsWriter.StreamMayFail` | server/cfd/websocket.go:97-111 | the stream can fail any call that is emitting, before the first byte or in the middle, and the call then reports failure |
| `WsWriter.EveryCallCanReturn` | server/cfd/websocket.go:44-111 | from every reachable state all calls can return |
| `WsWriter.CallsOnTheWire` | server/cfd/websocket.go:44-53 | a ping is the two bytes 89 00, a write a frame with opcode 2 |
| `SafeStream.StreamCallsNeverOverlap` | server/cfd/stream.go:180-236 | at most one goroutine is inside stream.Write, CancelWrite or stream.Close |
| `SafeStream.NoCancelAfterClose` | server/cfd/stream.go:197-230 | in the log of stream events no CancelWrite follows a close made by Close |
| `SafeStream.CloseWriteDoesNotStopCancel` | server/cfd/stream.go:197-236 | from every idle state that is not closing, with the two calls about to start, a CancelWrite follows a close made by CloseWrite in the given run |
| `SafeStream.CancelCanComeIff` | server/cfd/stream.go:180-236 | from a reachable state some continuation issues another CancelWrite if and only if the stream is not closing or a Write has already passed the test of the flag; with the lock free, if and only if it is not closing |
| `SafeStream.OnlyTimeoutsCancel` | server/cfd/stream.go:197-213 | there are at most as many CancelWrites as writes that timed out |
| `SafeStream.EveryCallDoesItsWork` | server/cfd/stream.go:180-236 | every call has done its stream operations exactly once before it returns: the write, the cancelled read side and the close, or the half close |
| `SafeStream.EveryCallCanReturn` | server/cfd/stream.go:180-236 | from every reachable state all calls can return |
| `Teardown.RemoteSideWindsDown` | server/cfd/connection.go:195-244 | once the websocket is done nothing more is written to it, by the remote side or the pinger; the remote side completes at most one more read, takes at most seven more steps, and has closed the remote once exactly when it has ended |
| `Blocking.OuterBlockedIff` | server/cfd/connection.go:208-241 | no step of the remote side is possible if and only if it has ended, is in the read of a TCP connection whose peer has neither sent nor ended, is in a write the client has no room for, or waits for the lock while the pinger has it |
| `Blocking.InnerBlockedIff` | server/cfd/connection.go:127-193 | no step of the websocket side is possible if and only if it has ended, waits for a message, is in a write the TCP peer has no room for, or waits for the lock |
| `Blocking.RemoteCanCloseIff` | server/cfd/connection.go:195-244 | in every reachable state, if the peer does nothing, some continuation closes the remote if and only if the remote side is not past the context test of a read that nothing ends |
| `Blocking.RemoteCanHangIff` | server/cfd/connection.go:195-244 | and some continuation blocks for ever with the remote open if and only if such a read lies ahead, directly or because the loop goes on, and no context test in front of it must fail |
| `Blocking.SilentPeerIsNeverClosed` | server/cfd/connection.go:208-229 | a concrete run: the client leaves, its side ends, and the remote connection stays open for as long as the TCP peer is silent |
| `Blocking.DoneCanComeIff` | server/cfd/websocket.go:82-111 | in every reachable state, if the client makes no room and the stream does not end, the websocket can still be marked done if and only if it already is or nobody holds the write lock inside a write that waits for room |
| `Blocking.JamCanComeIff` | server/cfd/websocket.go:44-111 | and such a wait can still come if and only if the websocket is not done, the stream has not ended, and the pinger is there to write, or the remote loop is and its peer may still send or has sent more than the client has room for |
| `Blocking.UnreadWriteDeadlocks` | server/cfd/connection.go:127-134 | a concrete run after which both sides wait, the websocket is not done and the remote is open, for as long as the client makes no room |
| `Teardown.WebsocketSideWindsDown` | server/cfd/connection.go:164-193 | once the remote is closed the websocket side completes at most one more read, takes at most six more steps, and the remote is not closed again |
| `Blocking.WebsocketCanEndIff` | server/cfd/connection.go:166-193 | in every reachable state, if the client does nothing, the websocket side can still end if and only if it is not in or directly before a read that nothing ends, and nobody holds the write lock inside a write that waits for room |
| `Teardown.CloseOrder` | server/cfd/connection.go:127-134 | a side is gone only after the pinger's context was cancelled and the websocket marked done |
| `Teardown.RelayGoesOn` | server/cfd/connection.go:164-244 | as long as no operation fails and the stream does not end, both loops and the pinger go on |
| `Teardown.FailureEndsTheLoop` | server/cfd/connection.go:164-244 | a failed operation ends its side's loop for good |
| `Teardown.PingerEndsForAReason` | server/cfd/websocket.go:55-80 | the pinger outlives failed pings, ends only on its context or once the websocket is done, and can end once the context is cancelled |
| `Observable.NeverPanics` | log/observable.go:15-56 | no send on a closed channel and no second close, in every run and fan-out order |
| `Observable.SubscribersSeeTheirItems` | log/observable.go:15-56 | consumed ++ buffered is, in order, the emitted items taken up while subscribed, up to the one not yet fanned out to it |
| `Observable.SubscriptionStarts` | log/observable.go:36-45 | a subscription before the shutdown gets the emitted items from the next one taken up on |
| `Observable.UnsubscribingEnds` | log/observable.go:47-56 | leaving closes the channel, and nothing more is sent |
| `Observable.FanOutWaitsIffFull` | log/subscriber.go:14-33 | a channel holds 200 items, and the fan-out waits for a subscriber exactly while its channel is full |
| `Observable.CanAlwaysShutDown` | log/observable.go:15-34 | from every reachable state the observable can shut down, provided its subscribers read |
| `Observable.ShutdownClosesEveryChannel` | log/observable.go:26-34 | after shutdown every subscriber's channel is closed |
| `Allocator.ClassIsLeast` | client/tun/buffer/allocator/allocator.go:31-43 | for sizes 1..65536 the index is in range and the capacity is the least power of two that suffices, below twice the size |
| `Allocator.AcceptsPowersOfTwo` | client/tun/buffer/allocator/allocator.go:45-55 | a buffer is accepted exactly when its capacity is 2^k with k at most 16 |
| `Allocator.PutUndoesGet` | client/tun/buffer/allocator/allocator.go:31-55 | a buffer goes back to the class it was taken from |
| `Allocator.Allocator.Get` | client/tun/buffer/allocator/allocator.go:32-43 | nil exactly outside 1..65536; otherwise a buffer of the right class resliced to the size, taken as exactly one out of the multiset of its class, or new; other classes unchanged |
| `Allocator.Allocator.Put` | client/tun/buffer/allocator/allocator.go:47-55 | adds exactly the buffer to the multiset of the class of its capacity, or changes nothing and fails |
| `Allocator.EveryGetFits` | client/tun/internal/pool/pool.go:20-38 | after any sequence of Get, Put of own or foreign buffers, and garbage collection, class k holds only capacity 2^k and every reslice is in bounds |
| `Allocator.NoBufferIsSharedTwice` | client/tun/internal/pool/pool.go:31-38 | as long as callers put back only what they hold, every storage occurs at most once among all pools and all callers |

## Left out

- Update in place of the concurrent components: `Websocket`, `Connector`, `Conn`, `SafeStreamCloser` and `Observable` are states of transition systems, not heap objects; what is not captured is aliasing of the objects themselves.
- Server.HandleConn: `DialWithRetry` is a predicate on destinations, and failing websocket reads are the end of the turns.
- Tunnel.EveryDialReachesItsDestination: assumes that the edge passes the two Forward headers on unchanged, and compares destinations by protocol name, address bytes and port instead of formatted text.
- UdpResults.IdleSessionsAreReapedInTime: the time of a reaping is that of the poll that finds the session idle; waiting for the mutex comes on top.
- UdpResults.OrderAndIsolation: `written` are the datagrams handed to the remote connection's Write, whose errors the code ignores.
- WsWriter.SilentAfterClose: covers Write, ping and Close; pong handling in the pinger and control replies inside the websocket library are taken to write nothing.
- Teardown.RemoteSideWindsDown: starts when both loops run; failures before that, and how long the deadline of a UDP remote is, are not modelled. Room for a write is counted in whole writes; TCP keep-alive counts as the peer breaking, and loss of the QUIC connection as the client ending and breaking.
- The write timeout of `SafeStreamCloser`, which no caller sets: its lock is held for as long as a write takes, and only `Close` sets a deadline.
- `nopCloserReadWriter`, `WebsocketKey` and the websocket accept key: easy members.
- The relay of client/tcp.go, which may send messages above the server's buffer size; the size bound appears as `Server.Fits` instead.
- Weak memory: the flags that client/udp.go reads and writes without the mutex are sequentially consistent here.
- Fairness and real clocks: nothing is claimed about when a step happens beyond the prompt scheduler named above.
- Duration overflow of very large configured UDP timeouts.
- gVisor stack, TUN devices, routes, socket options, QUIC and TLS dialling, Cap'n Proto, WARP, quick tunnels, tokens and configuration: calls into libraries and the system with little logic of their own.
