# Verification of the unix domain stream engine

This project models the asynchronous connection engine of the library and proves what its
design promises, over every interleaving of its two threads. `dafny verify dfyconfig.toml`
checks all of it.

## How the program is modelled

The engine runs on two threads, the dispatcher and one I/O thread, which exchange work through
two FIFO queues; every handler is atomic. Each layer appears twice: as *values*, a state with
pure handlers and a `Step` function over events, about which all theorems are proved; and as
*classes* whose methods update their fields in place, each proved to have exactly the effect of
the model's handler (`View() == Apply(old(View()), handler)`), so that every theorem about the
model is one about the class.

| file | layer |
|---|---|
| `Common.dfy`, `Queues.dfy` | shared vocabulary; facts about FIFO queues and debounced timers |
| `Protocol.dfy` | the frame encoders and decoders, on bit vectors and byte arrays |
| `PeerModel.dfy`, `PeerFraming.dfy`, `PeerProofs.dfy`, `PeerEffects.dfy`, `Peer.dfy` | one connection end: reader, write queue, readiness, close |
| `Link.dfy`, `LinkProgress.dfy` | two ends and the bytes between them |
| `Requests.dfy`, `RequestRuns.dfy`, `RequestManager.dfy` | request bookkeeping |
| `SocketPaths.dfy`, `Runtime.dfy` | the process-wide socket path owner table, for any number of servers |
| `NotificationScope.dfy` | session tokens |
| `ClientModel.dfy`, `ClientProofs.dfy`, `ClientProgress.dfy`, `ClientOrder.dfy`, `ClientTheorems.dfy`, `ClientDelivery.dfy`, `ClientSessions.dfy`, `ClientSettles.dfy`, `ClientAnswers.dfy`, `ClientEndings.dfy`, `ClientOperations.dfy`, `ClientService.dfy`, `ClientState.dfy` | the client's session layer |
| `ServerModel.dfy`, `ServerProofs.dfy`, `ServerProgress.dfy`, `ServerChecks.dfy`, `ServerProbes.dfy`, `ServerPeers.dfy`, `ServerLifecycle.dfy`, `ServerNarrative.dfy`, `ServerDelivery.dfy`, `ServerTheorems.dfy`, `ServerSettles.dfy`, `ServerLateReady.dfy`, `ServerAnswers.dfy`, `ServerEndings.dfy`, `ServerHealth.dfy`, `ServerOperations.dfy`, `ServerService.dfy`, `ServerState.dfy` | the server's session layer |
| `PeerSignals.dfy` | what the server assumes of its peers, discharged from the peer model |

A run is a sequence of *events* in any order: calls of the user, the head of either queue,
and completions of outstanding operations (connects, accepts, reads, writes, timers). What the
outside decides is a parameter of the event: whether an operation succeeds, the bytes of a
chunk, the verdict of `verify_peer`, whether an endpoint can be made, the order in which a hash
map is iterated. A completion that was already queued as successful may still run after its
operation was cancelled or its socket closed; a cancelled I/O timer may still fire.

A session-layer handler is a function from the fields to an `Effect`: the new fields and the
tasks appended to the two queues. The proofs follow that shape: one small lemma says what a
handler's effect may be, another lifts it over the queues, and `StepKeepsClientInvariant` /
`StepKeepsServerInvariant` collect them.

Histories (what was told, emitted, responded, accepted, sent, captured) are part of the state, so
that the theorems can speak of whole runs.

The theorems are of three kinds. *Safety* over every run: nothing is told, delivered or called back
that should not be, or out of order. *Completeness* over every run: whatever was queued, emitted,
asked for or failed has had its effect once the queues are empty (`ServerEndsAsLastCalled`,
`FailedCheckIsMended`, `QueuedEndCallsBack`, `ClientDropsNothing`). And *possibility* from every
reachable state: nothing that happened before can keep the engine from doing its work
(`EverythingCanBeDelivered`, `ClientCanAlwaysConnect`, `ServerCanAlwaysServe`).

### Assumptions

Queues are FIFO. There is one I/O thread. Request ids, peer ids and generations do not wrap.
`max_message_size + 9` fits in `size_t`. Within one handler a socket path resolves to one
place; between handlers it may resolve to another.

### Where the code does not do what is said of it

* The comment at `impl/notification_scope.hpp:21-25` says that stopping or invalidating discards
  every queued notification of the previous session, failures and closes included. The client's
  request-timeout `closed` escapes: it is enqueued under the token captured when the request was
  *sent* (`client.hpp:534-545`), which can be newer than the connection's.
  `ClosedCanCrossSessions` gives the run. `OnlyClosedCrosses` shows that no other note ever
  crosses, `connect_failed` and `peer_verification_failed` included. Over all runs the promise is
  kept if and only if `invalidate_connection_on_request_error` is off
  (`PromiseKeptExactlyWithoutOption`). With the option on, a run whose requests are all sent while
  their connection's session is current keeps it (`GuardedRunsStayInSession`), and from every
  reachable state about to send one on a connection of an earlier session, stopped or running and
  whatever is queued, some continuation breaks it (`UnguardedSendCrosses`,
  `CrossesExactlyWithOption`).
* `peer_connected` need not be matched by `peer_closed`, in two ways. The ready deadline may fire
  after the socket closed (`impl/peer.hpp:148-166`; the run is in
  `PeerConnectedWithoutPeerClosed`). And a local close may overtake the verification of a peer
  that was ready before it: `async_close`'s completion (`server.hpp:706-710`) enqueues its
  notification ahead of the verify task (`server.hpp:380-389`), and the peer's own queued `closed`
  goes with the destroyed peer (the run is in `LocalCloseOvertakesVerification`). For every peer of
  the running session that was not refused, closed by either side, `peer_closed` is told if and
  only if the server's dispatcher handled a close after a ready (`PeerClosedExactly`). What a
  caller can rely on is `ClosedAfterConnectedIsTold`: a peer closed after its `peer_connected` was
  told always gets its `peer_closed`, unless the session is stopped before the queues drain.
  `PeerClosedExactlyWhenReadyFirst` gives the condition in the peer's own terms, ready before
  closing, and holds for peers that were not closed locally only.

## Model

| member | source | states |
|---|---|---|
| Protocol.EncodeUint32 | include/pqrs/unix_domain_stream/impl/protocol.hpp:28-34 | The four bytes written into the array are the big-endian digits of the value. |
| Protocol.EncodeUint64 | include/pqrs/unix_domain_stream/impl/protocol.hpp:43-53 | The eight bytes written into the array are the big-endian digits of the value. |
| Protocol.DecodeUint32IsBigEndian | include/pqrs/unix_domain_stream/impl/protocol.hpp:36-41 | The shift/or decoder computes the base-256 value of the bytes, for every header. |
| Protocol.DecodeUint64IsBigEndian | include/pqrs/unix_domain_stream/impl/protocol.hpp:55-65 | The 64-bit shift/or decoder computes the base-256 value of the bytes, for every eight bytes anywhere in a buffer. |
| Protocol.BytesOfUint64Value | include/pqrs/unix_domain_stream/impl/protocol.hpp:43-53 | The eight bytes of a request id have its value in base 256. |
| Protocol.Uint32RoundTrip | include/pqrs/unix_domain_stream/impl/protocol.hpp:28-41 | Encoding and decoding are inverse both ways. |
| Protocol.Uint64RoundTrip | include/pqrs/unix_domain_stream/impl/protocol.hpp:43-65 | A request id encoded anywhere in a buffer is decoded from there unchanged. |
| Protocol.Truncate32Value | include/pqrs/unix_domain_stream/impl/protocol.hpp:70-73 | The cast of a body size to 32 bits keeps it modulo 2^32. |
| Protocol.MakeFrame | include/pqrs/unix_domain_stream/impl/protocol.hpp:67-85 | The assembled vector is header, type byte and payload. |
| Protocol.MakeRequestResponseFrame | include/pqrs/unix_domain_stream/impl/protocol.hpp:93-112 | The assembled vector is the frame of the request id followed by the payload. |
| Protocol.HeaderOfFrame | include/pqrs/unix_domain_stream/impl/protocol.hpp:67-85 | The header of a built frame announces its body size modulo 2^32, and the type byte follows it. |
| PeerFraming.UserDataGateIsExact | include/pqrs/unix_domain_stream/impl/peer.hpp:341-372 | A user-data frame may leave if and only if its payload is within the limit and its size did not wrap. |
| PeerFraming.RequestGateIsExact | include/pqrs/unix_domain_stream/impl/peer.hpp:341-372 | The same, exactly, for requests and responses. |
| PeerFraming.GateAgreesWithReceiver | include/pqrs/unix_domain_stream/impl/peer.hpp:200-205 | Every frame that may leave passes the receiver's size checks under the same limit, and stops the reader only if it is a health check. |
| PeerFraming.MessageFrameParses | include/pqrs/unix_domain_stream/impl/peer.hpp:235-305 | A sendable message's frame is read back as that very message: type, request id and payload. |
| PeerFraming.ParseInvertsEncode | include/pqrs/unix_domain_stream/impl/peer.hpp:170-307 | Parsing the concatenated frames of any messages yields exactly those messages. |
| PeerFraming.ParseMonotone | include/pqrs/unix_domain_stream/impl/peer.hpp:170-307 | More bytes never take back or change a message, so chunking cannot matter. |
| PeerFraming.ParseAfterClean | include/pqrs/unix_domain_stream/impl/peer.hpp:170-307 | Parsing distributes over any point between two frames. |
| PeerFraming.ParseConcat | include/pqrs/unix_domain_stream/impl/peer.hpp:170-307 | The stream of any accepted frames parses to the messages of those frames, up to a health check. |
| PeerFraming.MessagesOfFrames | include/pqrs/unix_domain_stream/impl/protocol.hpp:67-135 | Frames built from what was given carry exactly the given messages, in order, whatever heartbeats and health-check answers lie between them, up to a health check. |
| PeerProofs.StepKeepsWriteDiscipline | include/pqrs/unix_domain_stream/impl/peer.hpp:321-411 | The queue stays within its bound and holds the accepted frames not yet written; while open a write of the front frame is in flight iff the queue is non-empty; bytes sent are the accepted frames in order. |
| PeerProofs.CloseAfterWriteLosesNothing | include/pqrs/unix_domain_stream/impl/peer.hpp:401-407 | A close after the last write happens only with every accepted frame completely written. |
| PeerProofs.StepKeepsLifeCycle | include/pqrs/unix_domain_stream/impl/peer.hpp:156-167 | `ready` and `closed` are each signalled at most once, exactly when the fields say so, and nothing is handed over before `ready`. |
| PeerProofs.StepKeepsReaderAgrees | include/pqrs/unix_domain_stream/impl/peer.hpp:170-307 | After any event the messages handed over are those the reference parser finds in the bytes handled, whatever the chunks. |
| PeerProofs.WaitingReaderHasParsedEverything | include/pqrs/unix_domain_stream/impl/peer.hpp:170-221 | A reader waiting for bytes has handed over every message in what it consumed. |
| PeerProofs.EveryRunKeepsPeerInvariant | include/pqrs/unix_domain_stream/impl/peer.hpp:120-455 | The three invariants above hold after every run of a connection end. |
| Link.EveryRunKeepsLinkInvariant | include/pqrs/unix_domain_stream/impl/peer.hpp:170-411 | On a link both ends keep their invariants and each has consumed a prefix of what the other sent. |
| Link.HandedOverIsPrefix | include/pqrs/unix_domain_stream/impl/peer.hpp:170-307 | What the reader hands over is a prefix of the messages accepted by the sender, and all of them once everything was read. |
| Link.DeliveryIsFifo | include/pqrs/unix_domain_stream/impl/peer.hpp:321-411 | End to end and for every interleaving: each side is handed, in order and unchanged, a prefix of what the other side's `push_frame` accepted. |
| Link.DeliveryIsFifoOfMessages | include/pqrs/unix_domain_stream/impl/peer.hpp:93-118 | The same in the senders' terms: what is handed over is a prefix, and all of it once everything was read, of the messages accepted; and those are exactly the messages pushed while the end was open with room, none ignored, none added. |
| LinkProgress.EverythingCanLeave | include/pqrs/unix_domain_stream/impl/peer.hpp:375-411 | From every state the link invariant allows, an open end can still write every frame it accepted. |
| LinkProgress.EverythingCanArrive | include/pqrs/unix_domain_stream/impl/peer.hpp:170-307 | A reader in a stream without a bad frame or a health check can still take and deal with all of it, whatever chunks came before. |
| LinkProgress.EverythingCanBeDelivered | include/pqrs/unix_domain_stream/impl/peer.hpp:170-411 | From every reachable state of a link whose ends are open and listening, some continuation hands over every message the other end accepted. |
| PeerEffects.PushAcceptsExactly | include/pqrs/unix_domain_stream/impl/peer.hpp:321-338 | An open end accepts a pushed frame if and only if it is valid and there is room, and then changes nothing else; any other frame ends it with `no_buffer_space`; a closed end is unchanged. |
| PeerEffects.StartAwaitsHeader | include/pqrs/unix_domain_stream/impl/peer.hpp:70-79 | A start on an open end awaits a header and changes nothing else. |
| PeerEffects.BytesAreReceived | include/pqrs/unix_domain_stream/impl/peer.hpp:177-219 | Whatever arrives is consumed as it is, and nothing else changes before a read completes. |
| PeerEffects.FailedReadEnds | include/pqrs/unix_domain_stream/impl/peer.hpp:184-193 | A failed read ends an open connection: quietly for an end of file between two frames, with its error otherwise. |
| PeerEffects.FailedWriteEnds | include/pqrs/unix_domain_stream/impl/peer.hpp:396-399 | A failed write ends an open connection with its error, and pops no frame. |
| PeerEffects.WrittenFrameLeaves | include/pqrs/unix_domain_stream/impl/peer.hpp:401-409 | A written frame leaves the queue, and the end closes exactly after the last one it was to close after. |
| PeerEffects.EveryRunKeepsListening | include/pqrs/unix_domain_stream/impl/peer.hpp:170-307 | In every run a started, open end has a read outstanding unless it only waits for its health-check answer to leave. |
| PeerEffects.EveryDisconnectIsNoticed | include/pqrs/unix_domain_stream/impl/peer.hpp:180-193 | So in every run the failure of its connection can be noticed, and noticing it ends it and says so. |
| PeerEffects.HeaderAnnounces | include/pqrs/unix_domain_stream/impl/peer.hpp:195-208 | A complete header announces a body of its big-endian size exactly if that is within the limits; any other ends the connection with `message_size`. |
| PeerEffects.BodyIsHandedOver | include/pqrs/unix_domain_stream/impl/peer.hpp:235-305 | A complete body the reference parser reads past is handed over as the one message it finds, after `ready`, and the next header is awaited. |
| PeerEffects.BadBodyEnds | include/pqrs/unix_domain_stream/impl/peer.hpp:235-305 | A body the reference parser stops at ends the connection: `invalid_argument` for an unknown type, `message_size` otherwise. |
| PeerEffects.HealthCheckIsAnswered | include/pqrs/unix_domain_stream/impl/peer.hpp:285-292 | A health check is answered, and the end then closes after its answer, exactly if it is not ready yet; a ready end treats it as an error. |
| PeerEffects.CloseEnds | include/pqrs/unix_domain_stream/impl/peer.hpp:82-91 | A close ends an open connection quietly, and tells nothing of one already closed. |
| PeerEffects.DeadlineEnds | include/pqrs/unix_domain_stream/impl/peer.hpp:134-142 | An expired deadline ends an open connection with `timed_out`. |
| PeerEffects.ReadyDeadlineReadies | include/pqrs/unix_domain_stream/impl/peer.hpp:145-167 | The ready deadline makes the end ready, which is signalled unless it was. |
| PeerEffects.HeartbeatIsPushed | include/pqrs/unix_domain_stream/impl/peer.hpp:121-131 | The heartbeat timer pushes a heartbeat frame on an open end, under the rules of any other frame. |
| Peer.Peer.constructor | include/pqrs/unix_domain_stream/impl/peer.hpp:41-48 | A fresh peer meets the invariant. |
| Peer.Peer.EnsureReady | include/pqrs/unix_domain_stream/impl/peer.hpp:156-167 | Becomes ready and signals it, unless it already is. |
| Peer.Peer.Close | include/pqrs/unix_domain_stream/impl/peer.hpp:427-455 | Closes the socket; signals `closed` only if it was open. |
| Peer.Peer.HandleError | include/pqrs/unix_domain_stream/impl/peer.hpp:414-424 | Signals the error and closes, except on an abort. |
| Peer.Peer.ReadHeader | include/pqrs/unix_domain_stream/impl/peer.hpp:170-179 | Awaits a header on an open socket. |
| Peer.Peer.HeaderRead | include/pqrs/unix_domain_stream/impl/peer.hpp:180-209 | Has exactly the effect of the model's handler: a clean end closes silently, other errors and bad sizes with an error (`FailedReadEnds`), else the body is awaited. |
| Peer.Peer.BodyRead | include/pqrs/unix_domain_stream/impl/peer.hpp:219-234 | Errors and short bodies end the connection; a complete body is dispatched. |
| Peer.Peer.DispatchBody | include/pqrs/unix_domain_stream/impl/peer.hpp:235-305 | Every message type, size check and health-check rule, as the model states them. |
| Peer.Peer.ReadCompletes | include/pqrs/unix_domain_stream/impl/peer.hpp:180-306 | The completion refines the model's step and keeps the invariant. |
| Peer.Peer.BytesArrive | include/pqrs/unix_domain_stream/impl/peer.hpp:177-219 | Bytes arriving for the active read refine the model's step and keep the invariant. |
| Peer.Peer.Write | include/pqrs/unix_domain_stream/impl/peer.hpp:375-392 | Starts a write of the front frame on an open socket. |
| Peer.Peer.Push | include/pqrs/unix_domain_stream/impl/peer.hpp:321-338 | Accepts, rejects with `no_buffer_space`, or ignores a frame, as the model does (`PushAcceptsExactly`); writes at once only into an empty queue. |
| Peer.Peer.PushFrame | include/pqrs/unix_domain_stream/impl/peer.hpp:321-338 | The same, refining the model's step and keeping the invariant. |
| Peer.Peer.FrameWritten | include/pqrs/unix_domain_stream/impl/peer.hpp:392-410 | Pops the written frame; then closes after the last one if so asked, or writes the next. |
| Peer.Peer.WriteCompletes | include/pqrs/unix_domain_stream/impl/peer.hpp:392-410 | The completion refines the model's step and keeps the invariant; the queue popped is never empty. |
| Requests.AddConserves | include/pqrs/unix_domain_stream/impl/request_manager.hpp:33-62 | A new request keeps the issued ids the disjoint union of pending ids and ids called back exactly once. |
| Requests.CompleteConserves | include/pqrs/unix_domain_stream/impl/request_manager.hpp:66-73 | So does completing one request. |
| Requests.FailAllConserves | include/pqrs/unix_domain_stream/impl/request_manager.hpp:95-117 | So does completing any set of requests at once. |
| Requests.TimerConserves | include/pqrs/unix_domain_stream/impl/request_manager.hpp:40-52 | So does a timer handler, expired or cancelled, late or not. |
| Requests.ServerTimeoutIsConfined | include/pqrs/unix_domain_stream/impl/request_manager.hpp:40-52 | With invalidation the expired request times out, the others of its peer are aborted and those of other peers stay pending; without it only that one changes. |
| Requests.ClientTimeoutIsConfined | include/pqrs/unix_domain_stream/impl/request_manager.hpp:40-52 | On the client the others are reset with the connection, or untouched without invalidation. |
| RequestRuns.EveryRequestCompletesOnce | include/pqrs/unix_domain_stream/impl/request_manager.hpp:33-135 | Over every interleaving no request is called back twice, and once no timer is outstanding every one was. |
| RequestRuns.CompletedIsFinal | include/pqrs/unix_domain_stream/impl/request_manager.hpp:33-135 | Whatever is issued, answered, ended or timed out afterwards, a completed request stays completed and its callbacks stay as they are. |
| RequestManager.RequestManager.Add | include/pqrs/unix_domain_stream/impl/request_manager.hpp:33-62 | Issues a fresh id and enqueues no callback. |
| RequestManager.RequestManager.Complete | include/pqrs/unix_domain_stream/impl/request_manager.hpp:66-73 | Calls back a pending request and forgets it; otherwise changes nothing. |
| RequestManager.RequestManager.CompleteFromPeer | include/pqrs/unix_domain_stream/impl/request_manager.hpp:78-91 | The same, only if the request is the peer's. |
| RequestManager.RequestManager.CompletePeer | include/pqrs/unix_domain_stream/impl/request_manager.hpp:95-106 | The loop calls back exactly the peer's requests, each once, and keeps the others. |
| RequestManager.RequestManager.CompleteAll | include/pqrs/unix_domain_stream/impl/request_manager.hpp:110-117 | The loop calls back every pending request once and leaves none. |
| RequestManager.RequestManager.TimerHandler | include/pqrs/unix_domain_stream/impl/request_manager.hpp:40-52 | The timeout action runs exactly if the timer expired with its request still pending. |
| SocketPaths.ReachableOwnersAreCurrent | include/pqrs/unix_domain_stream/impl/runtime.hpp:34-63 | For any number of servers and any retargeting of paths, an owner entry always points to a server whose saved path it is. |
| SocketPaths.EveryRunKeepsOwnersCurrent | include/pqrs/unix_domain_stream/impl/runtime.hpp:34-63 | The invariant behind it is kept by every run of binds, closes and foreign file changes. |
| SocketPaths.BindKeepsOwnersCurrent | include/pqrs/unix_domain_stream/server.hpp:256-299 | Every outcome of a bind keeps ownership current. |
| SocketPaths.CloseRemovesOnlyItsOwn | include/pqrs/unix_domain_stream/server.hpp:505-518 | Closing removes the file at the saved path if and only if no other server has prepared that path since and the removal succeeds, and no other file. |
| SocketPaths.CloseSparesOtherServers | include/pqrs/unix_domain_stream/server.hpp:505-518 | An old server never removes a newer one's socket. |
| SocketPaths.CloseLeavesNoOwnerEntry | include/pqrs/unix_domain_stream/server.hpp:513-517 | A closed server owns no path, even if its file could not be removed. |
| SocketPaths.BindBinds | include/pqrs/unix_domain_stream/server.hpp:256-299 | A bind by a server without acceptor that listens leaves an acceptor, the path saved and owned by the server, and its file there; every other outcome leaves no acceptor and no saved path; paths not concerned keep owner and file; with an acceptor nothing changes. |
| SocketPaths.BindPrepares | include/pqrs/unix_domain_stream/server.hpp:271-272 | Every bind that gets past the endpoint takes the path from whoever owned it, and its file goes, unless removal fails. |
| SocketPaths.CloseReleases | include/pqrs/unix_domain_stream/server.hpp:505-518 | A close releases the acceptor, the saved path and the ownership of it, and no other entry. |
| SocketPaths.AnyServerCanBind | include/pqrs/unix_domain_stream/server.hpp:256-299 | From every state with current ownership, any server can still be bound to any path. |
| Runtime.Runtime.SetSocketFilePathOwner | include/pqrs/unix_domain_stream/impl/runtime.hpp:36-39 | The path belongs to the new owner only. |
| Runtime.Runtime.RemoveSocketFilePath | include/pqrs/unix_domain_stream/impl/runtime.hpp:41-48 | Whoever owned the path no longer does, and its file is gone unless removal fails. |
| Runtime.Runtime.RemoveSocketFilePathIfOwned | include/pqrs/unix_domain_stream/impl/runtime.hpp:50-63 | The entry goes only for its owner, and the file with it unless removal fails. |
| Runtime.ServerSocket.Bind | include/pqrs/unix_domain_stream/server.hpp:250-310 | The bind task, with every failure, has the model's effect on table and server, which `BindBinds` states. |
| Runtime.ServerSocket.CloseAcceptor | include/pqrs/unix_domain_stream/server.hpp:505-518 | Closing has the model's effect on table and server. |
| NotificationScope.CancelledForGood | include/pqrs/unix_domain_stream/impl/notification_scope.hpp:47-54 | A token captured before a stop or an invalidation is never current again. |
| NotificationScope.CurrentUntilCancelled | include/pqrs/unix_domain_stream/impl/notification_scope.hpp:43-67 | On a running scope a token stays current exactly while only starts follow. |
| NotificationScope.RunsWhileLastStarted | include/pqrs/unix_domain_stream/impl/notification_scope.hpp:43-54 | After any calls a scope runs if and only if its last start comes after its last stop. |
| NotificationScope.NotificationScope.Start | include/pqrs/unix_domain_stream/impl/notification_scope.hpp:43-45 | Runs, in the same generation. |
| NotificationScope.NotificationScope.Stop | include/pqrs/unix_domain_stream/impl/notification_scope.hpp:47-50 | Stops and leaves every token captured so far stale. |
| NotificationScope.NotificationScope.Invalidate | include/pqrs/unix_domain_stream/impl/notification_scope.hpp:52-54 | Moves the generation on and keeps running. |
| NotificationScope.NotificationScope.Capture | include/pqrs/unix_domain_stream/impl/notification_scope.hpp:61-63 | The token is current while the scope runs. |
| ClientTheorems.ClientNeverStalls | include/pqrs/unix_domain_stream/client.hpp:186-349 | A running client is connecting, connected, or has something queued or armed that leads to another attempt; with nothing queued it waits for a connect, an open peer or the timer. |
| ClientTheorems.ClientTellsInOrder | include/pqrs/unix_domain_stream/client.hpp:314-500 | About one connection: data, requests and errors only after `connected`, nothing after `closed`, each of the two at most once. |
| ClientTheorems.NoClientPeerReleasedUnclosed | include/pqrs/unix_domain_stream/impl/peer.hpp:50-58 | No peer is given up before its close ran or was posted, and connecting and connected exclude each other. |
| ClientTheorems.ResponsesStayOnTheirConnection | include/pqrs/unix_domain_stream/client.hpp:405-425 | A success callback only receives what was read from its own connection with its own id, and each request is called back once. |
| ClientTheorems.ClientTimeoutHandled | include/pqrs/unix_domain_stream/client.hpp:531-545 | In every reachable state the timeout action does to the requests what `ClientTimeoutIsConfined` confines. |
| ClientTheorems.EveryRunKeepsClientInvariant | include/pqrs/unix_domain_stream/client.hpp:186-562 | The invariant behind these holds after every run. |
| ClientSettles.ClientSettles | include/pqrs/unix_domain_stream/client.hpp:186-562 | Without new calls, completions or timers every interleaving of the two threads runs dry within a bound, and leaves a running client waiting for a connect, an open peer or the timer. |
| ClientTheorems.EndsAllRequests | include/pqrs/unix_domain_stream/client.hpp:405-481 | A stop, an invalidation, an error or a close calls back every pending request with its own error code, an answer its own request, and nothing else touches one. |
| ClientDelivery.ClientDeliversInOrder | include/pqrs/unix_domain_stream/client.hpp:353-452 | The data, requests and errors told of a connection are a prefix, in order and unchanged, of those it signalled, and for the current connection all of them once the queues are empty. |
| ClientDelivery.ClientDropsNothing | include/pqrs/unix_domain_stream/client.hpp:454-481 | A connection ended by its own close: once the dispatcher has caught up in its session, `closed` is told; and before that `closed` everything the connection signalled before its close was told, in order and unchanged. |
| ClientDelivery.StepKeepsDelivery | include/pqrs/unix_domain_stream/client.hpp:353-481 | Two dispatcher hops and one I/O hop lose, reorder and duplicate nothing of the current connection, nor of one ended by its own close. |
| ClientProofs.StepKeepsTokensSound | include/pqrs/unix_domain_stream/client.hpp:202-215 | Nothing carries a token from the future; connecting and connected exclude each other. |
| ClientProofs.IoKeepsCleanups | include/pqrs/unix_domain_stream/client.hpp:186-199 | What an earlier session left is cleaned up before the next connect, and no cleanup hits a current connection. |
| ClientProofs.StepKeepsRequests | include/pqrs/unix_domain_stream/client.hpp:520-562 | Every pending request was sent on the current peer. |
| ClientProgress.IoKeepsAlive | include/pqrs/unix_domain_stream/client.hpp:314-349 | A current connecting socket has its connect, verification or handling outstanding; a current peer is open or has its close on the way. |
| ClientProgress.IoNeverStalls | include/pqrs/unix_domain_stream/client.hpp:206-228 | An I/O task never takes the last thing that leads on. |
| ClientProgress.DispatcherNeverStalls | include/pqrs/unix_domain_stream/client.hpp:503-517 | Neither does a dispatcher task. |
| ClientProgress.EventNeverStalls | include/pqrs/unix_domain_stream/client.hpp:233-277 | Neither does a completion or a timer. |
| ClientOrder.DispatcherKeepsOrder | include/pqrs/unix_domain_stream/client.hpp:485-500 | Delivering keeps told and queued notes in order. |
| ClientOrder.IoKeepsOrder | include/pqrs/unix_domain_stream/client.hpp:353-481 | So does forwarding a peer's signals over both hops. |
| ClientSessions.OnlyClosedCrosses | include/pqrs/unix_domain_stream/impl/notification_scope.hpp:21-25 | Of all notes, failed attempts included, the only one ever told outside the session it comes from is `closed`, in a later one. |
| ClientOrder.StepKeepsFailures | include/pqrs/unix_domain_stream/client.hpp:217-254 | A failed attempt is only ever reported in its own session. |
| ClientSessions.GuardedRunsStayInSession | include/pqrs/unix_domain_stream/impl/notification_scope.hpp:21-25 | If no request is sent on a connection of an earlier session, no note is told outside its session. |
| ClientSessions.UnguardedSendCrosses | include/pqrs/unix_domain_stream/client.hpp:531-545 | From every state about to send such a request, running or stopped and whatever is queued, some continuation tells the late `closed`, if request timeouts may close the connection. |
| ClientSessions.NothingCrossesWithoutOption | include/pqrs/unix_domain_stream/client.hpp:534-536 | If they may not, no run tells any note outside its session, whenever its requests are sent. |
| ClientSessions.CrossesExactlyWithOption | include/pqrs/unix_domain_stream/client.hpp:531-545 | From every reachable such state the promise can still be broken if and only if the option is on. |
| ClientSessions.PromiseKeptExactlyWithoutOption | include/pqrs/unix_domain_stream/impl/notification_scope.hpp:21-25 | Over all runs the promise is kept if and only if the option is off. |
| ClientSessions.ClosedCanCrossSessions | include/pqrs/unix_domain_stream/client.hpp:531-545 | Such a state is reachable: the documented promise fails. |
| ClientAnswers.AnswersAreResponses | include/pqrs/unix_domain_stream/client.hpp:405-425 | Every success callback got exactly the data that the connection its request was sent on responded under the request's own id. |
| ClientAnswers.EveryRunKeepsAnswers | include/pqrs/unix_domain_stream/client.hpp:405-425 | The invariant behind it: every response on its way was signalled by its connection, unchanged. |
| ClientEndings.QueuedEndCallsBack | include/pqrs/unix_domain_stream/client.hpp:405-481 | Whatever ends a request, its response, an error, a close, a stop or an invalidation, once queued has called it back when the queues are empty. |
| ClientEndings.PendingWaitsOnOpenPeer | include/pqrs/unix_domain_stream/client.hpp:520-562 | With both queues empty every pending request waits on the open connection of the running session. |
| ClientEndings.ResponseAnswers | include/pqrs/unix_domain_stream/client.hpp:405-425 | From every idle reachable state, a response of the current connection to a pending request calls it back with exactly its data, and touches nothing else the user sees. |
| ClientOperations.ClientEndsAsLastCalled | include/pqrs/unix_domain_stream/client.hpp:107-124 | Over every run: with both queues empty the client is as its user last asked for. After a start it runs and waits for a connect, an open peer or the timer; after a stop it has let go of everything. |
| ClientOperations.StoppedClientIsClean | include/pqrs/unix_domain_stream/client.hpp:186-199 | A stopped client with nothing queued has no connection, no attempt, no open peer, no armed timer and no pending request. |
| ClientOperations.CallsTakeEffect | include/pqrs/unix_domain_stream/client.hpp:107-124 | A start runs the client in its generation and asks for a connect; a stop and an invalidation end the session and ask for the cleanup, and only the stop stops it. |
| ClientOperations.CallsAreQueued | include/pqrs/unix_domain_stream/client.hpp:120-124 | An invalidation and a request are queued as they are, and by themselves change nothing. |
| ClientOperations.CleanupLeavesNothing | include/pqrs/unix_domain_stream/client.hpp:282-302 | A cleanup leaves no connection and no pending request, posts the close of the peer, and after an invalidation asks for the next attempt. |
| ClientOperations.ConnectAttempt | include/pqrs/unix_domain_stream/client.hpp:206-233 | An attempt of the running session starts one connect of a new socket exactly if there is an endpoint, and reports the failure otherwise; an attempt of an earlier session, or while connecting or connected, does nothing. |
| ClientOperations.ConnectOutcome | include/pqrs/unix_domain_stream/client.hpp:235-277 | A connect of the connecting socket asks for its verification exactly if it succeeded and is reported otherwise; any other goes unnoticed. |
| ClientOperations.VerdictIsPassed | include/pqrs/unix_domain_stream/client.hpp:258-271 | The user's verdict is taken back to the I/O thread as given. |
| ClientOperations.VerdictDecides | include/pqrs/unix_domain_stream/client.hpp:314-349 | A verified socket of the running session becomes the open peer and is announced; a refused one is reported; one of an earlier session is dropped silently. |
| ClientOperations.CurrentPeerIsAnnounced | include/pqrs/unix_domain_stream/client.hpp:485-500 | With both queues empty the user has been told of the current connection, and it belongs to the running session. |
| ClientOperations.QueuedNoteIsTold | include/pqrs/unix_domain_stream/impl/notification_scope.hpp:69-76 | Whatever is queued for the user under the current token is told under it, in any continuation of the session, once the dispatcher has caught up. |
| ClientOperations.SentRequestIsPending | include/pqrs/unix_domain_stream/client.hpp:520-549 | In every reachable state a request sent on a connection becomes pending on it under an id never used before, its timer started and the token of now captured; without a connection nothing changes. |
| ClientOperations.TimeoutEndsConnection | include/pqrs/unix_domain_stream/client.hpp:531-545 | With the option set, a request that times out ends its connection, resets the other requests and queues `closed` under the token of when it was sent; without it only the request ends. |
| ClientService.ClientCanAlwaysConnect | include/pqrs/unix_domain_stream/client.hpp:186-562 | From every reachable state some continuation makes a new connection and tells exactly `connected`, whatever it signals in order, and `closed`. |
| ClientState.ClientState.Connect | include/pqrs/unix_domain_stream/client.hpp:202-208 | Posts the connect task under the captured token. |
| ClientState.ClientState.Stop | include/pqrs/unix_domain_stream/client.hpp:186-199 | Stops the scope, cancels the reconnect, posts the cleanup. |
| ClientState.ClientState.InvalidateConnection | include/pqrs/unix_domain_stream/client.hpp:282-302 | Invalidates, cancels the reconnect, posts cleanup and rescheduling. |
| ClientState.ClientState.RunConnect | include/pqrs/unix_domain_stream/client.hpp:206-233 | Starts one connect, or fails, or does nothing if stale or busy. |
| ClientState.ClientState.ConnectCompleted | include/pqrs/unix_domain_stream/client.hpp:235-277 | Drops stale completions, reports failure, or asks for verification. |
| ClientState.ClientState.HandleConnectedSocket | include/pqrs/unix_domain_stream/client.hpp:314-351 | Adopts the socket as the peer only if it is still the current one, current and verified. |
| ClientState.ClientState.ClosePeer | include/pqrs/unix_domain_stream/client.hpp:552-562 | Fails every request and gives up the peer with its close posted. |
| ClientState.ClientState.Forward | include/pqrs/unix_domain_stream/client.hpp:353-481 | A signal counts only if it is the current peer's. |
| ClientState.ClientState.SendRequest | include/pqrs/unix_domain_stream/client.hpp:520-549 | Registers the request on the current peer with the token of now. |
| ClientState.ClientState.RequestTimer | include/pqrs/unix_domain_stream/client.hpp:531-545 | A timeout that closes the peer reports it under the request's token. |
| ClientState.ClientState.RunDispatcher | include/pqrs/unix_domain_stream/client.hpp:107-124 | Running the dispatcher's head refines the model's step and keeps the invariant. |
| ClientState.ClientState.RunIo | include/pqrs/unix_domain_stream/client.hpp:206-216 | So does running the I/O head. |
| ClientState.ClientState.HandleEvent | include/pqrs/unix_domain_stream/client.hpp:235-277 | So does every call, completion and timer. |
| ServerTheorems.ServerNeverStalls | include/pqrs/unix_domain_stream/server.hpp:246-359 | A running server accepts or has something queued or armed that leads to another bind; with nothing queued it waits for an accept on its acceptor or for the timer. |
| ServerTheorems.ServerTellsInOrder | include/pqrs/unix_domain_stream/server.hpp:380-497 | About one peer id: `peer_connected` at most once and only after a positive verdict, then data, requests and errors, then at most one `peer_closed`. |
| ServerTheorems.StopCutsSessions | include/pqrs/unix_domain_stream/server.hpp:227-243 | Once a stop is processed, nothing more is told of any peer accepted so far, in any continuation. |
| ServerTheorems.CutPeersStaySilent | include/pqrs/unix_domain_stream/server.hpp:715-721 | The same for every peer accepted under an earlier token, in any state the invariant allows, so also one whose accept raced with the stop. |
| ServerTheorems.ServerDropsNothing | include/pqrs/unix_domain_stream/server.hpp:380-497 | For a verified peer neither stopped nor closed locally, what it handed over before its socket closed is told completely and in order, before `peer_closed`. |
| ServerTheorems.PeerClosedExactly | include/pqrs/unix_domain_stream/server.hpp:380-497 | For every peer of the running session that was not refused, closed locally or not, and in every reachable state: `peer_closed` was told if and only if a close was handled after a ready. |
| ServerTheorems.ClosedAfterConnectedIsTold | include/pqrs/unix_domain_stream/server.hpp:696-721 | A peer closed by either side after its `peer_connected` was told has had its `peer_closed` once both queues are empty, unless the session was stopped. |
| ServerTheorems.CloseIsHandled | include/pqrs/unix_domain_stream/server.hpp:696-721 | With both queues empty, every closed peer of the running session that was not refused has had a close handled. |
| ServerTheorems.PeerClosedExactlyWhenReadyFirst | include/pqrs/unix_domain_stream/server.hpp:492-495 | For a peer not closed locally, with the dispatcher idle, `peer_closed` was told if and only if it closed after it was ready. |
| ServerTheorems.NoServerPeerReleasedUnclosed | include/pqrs/unix_domain_stream/impl/peer.hpp:50-58 | No peer leaves the map, and no probe peer its field, before its close ran or was posted; none is destroyed open or assigned over. |
| ServerTheorems.ProbesNeverStuck | include/pqrs/unix_domain_stream/server.hpp:723-734 | A probe peer implies its own set timeout; a set timeout is armed and not cancelled, or a stop is queued. |
| ServerTheorems.ChecksRunWhileAccepting | include/pqrs/unix_domain_stream/server.hpp:521-550 | With the dispatcher idle the health-check timer runs for every current acceptor, and never on a stopped server. |
| ServerChecks.StepKeepsChecks | include/pqrs/unix_domain_stream/server.hpp:302-307 | Queued starts, stops and the notifications that cause them leave the timer running for a current acceptor, whatever their order. |
| ServerSettles.ServerSettles | include/pqrs/unix_domain_stream/server.hpp:227-764 | Without new calls, completions or timers every interleaving of the two threads runs dry within a bound, and leaves a running server waiting for an accept or the retry timer. |
| ServerTheorems.ResponsesStayOnTheirPeer | include/pqrs/unix_domain_stream/server.hpp:430-456 | Pending requests name a peer in the map; a success callback only receives its own peer's answer to its own id. |
| ServerTheorems.EndsExactlyItsRequests | include/pqrs/unix_domain_stream/server.hpp:430-497 | A stop, a local close, an error or a close of a peer calls back exactly that peer's requests, each with its error code; an answer its own request; no other is touched. |
| ServerTheorems.RefusedPeerIsClosed | include/pqrs/unix_domain_stream/server.hpp:385-397 | A peer refused by verification has its close requested until it leaves the map. |
| ServerTheorems.ServerTimeoutHandled | include/pqrs/unix_domain_stream/server.hpp:753-760 | In every reachable state the timeout action does to the requests what `ServerTimeoutIsConfined` confines. |
| ServerTheorems.EveryRunKeepsServerInvariant | include/pqrs/unix_domain_stream/server.hpp:227-764 | The invariant behind these holds after every run. |
| ServerProbes.OldProbeGoesUnnoticed | include/pqrs/unix_domain_stream/server.hpp:668-693 | Whatever a late callback of another probe reports, the current probe, the acceptor, the peers and the user notice nothing. |
| ServerProbes.StepKeepsProbing | include/pqrs/unix_domain_stream/server.hpp:556-664 | At most one probe, each becoming a peer at most once, with an armed timeout. |
| ServerProbes.StepKeepsProbesClosed | include/pqrs/unix_domain_stream/server.hpp:724-734 | A probe peer is closed or has its close posted before it is dropped. |
| ServerProgress.IoKeepsCleanups | include/pqrs/unix_domain_stream/server.hpp:234-242 | Everything of an earlier session is cleaned up before the next bind or probe, and no cleanup hits a current one. |
| ServerProgress.EventKeepsCleanups | include/pqrs/unix_domain_stream/server.hpp:327-359 | No late accept or probe brings back an earlier session or forestalls the next. |
| ServerProgress.StepKeepsAcceptorAlive | include/pqrs/unix_domain_stream/server.hpp:327-359 | A current acceptor always has an accept outstanding under the current token. |
| ServerProgress.StepKeepsBoundAnnounced | include/pqrs/unix_domain_stream/server.hpp:302-307 | `bound` was told, or is queued to be told, of every current acceptor. |
| ServerProgress.DispatcherNeverStalls | include/pqrs/unix_domain_stream/server.hpp:521-537 | A dispatcher task never takes the last thing that leads on. |
| ServerProgress.IoNeverStalls | include/pqrs/unix_domain_stream/server.hpp:250-325 | Neither does an I/O task. |
| ServerProgress.EventNeverStalls | include/pqrs/unix_domain_stream/server.hpp:333-359 | Neither does an accept, a probe or a timer. |
| ServerPeers.IoKeepsClosed | include/pqrs/unix_domain_stream/server.hpp:696-745 | Whoever leaves the map has its close run or posted. |
| ServerPeers.StepKeepsRequests | include/pqrs/unix_domain_stream/server.hpp:696-764 | Every pending request names a peer in the map. |
| ServerLifecycle.DispatcherKeepsLifecycle | include/pqrs/unix_domain_stream/server.hpp:380-428 | Delivering keeps every peer's notes a life cycle, told in the session it was accepted under. |
| ServerLifecycle.EventKeepsLifecycle | include/pqrs/unix_domain_stream/server.hpp:375-400 | A ready signal on its way belongs to a peer the user knows nothing of yet, and there is one at most. |
| ServerDelivery.DispatcherAccounts | include/pqrs/unix_domain_stream/server.hpp:402-497 | Running a task moves at most one of a peer's signals one hop on, and loses none. |
| ServerDelivery.StepKeepsAccounted | include/pqrs/unix_domain_stream/server.hpp:402-497 | Handled and queued signals are what the peer emitted, in order, and the user was told their narrative. |
| ServerDelivery.StepKeepsNarrated | include/pqrs/unix_domain_stream/server.hpp:380-428 | Every peer of the running session that was not refused has been told exactly as its handled signals say, and is exposed accordingly. |
| ServerDelivery.StepKeepsEnds | include/pqrs/unix_domain_stream/server.hpp:696-721 | A local close's notification is on its way until a close was handled, and none is handled before the peer was closed. |
| ServerNarrative.NarrativeKeepsData | include/pqrs/unix_domain_stream/server.hpp:402-428 | Signals handled in order hand the user exactly the data signalled before the close. |
| ServerNarrative.ClosedWasReady | include/pqrs/unix_domain_stream/server.hpp:715-721 | A close is told only of a peer that was ready before it. |
| ServerNarrative.ClosedIsToldExactly | include/pqrs/unix_domain_stream/server.hpp:715-721 | A close is told exactly when one was handled after a ready, whatever the signals. |
| ServerLateReady.PeerConnectedWithoutPeerClosed | include/pqrs/unix_domain_stream/impl/peer.hpp:148-166 | A run tells `peer_connected` of a peer already closed by its remote end, and ends with both queues empty and no `peer_closed` told. |
| ServerLateReady.LocalCloseOvertakesVerification | include/pqrs/unix_domain_stream/server.hpp:696-721 | So does a run with a peer that was ready before the server closed it. |
| PeerSignals.ReadyDeadlineAfterClose | include/pqrs/unix_domain_stream/impl/peer.hpp:148-166 | The peer model does signal its end and then ready when its deadline fires after a close. |
| PeerSignals.PeersMayEmitWhatTheySignal | include/pqrs/unix_domain_stream/impl/peer.hpp:156-167 | Every signal a peer of the peer model enqueues is one the server's model lets it emit next. |
| ServerAnswers.AnswersAreResponses | include/pqrs/unix_domain_stream/server.hpp:430-456 | Every success callback got exactly the data that the peer its request was sent to responded under the request's own id. |
| ServerAnswers.EveryRunKeepsAnswers | include/pqrs/unix_domain_stream/server.hpp:430-456 | The invariant behind it: every response on its way was signalled by its peer, unchanged. |
| ServerEndings.SentRequestIsPending | include/pqrs/unix_domain_stream/server.hpp:748-764 | In every reachable state a request sent to a peer in the map becomes pending on it under an id never used before, its timer started, nothing else changed; to any other peer nothing changes. |
| ServerEndings.QueuedEndCallsBack | include/pqrs/unix_domain_stream/server.hpp:430-497 | Whatever ends a request, its response, an error, a close by either side or a stop, once queued has called it back when the queues are empty. |
| ServerEndings.SignalEndsRequests | include/pqrs/unix_domain_stream/server.hpp:430-497 | From every idle reachable state, a signal of a peer ends its requests as it says: a response hands exactly its data to its own request, an error its code and a close a reset to every request of the peer; no other request is touched. |
| ServerEndings.IdleMapHoldsOpenPeers | include/pqrs/unix_domain_stream/server.hpp:481-497 | With both queues empty the map holds open peers only, and every pending request waits on one of them. |
| ServerHealth.FailedCheckClosesListener | include/pqrs/unix_domain_stream/server.hpp:676-693 | Whichever way the current check fails, by its connect, its timer, its answer or its endpoint, acceptor, probe and timeout are gone, the listener's end is queued under the check's token, and nothing else is touched. |
| ServerHealth.FailedCheckIsMended | include/pqrs/unix_domain_stream/server.hpp:676-693 | Over every run: once both queues are empty in that session, the listener's end was told since, and the server waits on an acceptor made since or for the timer of its next bind. |
| ServerHealth.OnlyFailuresCloseListener | include/pqrs/unix_domain_stream/server.hpp:505-511 | Nothing but a failed check, a failed accept and a stop ever gives up a listener. |
| ServerHealth.CheckDecidesOnAnswer | include/pqrs/unix_domain_stream/server.hpp:556-664 | From every idle accepting state a whole check, from the timer on: if its probe is answered nothing but the probing changes; if its probe fails, or is closed by the other end, the listener is given up and its end queued. |
| ServerHealth.CheckStarts | include/pqrs/unix_domain_stream/server.hpp:560-595 | A check of the running session with a listener and no other check starts a fresh probe whose timer and connect are outstanding. |
| ServerHealth.OtherChecksDoNothing | include/pqrs/unix_domain_stream/server.hpp:560-570 | Any other check does nothing. |
| ServerHealth.OldConnectIsDropped | include/pqrs/unix_domain_stream/server.hpp:597-608 | A connect of a probe that is no longer the current one ends with its timer cancelled, and nothing else happens. |
| ServerHealth.PostedProbeCloseCloses | include/pqrs/unix_domain_stream/server.hpp:723-734 | A posted close of a probe peer closes it, and it signals its end exactly if it was open. |
| ServerHealth.BoundIsChecked | include/pqrs/unix_domain_stream/server.hpp:302-307 | Telling `bound` starts the health-check timer and asks for a first check under the same token. |
| ServerHealth.QueuedNoteIsTold | include/pqrs/unix_domain_stream/impl/notification_scope.hpp:69-76 | Whatever is queued for the user under the current token is told under it, in any continuation of the session, once the dispatcher has caught up. |
| ServerOperations.ServerEndsAsLastCalled | include/pqrs/unix_domain_stream/server.hpp:123-134 | Over every run: with both queues empty the server is as its user last asked for. After a start it runs and waits for an accept or its next bind; after a stop it has let go of everything. |
| ServerOperations.StoppedServerIsClean | include/pqrs/unix_domain_stream/server.hpp:227-243 | A stopped server with nothing queued has no acceptor, no peer, no probe, no timer running and no pending request. |
| ServerOperations.StartsAndStopsTakeEffect | include/pqrs/unix_domain_stream/server.hpp:123-134 | A start runs the server in its generation and asks for a bind; a stop ends the session, hides every peer and asks for the cleanup. |
| ServerOperations.CallsAreQueued | include/pqrs/unix_domain_stream/server.hpp:181-221 | A request and a local close are queued as they are, and by themselves change nothing. |
| ServerOperations.BindAttempt | include/pqrs/unix_domain_stream/server.hpp:250-310 | A bind attempt of the running session listens, with an accept outstanding on a new acceptor, exactly if everything it needs succeeds, and queues which of the two it was; an attempt of an earlier session, or with an acceptor, does nothing. |
| ServerOperations.BindOutcomeIsTold | include/pqrs/unix_domain_stream/server.hpp:302-325 | Once the dispatcher has caught up in its session, the user was told of every bind attempt whether it succeeded. |
| ServerOperations.AcceptedSocketJoins | include/pqrs/unix_domain_stream/server.hpp:362-502 | In every reachable state an accepted socket becomes an open peer under an id never known before, the others untouched, and the next accept is outstanding while there is an acceptor. |
| ServerOperations.FailedAcceptClosesListener | include/pqrs/unix_domain_stream/server.hpp:334-354 | A failed accept of the running session gives up the listener and queues its end; an aborted or stale one changes nothing. |
| ServerOperations.CloseRequestCloses | include/pqrs/unix_domain_stream/server.hpp:696-713 | A local close takes exactly its peer out of the map, aborts exactly its requests and posts its close; of a peer not in the map it changes nothing. |
| ServerOperations.TimeoutClosesItsPeer | include/pqrs/unix_domain_stream/server.hpp:753-760 | With the option set, a request that times out closes exactly its peer; without it no peer is touched. |
| ServerOperations.PostedCloseCloses | include/pqrs/unix_domain_stream/server.hpp:706-710 | A posted close closes the peer, which signals it only if it was open; a local one is announced in any case. |
| ServerService.ServerCanAlwaysServe | include/pqrs/unix_domain_stream/server.hpp:227-764 | From every reachable state some continuation accepts a new peer and tells exactly its connection, whatever it signals in order, and its end. |
| ServerState.ServerState.Bind | include/pqrs/unix_domain_stream/server.hpp:246-252 | Posts the bind task under the captured token. |
| ServerState.ServerState.Stop | include/pqrs/unix_domain_stream/server.hpp:227-243 | Stops the scope, cancels the retry, stops the health-check timer, hides every peer, posts the cleanup. |
| ServerState.ServerState.ScheduleBindRetry | include/pqrs/unix_domain_stream/server.hpp:521-537 | Stops the health-check timer and, on a running server, arms the retry. |
| ServerState.ServerState.StartHealthCheckTimer | include/pqrs/unix_domain_stream/server.hpp:540-550 | Starts the health-check timer on a running server. |
| ServerState.ServerState.RunBind | include/pqrs/unix_domain_stream/server.hpp:250-325 | Listens with a first accept, or reports failure, or does nothing if stale or bound; endpoint, open, bind and listen are one outcome. |
| ServerState.ServerState.AcceptCompleted | include/pqrs/unix_domain_stream/server.hpp:334-359 | Drops stale completions, ignores aborts, closes on errors, adopts sockets. |
| ServerState.ServerState.HandleAcceptedSocket | include/pqrs/unix_domain_stream/server.hpp:362-502 | A new peer under a fresh id, and the next accept if there is an acceptor. |
| ServerState.ServerState.VerifyPeer | include/pqrs/unix_domain_stream/server.hpp:380-400 | Exposes and announces the peer, or asks for its close. |
| ServerState.ServerState.RunPeerSlot | include/pqrs/unix_domain_stream/server.hpp:402-497 | Each signal of a live peer is forwarded as the model says: ready to verification, data to the user, responses unchanged to the requests, errors and closes to both. |
| ServerState.ServerState.RunDelivery | include/pqrs/unix_domain_stream/server.hpp:404-411 | Only exposed peers are heard of; a close ends the exposure. |
| ServerState.ServerState.ClosePeer | include/pqrs/unix_domain_stream/server.hpp:696-713 | Aborts the peer's requests, drops it from the map, posts close and notification. |
| ServerState.ServerState.PeerCloses | include/pqrs/unix_domain_stream/server.hpp:706-710 | The close signals once, before its completion's notification. |
| ServerState.ServerState.CloseAllPeers | include/pqrs/unix_domain_stream/server.hpp:737-745 | The loop posts one close for every peer in the map and leaves it empty, with every request aborted. |
| ServerState.ServerState.RunStopTask | include/pqrs/unix_domain_stream/server.hpp:236-242 | Acceptor, peers and probe are closed. |
| ServerState.ServerState.RunHealthCheck | include/pqrs/unix_domain_stream/server.hpp:560-595 | Starts one probe, or fails, or does nothing if stale, unbound or busy. |
| ServerState.ServerState.HealthCheckConnected | include/pqrs/unix_domain_stream/server.hpp:597-663 | A stale connect only cancels its own timer; a failed one fails the check; a good one becomes the probe peer. |
| ServerState.ServerState.HealthCheckTimedOut | include/pqrs/unix_domain_stream/server.hpp:585-593 | An expired timer fails its own check only. |
| ServerState.ServerState.HealthCheckFailed | include/pqrs/unix_domain_stream/server.hpp:676-693 | Has exactly the effect of the model's handler, which closes probe and acceptor and reports `closed` for the current probe only (`FailedCheckClosesListener`). |
| ServerState.ServerState.CloseHealthCheckPeer | include/pqrs/unix_domain_stream/server.hpp:724-734 | Cancels and resets the timeout, and drops the probe peer with its close posted. |
| ServerState.ServerState.SendRequest | include/pqrs/unix_domain_stream/server.hpp:748-764 | Registers the request under the peer, if it is in the map. |
| ServerState.ServerState.RequestTimer | include/pqrs/unix_domain_stream/server.hpp:753-760 | A timeout closes its own peer, if the option says so. |
| ServerState.ServerState.RunDispatcher | include/pqrs/unix_domain_stream/server.hpp:123-134 | Running the dispatcher's head refines the model's step and keeps the invariant. |
| ServerState.ServerState.RunIo | include/pqrs/unix_domain_stream/server.hpp:250-310 | So does running the I/O head. |
| ServerState.ServerState.HandleEvent | include/pqrs/unix_domain_stream/server.hpp:334-359 | So does every call, completion and timer. |

## Left out

- Shutdown and destruction of `client` and `server` (`async_shutdown`, detaching from the dispatcher, `enqueue` refusing a task, the constructor guards): the model's owners live on.
- Real time: deadlines, heartbeats, debounce delays and the health-check interval may elapse at any moment after they were started; intervals and their normalisation are not modelled.
- The dispatcher's debounced task and timer are one flag each, set and cleared by queued tasks; their own queueing is not modelled further.
- Endpoint construction, peer credentials and `verify_peer` are arbitrary Booleans of the event that needs them.
- The file system is a map from resolved paths to files; `weakly_canonical` and its fallbacks are a path chosen per handler, so how a path resolves is not modelled.
- The server's session layer and its socket path bookkeeping are modelled side by side (`ServerState` and `Runtime.ServerSocket`), not in one object.
- `async_send` and `async_respond` of client and server only forward to the peer's `push_frame`, which is modelled.
- ClientState.ClientState.SendRequest: does not record the `not_connected` callback of a request made without a peer; nothing becomes pending and no other state changes.
- ServerState.ServerState.SendRequest: likewise for a peer that is not in the map.
- ServerState.ServerState.RunBind: endpoint, open, bind and listen are one outcome; their separate failures, and what each does to the socket path, are in `Runtime.ServerSocket.Bind`.
- ServerTheorems.PeerClosedExactly: says nothing of a peer whose session was stopped, which is told nothing more by design, nor of a refused one, which is never announced.
- Request callbacks are kept as a multiset, each recorded when it is enqueued; their place among the dispatcher's other tasks is not modelled.
- Signals of a destroyed client peer still reach the client model's slots, where the identity check drops them as it does in the source; destroyed server peers' slots are skipped when they come to the queue's head instead of being removed from the queue at once.
- Queued signals of a destroyed health-check peer still run in the model; they only add late callbacks, which `OldProbeGoesUnnoticed` covers.
- Whether a `bound` and a `closed` of the server alternate, and whether the client's `closed` always follows a `connected`, is not stated: late accept errors, failing probes and request timeouts break both.
- ServerTheorems.ServerDropsNothing: says nothing of a peer whose session was stopped, which was refused, or which was closed locally, because the source discards its data by design.
- ClientTheorems.ClientNeverStalls: says that something leads on, not that it is scheduled in time.
