# Verified models of the Unitree WebRTC transport core

This project models, in Dafny, the parts of the transport library that keep concurrent sessions, buffers and requests
consistent while peers reset, packets get lost and callers cancel. It proves safety over whole runs, exact acceptance
conditions and byte-for-byte round trips.

`dafny verify dfyconfig.toml` checks everything.

| file | models |
|---|---|
| `SessionProtocol.dfy` | session generations across peer handlers, fault slot, router, LiDAR workers and callback queue |
| `Requests.dfy` | in-flight requests, their drop guards, chunk storage and the lifecycle lock |
| `ConnectionLifecycle.dfy` | connect, reconnect, retry, disconnect and audio operations over one gate, with cancellation |
| `EventChannel.dfy`, `EventSizing.dfy` | permit accounting of the callback channel, and how an event's charge is computed |
| `H264Rtp.dfy` | the FU-A reassembler and a sender over a lossy network |
| `Chunks.dfy` | keyed chunk reassembly under count, byte and time budgets |
| `JsonTree.dfy`, `JsonAdmission.dfy`, `PyJson.dfy`, `PyRender.dfy` | bounded JSON: from peer text, from a Python object graph, and handed back to Python |
| `Lidar.dfy` | the voxel bitmap decoder against its simple form |
| `RepeatLog.dfy` | the aggregated diagnostics counter |
| `Common.dfy`, `MapSums.dfy` | shared value types and sums over maps |

## How concurrency is modelled

`SessionProtocol`, `Requests`, `ConnectionLifecycle` and `EventChannel` are step relations. `Next(s, step)` is one atomic
section: what one lock, one atomic access or the code between two await points covers. `Run(states, steps)` is any
interleaving of such steps from the initial state. The theorems speak of every run: what never happens, exactly when a
flag is up or a caller is told what, and that locks, gates and requests can always make progress. Fields described as histories
record what happened and influence no transition. The synchronous sections of the original's objects also appear as
classes that update their fields in place. In `SessionProtocol`, `Requests` and `ConnectionLifecycle` their methods are
proved against the functions the step relation uses; the receiver's loops in `EventChannel` run over many steps and are
proved against sums over the envelopes they pass.

Where the code and a natural reading of it disagree, the model follows the code:

- A retained transport fault does not always stay until it is taken or the generation changes. Installing the same
  generation again (`prepare_ingress`) clears the slot too. `SessionProtocol.PreparingIngressCanLoseAFault` is a run in
  which a current fault vanishes that way, and `SessionProtocol.FaultLostExactlyWhen` says exactly when it happens.
- A NAL within the 8 MiB cap is still refused when one fragment packet, its two header bytes included, is larger than
  8 MiB; `H264Rtp.NalWithinCapCanBeLost` gives such a NAL and `H264Rtp.DeliveredExactlyWhenItFits` the exact condition. A completed NAL that is sent again can be emitted again:
  the network theorem says that only sent NALs come out, not that each comes out once.
- A partial chunk transfer is not tied to a request: a plain response leaves it in place, as `Requests` does.

## Model

| member | source | states |
|---|---|---|
| `SessionProtocol.FaultSlot.RecordTransportFault` | src/infrastructure/rtc_engine/engine.rs:106-123 | a fault of the transport's own generation closes the channel and is retained; a full queue drops the copy and never the retained one; any other fault changes nothing |
| `SessionProtocol.FaultSlot.SetIngressGeneration` | src/infrastructure/rtc_engine/engine.rs:423-430 | installing a generation empties the slot, closes the channel exactly when the generation changes, and leaves queued messages alone |
| `SessionProtocol.FaultSlot.TakeTransportError` | src/infrastructure/rtc_engine/engine.rs:432-434 | hands out the retained fault at most once |
| `SessionProtocol.InvHoldsOverEveryRun` | src/datachannel/core/service.rs:700-751 | in every interleaving all ingress, jobs, pushes and events carry the generation their peer was bound in, faults reset sessions in increasing order, and connect attempts see only fresh validations |
| `SessionProtocol.DeliveredEventIsCurrent` | src/protocol/events.rs:184-201 | every event the receiver returns is of the session current at that moment, and its message came through a peer bound in that same generation |
| `SessionProtocol.PeerDataStaysInItsSession` | src/infrastructure/rtc_engine/handlers.rs:108-118 | data of a peer bound at one generation is delivered in that session and in no later one |
| `SessionProtocol.RoutedDataGoesOut` | src/datachannel/core/service.rs:976-1011 | data of the current session becomes exactly one queued event or decode job, as routed; data of another session becomes nothing |
| `SessionProtocol.TopicDataReachesReceiver` | src/datachannel/core/service.rs:998-1007 | the event of routed topic data stays queued until a receive takes it, and that receive returns it if the session has not changed |
| `SessionProtocol.WorkIsConserved` | src/datachannel/lidar/service.rs:116-132 | in every run work stays underway through job, worker, sender and queue until the receiver takes it, a budget refuses it or a worker finds its session over |
| `SessionProtocol.CurrentWorkMovesOn` | src/datachannel/lidar/service.rs:116-132 | at each stage of the decoding, work of the current session moves on |
| `SessionProtocol.TakenEventIsDelivered` | src/protocol/events.rs:184-201 | a receive hands over exactly the event it takes if that event is current, and nothing otherwise |
| `SessionProtocol.MessageIsConserved` | src/infrastructure/rtc_engine/handlers.rs:108-118 | a message on its way in stays on its way until a full queue refuses it or the router processes it |
| `SessionProtocol.PeersCarryTheirGeneration` | src/infrastructure/rtc_engine/handlers.rs:17-106 | a peer is bound to the transport's generation and its media go out under it while it is current |
| `SessionProtocol.LidarDataCanBeDelivered` | src/datachannel/lidar/service.rs:159-172 | with a free worker, routed LiDAR data can be decoded, sent and delivered |
| `SessionProtocol.TopicDataCanBeDelivered` | src/datachannel/core/service.rs:976-1011 | routed topic data can be delivered |
| `SessionProtocol.PeerDataReachesRouter` | src/infrastructure/rtc_engine/handlers.rs:108-118 | a message of a current peer can reach an idle router |
| `SessionProtocol.RetainedFaultIsCurrent` | src/infrastructure/rtc_engine/engine.rs:106-123 | a retained fault carries the transport's current generation in every reachable state |
| `SessionProtocol.FaultLostExactlyWhen` | src/infrastructure/rtc_engine/engine.rs:423-434 | the three steps that empty the slot, and that the only one losing a fault without routing it or changing generation is preparing ingress in the session the transport is already in |
| `SessionProtocol.PreparingIngressCanLoseAFault` | src/datachannel/core/service.rs:669-673 | a reachable run in which a current fault disappears unprocessed |
| `SessionProtocol.FaultResetsAtMostOneSession` | src/datachannel/core/service.rs:716-735 | two processed faults belong to different generations, so a fault seen through slot and queue resets one session, in either order |
| `SessionProtocol.RecordedFaultIsRetained` | src/infrastructure/rtc_engine/engine.rs:106-123 | in every run a fault of the transport's generation is retained and, room permitting, queued; any other leaves no trace |
| `SessionProtocol.TakenFaultResets` | src/datachannel/core/service.rs:700-735 | the router takes the retained fault, and processing it in its own session starts a reset |
| `SessionProtocol.FaultCanReset` | src/datachannel/core/service.rs:700-735 | a fault resets the session even when the queue has no room for its copy |
| `SessionProtocol.SessionMovesExactlyWhen` | src/datachannel/core/service.rs:648-655 | the session moves, by one, exactly at the begin of a reset and at a processed fault of the current session |
| `SessionProtocol.ResetTakesEffect` | src/datachannel/core/service.rs:648-673 | a reset installs the new session in the transport and takes the validation back |
| `SessionProtocol.LifecycleSectionsExclude` | src/datachannel/core/service.rs:648-720 | routing, resets and preparing ingress exclude each other |
| `SessionProtocol.ValidationWasProcessed` | src/datachannel/core/service.rs:880-888 | a recorded validation was processed by the router in the session the message was stamped with |
| `SessionProtocol.ConnectSawFreshValidation` | src/connection/lifecycle.rs:136-158 | a connect that succeeds saw a validation processed after it took the gate, in a session begun after that, through a peer bound in that session |
| `SessionProtocol.ValidationIsSeen` | src/datachannel/core/service.rs:583-606 | a prepared connect succeeds for as long as a validation processed in its session is not taken back |
| `SessionProtocol.ConnectCanPrepare` | src/connection/lifecycle.rs:136-147 | a connect can take the gate and reset into a new session, unvalidated |
| `SessionProtocol.PreparedCanSucceed` | src/datachannel/core/service.rs:880-888 | a prepared connect succeeds once a validation of the current session is processed |
| `Requests.PendingRequests.Register` | src/datachannel/core/service.rs:412-436 | admission exactly when the channel is open, the key is free and fewer than 128 requests are pending; a refusal changes nothing |
| `Requests.PendingRequests.ResolvePendingResponse` | src/datachannel/core/service.rs:1301-1322 | the entry is removed and its caller told the response if it is of the current session and meets the expected topic and api id, and a failure otherwise |
| `Requests.PendingRequests.FailPending` | src/datachannel/core/service.rs:841-846 | removes the entry and tells its caller, or changes nothing |
| `Requests.PendingRequests.FailAllPending` | src/datachannel/core/service.rs:1324-1336 | every pending caller and nobody else is told a failure, and the map is empty |
| `Requests.PendingRequests.DropGuard` | src/datachannel/core/service.rs:82-93 | a guard removes the entry only while the entry carries its own token |
| `Requests.InvHoldsOverEveryRun` | src/datachannel/core/service.rs:648-667 | in every interleaving pending entries are unanswered, watched by their own live guard, at most 128, and of the current session whenever no bump is in progress |
| `Requests.EveryRequestGetsExactlyOneOutcome` | src/datachannel/core/service.rs:413-454 | an admitted request is always either pending or answered and never both, its answer never changes, and it is answered once its guard is gone |
| `Requests.OutcomesAreFinal` | src/datachannel/core/service.rs:1301-1336 | no later step alters what a caller was told |
| `Requests.StaleResponseBranchIsUnreachable` | src/datachannel/core/service.rs:1301-1322 | whenever a response finds an entry, the entry is of the current session |
| `Requests.ResponseArrivesInItsOwnSession` | src/datachannel/core/service.rs:122-149 | in every run a caller gets a response only in the session its request was admitted in, and only one that meets its own expectation |
| `Requests.SettledReplyIsTold` | src/datachannel/core/service.rs:1301-1322 | in every run a settled reply is told to the caller under its key exactly when it has a wanted topic and the wanted api id; otherwise the caller is told a failure |
| `Requests.RoutedReplyReachesCaller` | src/datachannel/core/service.rs:753-763 | a routed reply reaches the caller pending under its key when it is settled |
| `Requests.JoinedChunksReachCaller` | src/datachannel/core/service.rs:799-815 | a chunk that completes its transfer brings the caller the joined bytes, up to 1 MiB |
| `Requests.RoutingDecides` | src/datachannel/core/service.rs:765-827 | what each routed message decides: its reply, the joined chunks, nothing yet, or a failure |
| `Requests.EntryLeavesExactlyWhen` | src/datachannel/core/service.rs:841-846 | a pending entry leaves exactly by a settlement, an expiry, a reset, a lost heartbeat or its own guard, and what its caller is told |
| `Requests.PublishedExactlyWhen` | src/datachannel/core/service.rs:413-445 | admission exactly under free locks, with a free key and fewer than 128 pending, and what it records |
| `Requests.DueCallerIsFailed` | src/datachannel/core/service.rs:829-839 | a caller whose chunks are due is told a failure before the expiry ends, unless its own guard is first |
| `Requests.UnsentRequestIsRemoved` | src/datachannel/core/service.rs:438-446 | a request that could not be sent keeps the lock until its guard is gone and is answered by then |
| `Requests.ChunksGoWithTheirRequest` | src/datachannel/core/service.rs:82-93 | a guard that owned its entry leaves no chunks under its key |
| `Requests.ResetStepsTakeEffect` | src/datachannel/core/service.rs:648-667 | a reset moves the session by one, clears the chunks and empties the table |
| `Requests.LockCanAlwaysBeReleased` | src/datachannel/core/service.rs:413-454 | in every state of every run the lifecycle lock can be released |
| `Requests.RequestCanSucceed` | src/datachannel/core/service.rs:396-454 | a request can be admitted, sent, answered and told its reply |
| `Requests.GuardDropIsLocal` | src/datachannel/core/service.rs:82-93 | a guard's drop, including its window between the two removals, never takes another request's entry nor the chunks of a registered key |
| `Requests.ChunksStayWithinBudgets` | src/datachannel/core/service.rs:765-839 | the chunk budgets hold in every state of the router, whatever guards, resets and expiries interleave |
| `ConnectionLifecycle.ConnectionFlags.RequestDisconnect` | src/connection/service.rs:191-196 | flag and version change together, as the machine's request step does |
| `ConnectionLifecycle.ConnectionFlags.StartCheck` | src/connection/service.rs:24-32 | an outdated attempt changes nothing and is refused; a current one clears the flag |
| `ConnectionLifecycle.ConnectionFlags.Rollback` | src/connection/service.rs:206-209 | the connected flag is down before the engine close is awaited |
| `ConnectionLifecycle.AudioPlayback.BeginStop` | src/connection/lifecycle.rs:26-32 | a stored cleanup is kept; otherwise an owned sender becomes the cleanup |
| `ConnectionLifecycle.AudioPlayback.EndStop` | src/connection/lifecycle.rs:33-42 | after a joined stop there is neither cleanup nor sender |
| `ConnectionLifecycle.AudioPlayback.Play` | src/connection/lifecycle.rs:20-23 | the sender is owned before its start can fail |
| `ConnectionLifecycle.InvHoldsOverEveryRun` | src/connection/lifecycle.rs:99-182 | gate ownership, task ownership, flag and version laws and log consistency hold in every interleaving with cancellation at every await point |
| `ConnectionLifecycle.RetryStartsOnlyAfterExplicitStart` | src/connection/service.rs:224-239 | after a disconnect request a retry passes its start check only if an explicit connect or reconnect subscribed after the request and passed its own start check in between |
| `ConnectionLifecycle.RequestOutdatesQueuedAttempts` | src/connection/service.rs:104-116 | an attempt that had subscribed before a disconnect request never passes its start check after it |
| `ConnectionLifecycle.ConnectedOnlyThroughLaterAttempt` | src/connection/service.rs:186-209 | once a disconnect has returned, a true connected flag was set by an attempt that subscribed after that disconnect's request |
| `ConnectionLifecycle.ConnectedExactlyWhen` | src/connection/service.rs:128-209 | in every run the flag is up exactly when some operation connected and no attempt began, rolled back or was dropped to its close since |
| `ConnectionLifecycle.SuccessLeavesConnected` | src/connection/service.rs:118-126 | an operation that connects the engine and returns without failing leaves the flag up as its own |
| `ConnectionLifecycle.SessionSuccessWasValidated` | src/connection/lifecycle.rs:136-158 | a session's attempt that returns successfully has waited for its validation |
| `ConnectionLifecycle.ReconnectClosesFirst` | src/connection/service.rs:128-133 | a connect turns to the engine at once, any other attempt joins an engine close first |
| `ConnectionLifecycle.IntentionalExactlyWhen` | src/connection/service.rs:24-32 | the intentional flag is up exactly when a disconnect was requested and no attempt passed its start check since |
| `ConnectionLifecycle.ConnectCanSucceed` | src/connection/service.rs:118-148 | from a free gate an explicit attempt, or a retry that is not declined, can connect and return |
| `ConnectionLifecycle.DisconnectCanComplete` | src/connection/service.rs:198-204 | from a free gate a disconnect can complete, flag down and intention recorded |
| `ConnectionLifecycle.FailureCanReturn` | src/connection/lifecycle.rs:152-158 | a failed or outdated attempt can return with the flag down |
| `ConnectionLifecycle.GateSerializesEngineAndAudio` | src/connection/lifecycle.rs:136-158 | no two operations own the gate, every engine close and audio cleanup under way belongs to the gate's owner, and a free gate means neither is under way |
| `ConnectionLifecycle.CancelledOperationDrainsFirst` | src/connection/lifecycle.rs:99-113 | a cancelled operation keeps the gate at every later state until it has joined its audio cleanup and then its engine close, and gives it up at that step |
| `ConnectionLifecycle.GateCanAlwaysBeFreed` | src/connection/lifecycle.rs:99-113 | in every state of every run the gate can be freed |
| `ConnectionLifecycle.SenderExactlyWhen` | src/connection/lifecycle.rs:20-32 | a sender is owned exactly when one was played, started or not, and no stop has begun since |
| `ConnectionLifecycle.AudioCanPlayOrStop` | src/connection/session.rs:274-316 | from a free gate audio can be played, leaving a sender, and stopped, leaving none |
| `ConnectionLifecycle.UnplayedAudioCanReturn` | src/connection/session.rs:281-300 | a sender that could not start is shut down before the call returns |
| `EventChannel.AccountingHoldsOverEveryRun` | src/protocol/events.rs:115-167 | in every interleaving counters equal the sums over live envelopes, stay within the limits, and each envelope is in exactly one place |
| `EventChannel.AdmittedSendCannotFail` | src/protocol/events.rs:142-167 | by a counting argument over distinct queued envelopes, an admitted event meets neither a full nor a disconnected queue |
| `EventChannel.ReleaseCannotUnderflow` | src/protocol/events.rs:31-37 | a permit's charge never exceeds its counter |
| `EventChannel.AdmissionIsFinalInEveryRun` | src/protocol/events.rs:130-167 | both of these in every state of every run |
| `EventChannel.OnlyDispatchedRemainCharged` | src/protocol/events.rs:170-181 | once the receiver is gone every charged envelope was returned to the dispatcher and is still held there; the counters are their sums, and zero when there are none |
| `EventChannel.ClosedAdmitsNothing` | src/protocol/events.rs:130-133 | after closing no envelope is ever created again |
| `EventChannel.OpensExactlyWhen` | src/protocol/events.rs:74-98 | a channel opens exactly for a capacity of 1 to 256, empty and uncharged |
| `EventChannel.AdmittedExactlyWhen` | src/protocol/events.rs:130-143 | in every run an event is admitted exactly when the channel is open, its generation current and the byte and count limits of its class leave room |
| `EventChannel.ReturnedExactlyWhen` | src/protocol/events.rs:198-200 | a taken envelope is returned exactly when it is current at the check |
| `EventChannel.QueuesAreFifo` | src/protocol/events.rs:154-191 | an admitted envelope joins its queue at the end and the receiver takes from the front |
| `EventChannel.ReleaseGivesBack` | src/protocol/events.rs:31-37 | a release gives back exactly its envelope's charge |
| `EventChannel.EventCanBeReceived` | src/protocol/events.rs:115-201 | a current event within the limits can go from its sender to the dispatcher |
| `EventChannel.ReceiverCanBeDropped` | src/protocol/events.rs:170-181 | an idle receiver can close, give back every queued charge and be gone |
| `EventChannel.EventReceiver.TryDelivery` | src/protocol/events.rs:184-202 | returns the first envelope that is current when it is checked, control before media, gives back exactly the charges of the stale ones before it, and otherwise tells an empty channel from one without senders |
| `EventChannel.EventReceiver.DropReceiver` | src/protocol/events.rs:170-181 | closes, empties both queues and gives back exactly their charges |
| `EventSizing.SizeInOrder` | src/protocol/events.rs:249-283 | whatever order pending values are taken in, step by step, the worklist returns the structural size up to 2 MiB and the largest number beyond |
| `EventSizing.JsonSize` | src/protocol/events.rs:249-283 | the same for the stack order of the code |
| `EventSizing.EventSize` | src/protocol/events.rs:284-307 | a charge is within its class limit exactly when the real footprint is and the JSON is at most 2 MiB, and is then exact; oversized JSON is charged the largest number |
| `EventSizing.SizeByCount` | src/protocol/events.rs:249-283 | the structural size is 128 bytes per value and entry, all text, and one slot per reserved element |
| `EventSizing.FootprintByKind` | src/protocol/events.rs:284-307 | class and footprint of each kind of event |
| `H264Rtp.Reassembler.ProcessPayload` | src/video/h264_rtp.rs:55-117 | one call is one step of the reassembly machine, keeping the buffer within 8 MiB |
| `H264Rtp.Reassembler.Reset` | src/video/h264_rtp.rs:28-32 | returns to the idle state |
| `H264Rtp.UnfragmentedPacketByItsBits` | src/video/h264_rtp.rs:56-66 | from every state a packet that is no fragment leaves the idle state and is emitted as it is exactly when its type bits are 1 to 23, its forbidden bit is clear and it has 1 byte to 8 MiB |
| `H264Rtp.MalformedFragmentResets` | src/video/h264_rtp.rs:67-80 | a fragment without its second byte, with both marks, the reserved bit or no NAL type is refused |
| `H264Rtp.StartIsStaleInTheHalfBehind` | src/video/h264_rtp.rs:86-101 | a start is refused exactly when its sequence number lies in the half range behind the expected one, and otherwise opens its NAL |
| `H264Rtp.HistoryValid` | src/video/h264_rtp.rs:81-116 | the buffer never exceeds 8 MiB over any history of either entry point |
| `H264Rtp.OpenNalProvenance` | src/video/h264_rtp.rs:97-112 | an open NAL is the join of all calls since its start fragment, with nothing in between |
| `H264Rtp.FragmentedNalProvenance` | src/video/h264_rtp.rs:55-117 | an emitted fragmented NAL comes from consecutive calls with one header, one timestamp and sequence numbers consecutive mod 2^16 |
| `H264Rtp.FragmentRoundTrip` | src/video/h264_rtp.rs:61-81 | parsing inverts the fragmentation of section 5.8 of RFC 6184 for every header and part, or rejects exactly the unusable ones |
| `H264Rtp.DeliveredExactlyWhenItFits` | src/video/h264_rtp.rs:81-116 | from any state a NAL with a start that is not stale comes back byte for byte at its last fragment exactly when it fits |
| `H264Rtp.NalWithinCapCanBeLost` | src/video/h264_rtp.rs:55-59 | a NAL of exactly 8 MiB that is sent as one large fragment and an empty last one is never emitted |
| `H264Rtp.StaleStartThenFreshNal` | src/video/h264_rtp.rs:86-97 | a stale start leaves the idle state, so the next NAL is delivered |
| `H264Rtp.LossyNetworkEmitsOnlySentNals` | src/video/h264_rtp.rs:36-117 | under any loss, repetition and reordering of a well-formed stream of at most 2^16 packets, whatever is emitted is a NAL the sender sent |
| `H264Rtp.InOrderStreamIsDelivered` | src/video/h264_rtp.rs:36-117 | a well-formed stream of any length delivered in order, sequence numbers wrapping, comes out as exactly its NALs of type 1 to 23 and its deliverable fragmented NALs, in order |
| `H264Rtp.InOrderAt` | src/video/h264_rtp.rs:36-47 | in-order delivery hands over each packet of the stream once under its own sequence number |
| `Chunks.ChunkAssembler.InsertChunk` | src/datachannel/core/chunks.rs:51-65 | one insert: the specified answer and state, an error forgetting its own key |
| `Chunks.ChunkAssembler.InsertChecked` | src/datachannel/core/chunks.rs:67-130 | refusals in the order of the code, repeats ignored, completion at the last index |
| `Chunks.ChunkAssembler.Expire` | src/datachannel/core/chunks.rs:38-49 | exactly the transfers past their deadline are removed and listed once |
| `Chunks.ExpiredExactlyWhen` | src/datachannel/core/chunks.rs:38-49 | over every history an expiry removes a transfer exactly when 30 s have passed since the chunk that opened it, and leaves any other unchanged |
| `Chunks.RefusedExactlyWhen` | src/datachannel/core/chunks.rs:76-109 | a chunk is refused exactly when its numbers make no sense, it contradicts the open transfer or a budget is short |
| `Chunks.RepeatChangesNothing` | src/datachannel/core/chunks.rs:94-100 | an identical repeat changes and answers nothing |
| `Chunks.ChunkAssembler.Remove` | src/datachannel/core/chunks.rs:30-32 | forgets one key, as that step of a history does |
| `Chunks.ChunkAssembler.Clear` | src/datachannel/core/chunks.rs:34-36 | forgets everything, as that step of a history does |
| `Chunks.InsertKeepsValid` | src/datachannel/core/chunks.rs:67-130 | budgets and byte counters survive every insert, so no subtraction underflows |
| `Chunks.InsertIsLocal` | src/datachannel/core/chunks.rs:51-65 | other keys are untouched by any answer |
| `Chunks.BudgetsHoldOverEveryHistory` | src/datachannel/core/chunks.rs:38-130 | at most 64 transfers, 16 MiB each and 64 MiB in all, counters equal to the stored chunks, over every history |
| `Chunks.Pigeonhole` | src/datachannel/core/chunks.rs:121-129 | as many distinct indices in 1..total as total are all of them |
| `Chunks.CompletionProvenance` | src/datachannel/core/chunks.rs:92-129 | a completion joins one supplied chunk per index in index order, each of them brought less than 30 s after the transfer's first |
| `Chunks.AnyArrivalOrderCompletesOnce` | src/datachannel/core/chunks.rs:67-130 | any arrival order with identical repeats and foreign traffic completes once, at the last missing index, with the chunks joined in index order, as long as each new chunk finds room when it arrives; what happens after the completion does not matter |
| `Chunks.RoomyHistoryIsHarmless` | src/datachannel/core/chunks.rs:94-109 | it is enough that at each arrival the other transfers leave room for the whole set |
| `Chunks.AnyOrderFromEmptyCompletes` | src/datachannel/core/chunks.rs:67-130 | from an empty assembler every order of a set's chunks, with any identical repeats, answers nothing until the last missing index and then the joined chunks |
| `JsonTree.DenotesUnique` | src/protocol/ingress.rs:99-117 | a tree with repeated keys has at most one value, the one that keeps each key's last entry |
| `JsonAdmission.Visit` | src/protocol/ingress.rs:36-49 | a visit succeeds exactly when the subtree's visits and nesting fit, and spends exactly those visits |
| `JsonAdmission.VisitSeq` | src/protocol/ingress.rs:82-97 | the same for arrays, element by element |
| `JsonAdmission.VisitMap` | src/protocol/ingress.rs:99-117 | the same for objects, discarded duplicates included |
| `JsonAdmission.VisitEntry` | src/protocol/ingress.rs:120-137 | a key costs one visit before its value |
| `JsonAdmission.ParseJson` | src/protocol/ingress.rs:16-29 | accepted exactly within 1 MiB, 65536 values plus keys and 64 nested containers; the value keeps the last entry of each key |
| `PyJson.Convert` | src/interface/utils.rs:69-140 | ends on every graph; succeeds exactly when an unfolding fits the budgets, nesting and current path, then spends exactly its counts and restores the path |
| `PyJson.ConvertList` | src/interface/utils.rs:117-124 | the list loop against that condition |
| `PyJson.ConvertDict` | src/interface/utils.rs:125-135 | the dictionary loop against that condition |
| `PyJson.ConvertEntry` | src/interface/utils.rs:128-132 | one entry: a key or value that cannot be charged rules out the whole |
| `PyJson.ConvertScalar` | src/interface/utils.rs:76-100 | scalars, with 64-bit integers, finite floats and charged strings |
| `PyJson.CopyKey` | src/interface/utils.rs:129-130 | a key is a UTF-8 string whose header and bytes are charged |
| `PyJson.JsonBudget.CheckChildren` | src/interface/utils.rs:44-52 | the early check holds exactly when every child's minimal charge fits |
| `PyJson.ChildrenFit` | src/interface/utils.rs:117-126 | the early check refuses nothing that would fit |
| `PyJson.NotBelowItself` | src/interface/utils.rs:110-113 | a container with a finite unfolding does not occur below itself, so the cycle check refuses nothing that would fit |
| `PyJson.CyclicHasNoUnfolding` | src/interface/utils.rs:110-113 | a container on a cycle has no unfolding |
| `PyJson.PyAnyToJsonValue` | src/interface/utils.rs:61-67 | succeeds exactly when the graph has an unfolding of nesting at most 64, 16384 nodes and 1 MiB, and returns that unfolding's value |
| `PyJson.BudgetByCount` | src/interface/utils.rs:27-59 | the budgets charge one node and one value's size per value, a header per key, and the bytes of texts and keys |
| `PyJson.ScalarUnfoldings` | src/interface/utils.rs:76-106 | which objects convert to which scalars: 64-bit integers, finite floats and UTF-8 strings do, anything else does not |
| `PyJson.NonTextKeyHasNoUnfolding` | src/interface/utils.rs:54-58 | a dictionary with a key that is no UTF-8 string does not convert |
| `PyRender.JsonValueToPy` | src/interface/utils.rs:149-182 | the new objects stand for the value with one entry per key, and no existing object is changed, though containers are filled in place |
| `PyRender.RenderingUnfolds` | src/interface/utils.rs:149-182 | what stands for a value has a finite unfolding, and it denotes the value |
| `PyRender.RenderingRoundTrip` | src/interface/utils.rs:61-182 | a value read back from its Python form is the value itself |
| `PyRender.RenderingAdmissible` | src/interface/utils.rs:61-182 | every Python form of a value is convertible exactly when the value's own nesting, number of values and bytes are within the limits |
| `PyRender.MatchPrice` | src/interface/utils.rs:27-58 | a tree with one entry per key is charged what the value it spells out costs, whatever the order of the keys |
| `PyRender.ThereAndBack` | src/interface/utils.rs:61-182 | handing a value to Python and converting it back succeeds exactly when the value has nesting at most 64, 16384 values and 1 MiB, and then returns the same value |
| `Lidar.TestEach` | src/datachannel/lidar/codec.rs:115-126 | the eight-way loop emits the set bits of a byte in order |
| `Lidar.ShiftOut` | src/datachannel/lidar/codec.rs:81-94 | the shifting loop, which stops early, emits the same |
| `Lidar.BitsToPoints` | src/datachannel/lidar/codec.rs:102-130 | the simple form yields the points of all set positions in order |
| `Lidar.BitsToPointsOptimized` | src/datachannel/lidar/codec.rs:47-98 | refused exactly beyond 1 MiB, non-positive resolution or a million points; otherwise the simple form's points, three numbers per set bit |
| `Lidar.WireVoxel` | src/datachannel/lidar/codec.rs:76-79 | slice, row and column of a bit are those of its linear index (z * 128 + y) * 128 + x |
| `Lidar.PointAt` | src/datachannel/lidar/codec.rs:87-90 | the three numbers of the i-th set bit are the column, row and slice of its linear index, scaled and shifted, in that order |
| `Lidar.SetBitsExactly` | src/datachannel/lidar/codec.rs:71-95 | exactly the set bits are listed, in strictly increasing order |
| `Lidar.PopCountIsSetBits` | src/datachannel/lidar/codec.rs:53-58 | the population count is the number of listed positions |
| `Lidar.RebuildRoundTrip` | src/datachannel/lidar/codec.rs:71-95 | the bitmap is rebuilt from the emitted linear indices |
| `Lidar.PointsDetermineBitmap` | src/datachannel/lidar/codec.rs:71-95 | two bitmaps of one size with the same points are equal |
| `RepeatLog.Log.RecordAt` | src/diagnostics.rs:39-52 | one record as a step of the counter machine |
| `RepeatLog.Log.TakePending` | src/diagnostics.rs:54-58 | a flush reports everything pending |
| `RepeatLog.Log.ResetAll` | src/diagnostics.rs:76-86 | a reset reports everything pending and forgets the window |
| `RepeatLog.WindowDecides` | src/diagnostics.rs:45-51 | a later record is reported with all that is pending exactly when 5 s or more have passed since the last report |
| `RepeatLog.ReportsAreSpaced` | src/diagnostics.rs:39-52 | over any records and flushes inside the window, the next record is reported exactly when the window is over |
| `RepeatLog.FlushReportsPending` | src/diagnostics.rs:54-86 | a flush or reset reports exactly what is pending |
| `RepeatLog.EveryRecordAccountedFor` | src/diagnostics.rs:39-87 | over any operations reported plus pending plus records that met a full counter equal the records |
| `RepeatLog.ReportsPlusPendingEqualRecords` | src/diagnostics.rs:39-87 | short of 2^64 records, reported plus pending equal the records |

## Left out

- Generations, cancellation versions and request tokens are unbounded numbers: 64-bit wrap-around is not modelled.
- Signaling, SDP, cryptography, LZ4, media codecs, peer setup and the thread spawning of workers: foreign calls or I/O.
  In `ConnectionLifecycle` the engine's calls and its close are abstract steps that may fail or finish at any time.
- `auto_reconnect` as a loop: each of its attempts is a separate retry operation; the number of retries and the back-off
  times are not modelled.
- Whether an accepted event fits the callback budget is a free choice in `SessionProtocol`; `EventChannel` has the budget.
- The transport's ready state in the step relations, the throttle map and the heartbeat's clock; a heartbeat failure is a
  step that fails all pending requests and clears the chunks.
- Key derivation from messages, and how an expectation is built from a request's topic.
- JSON lexing: admission starts from a syntax tree and the text's length, so malformed text and non-finite number lexemes
  are not modelled.
- Python object protocols: `PyJson` covers None, booleans, integers, floats, strings, exact lists and dictionaries over a
  heap that does not change during the conversion. Error texts for the node and the byte budget are merged.
- The sizes of a JSON value, a string header and an event are parameters, since they depend on the platform.
- Lidar.BitsToPointsOptimized: coordinates are exact reals, so single-precision rounding and the finite-range checks of
  `validate_geometry` are not modelled.
- EventChannel.EventReceiver.TryDelivery: the generation may change between its checks, but no event arrives meanwhile;
  concurrent senders are in the step relation.
- Time is a number of milliseconds.
- Identity of Python scalars: `PyRender` makes a new object for each, where Python may share one. NumPy output, binary
  framing and the subscription set are plumbing.
