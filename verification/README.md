# Verification of the message engine

Dafny models of the in-memory message engine of the IM server, with proofs about every run of it. `dafny verify
dfyconfig.toml` checks all of it.

The centre is the **channel pipeline**. One queue carries the cursors of six stages: decrypt, permission, storage, sendack,
deliver, forward. Each stage has at most one request outstanding and a retry timer; a message may leave only when sendack
and deliver have both passed it; becoming leader or proxy rewinds every cursor. `ChannelSpec` gives the rules over values,
`Channel` is the object with the fields and branches of the source, proved to follow the rules, and `Stages` holds what
the workers do to a batch. `ChannelRuns` puts them together with an arbitrary environment, `ChannelInvariant` proves the
invariant, and `ChannelTheorems` and `ChannelProgress` draw the conclusions: no index out of range, conservation over
leader changes, finality of verdicts on one node, progress. `ChannelReports` adds that nothing
leaves unreported, and that reports come in order and after the store.
`ChannelIntake` and `ChannelOrigin` say what comes in and where everything that is
stored or delivered comes from: queued in order, admitted, decoded. `ChannelForward` follows a message from proxy to leader, where its verdict is lost, and `ChannelStale` shows what happens
without the one assumption made; `ChannelReach` builds the runs that both exhibit.

Around it stand the structures the engine rests on:

- `KeyLock`: the per-key lock with its cleaner as interleaved atomic actions; mutual exclusion, exact reference counts, no deadlock.
- `RetryHeap`, `RetryKeys`, `RetryQueue`: the heap of unacknowledged messages, the map beside it, the scan that re-inserts
  while it drains, and the bound on retries.
- `PowerOfTwo`, `RingBuffer`: the growing byte ring as a byte sequence, and its size arithmetic.
- `Framing`: base-128 lengths and the stream splitters; independence of chunking.
- `IndexQueue`, `UserQueues`, `UserHandler`, `UserRoutes`: the user handler's four queues against arbitrary answers, and
  which lane each frame enters, is issued from and is settled by.
- `NodeDelivery`: the sender to another node, loop and worker together.
- `Conversation`: the write-behind cache of read positions.
- `LinkedLists`: the intrusive list of handlers.

## Assumptions

- A request of a channel stage is answered at most once, and not after a role change. The code does not ensure the second
  part: a role change keeps the unique number that answers are told apart by. `ChannelStale` gives, for leader and
  proxy, the exact condition on an answer, and runs of both in which a late answer ends out of range.
- Message ids in a channel are distinct; ids in a store result are ids that were sent to the store. A forward that is
  repeated after its answer was lost can bring an id to a leader twice; such runs of the leader are not covered.
- To which node a forward goes and who leads there is up to the environment; `ChannelForward` joins a run of the proxy to
  one of the leader through the message forwarded.
- Clocks, store answers, remote nodes, connections and leader elections are parameters or nondeterministic events.
- Indices, sequence numbers and times are unbounded integers.
- The retry interval is positive and the clock read during a scan is not behind the scan's time.
- A store write of a read position keeps the larger value.

## Where code and comments differ

- A verdict is meant to decide what happens to a message. A proxy forwards failed messages with the others, and the leader
  proposes each with verdict success. One whose sender was offline, or whose payload could not be decoded, is stored,
  delivered and acknowledged as a success (`ChannelForward.FailedMessageIsStoredElsewhere`); so is one that the permission
  check of this node had refused, with an acknowledgement, before the node lost the leadership
  (`ChannelForward.RefusedMessageIsStoredElsewhere`). `ChannelForward.LeaderAgreesIff` says exactly when the leader agrees
  with the proxy.
- `CeilToPowerOfTwo` is documented to return n for a power of two and the next higher one otherwise. It returns 2 for 1
  (`PowerOfTwo.CeilFailsForOne`) and rounds some integers above 2^32 to no power of two;
  `PowerOfTwo.CeilIsNextPowerIff` says for every integer whether it does what is documented.
- `WriteByte` is documented to write one byte; on a full buffer of 4096 bytes or more it stores out of range
  (`RingBuffers.Buffer.StoreIsInRangeIff`, `RingBuffers.FailingWriteByte`).
- The retry scan stops at the first message whose key an acknowledgement has removed after the message was popped, and
  leaves the other due messages to the next tick (`RetryQueues.BrokenOffScan`; `RetryQueues.LeavesNothingIff` says when).
- Adding a retry whose key is in flight logs a warning and returns from the map, but still goes to the heap
  (`RetryQueues.RepeatedKey`; `RetryQueues.RetryQueue.StartInFlightTimeout` says when).

## Model

| member | source | states |
|---|---|---|
| Messages.LimitSize | internal/server/msg_queue.go:115-127 | The accumulating loop returns the specification `Limit` of its batch |
| Messages.LimitIsLongest | internal/server/msg_queue.go:115-127 | A limited batch is the longest prefix within the limit, and one message if even the first is too big |
| Messages.LimitIsPrefix | internal/server/msg_queue.go:115-127 | A limited batch is a prefix and never empty unless its input is, which is why no stage ever issues an empty batch |
| Stages.HandlePayloadDecrypt | internal/server/channel_reactor_process.go:166-220 | An encrypted message with a connection is marked as plain, carries the decoded payload if the connection is online and gives any, keeps the rest of its packet, and keeps its verdict exactly if its sender was online, it had a payload and that was decoded without an error; every other message is left alone |
| Stages.NumberedByItsResult | internal/server/channel_reactor_process.go:861-882 | A message with a result takes exactly its own sequence number and the verdict of the store call, whatever other results come |
| Stages.NotNumbered | internal/server/channel_reactor_process.go:861-882 | A message without a result is answered unchanged |
| Stages.ProcessPermission | internal/server/channel_reactor_process.go:496-542 | An accepted message that is no system message gets each code exactly for the cause listed for that code, told from the answers alone; every other message, and all of a message but its verdict, stays |
| Stages.PermissionHasCause | internal/server/channel_reactor_process.go:544-702 | The decision chain gives success exactly to a sender who is admitted, to a person here, to a person on another node or to a group, and each refusal exactly for its own cause |
| Stages.ProcessStorage | internal/server/channel_reactor_process.go:783-906 | Exactly the accepted, persistent messages go to the store; each result goes to the first message with its id, with the verdict of the call, and every other message is answered unchanged, for any batch |
| Stages.AppliedIsNumbered | internal/server/channel_reactor_process.go:861-882 | In a batch without repeated ids the loop over results is the same as giving each message its own results |
| Stages.ProcessSendack | internal/server/channel_reactor_process.go:985-1033 | The acknowledgements of a batch, one for each message not from the system device: those for senders of this node are written in order, those for every other node are sent to that node and no other, in order |
| Stages.ProcessForward | internal/server/channel_reactor_process.go:301-400 | The whole batch, failed messages included, goes to the leader; the answer is a success exactly if the leader accepts; a leader that was looked up anew is reported, and only then one is, together with a failure |
| Stages.HandleChannelForward | internal/server/server_cluster.go:66-102 | A node that leads the channel proposes every forwarded message anew, with a clean verdict and unencrypted; any other node proposes none |
| Stages.AcksMember | internal/server/channel_reactor_process.go:985-1033 | An acknowledgement is sent if and only if it is the one of some message of the batch whose device is not the system device |
| Stages.ProcessDeliver | internal/server/channel_reactor_process.go:1143-1180 | The delivered part of a batch is the messages with verdict success, in order |
| Stages.SelectMember | internal/server/channel_reactor_process.go:1143-1180 | Filtering a batch keeps a message if and only if it is in the batch and qualifies |
| Channel.ChannelMsgQueue.constructor | internal/server/msg_queue.go:36-43 | A new queue is the start state of the rules: offset 1, all cursors 0 |
| Channel.ChannelMsgQueue.TruncateTo | internal/server/msg_queue.go:45-52 | Cuts up to an index, as the rule `Truncate` says, if the index is in range |
| Channel.ChannelMsgQueue.AppendMessage | internal/server/msg_queue.go:58-61 | Appends and advances the last index |
| Channel.ChannelMsgQueue.SliceWithSize | internal/server/msg_queue.go:74-91 | The batch between two indices under a size limit, nothing for an empty or already dropped range |
| Channel.ChannelMsgQueue.ResetIndexes | internal/server/msg_queue.go:93-108 | All six cursors go back to offset - 1, nothing else changes |
| Channel.ChannelMsgQueue.WriteBackAnswers | internal/server/channel_step.go:102-115 | The nested write-back loops give each queued message of the range the first answer with its id and change nothing else |
| Channel.Channel.constructor | internal/server/channel.go:92-112 | A new channel is the start state of the rules |
| Channel.Channel.HasReady | internal/server/channel.go:114-144 | True exactly when uninitialized or some stage of the role has a free flag and work |
| Channel.Channel.Ready | internal/server/channel.go:146-251 | Issues exactly the requests of the rules, one batch for each free stage of the role with work, and raises exactly their flags |
| Channel.Channel.Tick | internal/server/channel.go:312-387 | All seven retry timers advance; one that reaches 20 frees its stage |
| Channel.Channel.BecomeLeader | internal/server/channel.go:473-518 | Leader with all cursors at offset - 1 and all flags idle |
| Channel.Channel.BecomeProxy | internal/server/channel.go:483-518 | Proxy of the given leader with all cursors at offset - 1 and all flags idle |
| Channel.Channel.Step | internal/server/channel_step.go:12-152 | Does what the rule `AfterStep` says for every action; refuses actions with another unique number |
| Channel.Channel.StepDecrypt | internal/server/channel_step.go:80-118 | The decrypt answer: cursor, write-back, or retry |
| Channel.Channel.StepPermission | internal/server/channel_step.go:156-181 | The permission answer: cursor, write-back, or retry |
| Channel.Channel.StepStorage | internal/server/channel_step.go:182-209 | The storage answer: cursor, write-back, or retry |
| Channel.Channel.StepSendack | internal/server/channel_step.go:216-228 | The sendack answer truncates only when delivery is as far |
| Channel.Channel.StepDeliver | internal/server/channel_step.go:230-243 | The deliver answer truncates only when sendack is as far |
| Channel.Channel.StepProxy | internal/server/channel_step.go:275-297 | The forward answer moves the cursor and truncates |
| Channel.LeaderTurns | internal/server/channel.go:161-251 | The leader's stages taken one after the other raise the flags that the rule raises at once |
| Channel.LeaderPass | internal/server/channel.go:161-251 | The leader's stages taken one after the other issue the requests that the rule issues at once |
| Channel.ProxyPass | internal/server/channel.go:161-251 | The same for a proxy's two stages |
| ChannelRuns.StartInv | internal/server/channel.go:92-112 | A fresh channel satisfies the run invariant |
| ChannelInvariant.ReadyKeeps | internal/server/channel.go:146-251 | Issuing requests slices in range, gives every raised flag a non-empty batch in place, and keeps the invariant |
| ChannelInvariant.BatchIsPlaced | internal/server/msg_queue.go:74-91 | The batch a stage issues is the non-empty piece of the queue right behind its cursor |
| ChannelInvariant.BatchIsLongest | internal/server/msg_queue.go:74-127 | That batch is all the stage may work on for the permission check and the acknowledgements, and otherwise as much of it as 2 MiB allow |
| ChannelInvariant.TickKeeps | internal/server/channel.go:312-387 | Retry timers keep the invariant |
| ChannelInvariant.IncomingKeeps | internal/server/channel_step.go:49-78 | New messages get consecutive indices and keep the invariant |
| ChannelIntake.SendQueuesTheOrdinary | internal/server/channel_step.go:49-78 | After a Send action every message with a packet whose stream number is empty or white space stands in the queue behind all earlier ones, unchanged but for the next index and verdict success; no other message is there |
| ChannelIntake.NothingSentIsLost | internal/server/channel_step.go:49-78 | End to end on one node: in every later state of a run each such message stands in the queue in its place, or has left it and was forwarded, or stored, acknowledged and delivered as it was to be |
| ChannelOrigin.RunAdmits | internal/server/channel_reactor_process.go:496-542 | What a leader's permission cursor has passed as accepted, but for system messages, had a sender whom the answers of an earlier permission worker of the same leadership admit |
| ChannelOrigin.RunHasOrigin | internal/server/channel_reactor_process.go:166-220 | Every queued message has the packet it was taken in with, or the plaintext that an earlier decrypt worker of the run has got for it |
| ChannelOrigin.PutHasOrigin | internal/server/channel_reactor_process.go:783-1180 | Everything a channel stores or delivers was accepted and is what some sender sent; if that was encrypted it carries the plaintext that an online connection gave for it before; and, but for system messages, its sender was admitted before in the same leadership |
| ChannelInvariant.ResetKeeps | internal/server/channel_step.go:20-47 | Becoming leader or proxy keeps the invariant |
| ChannelInvariant.FailKeeps | internal/server/channel_step.go:116-118 | A failed request keeps the invariant |
| ChannelInvariant.WrittenAt | internal/server/channel_step.go:102-115 | Writing back the answers of one batch changes exactly the messages of that batch, each to its own answer |
| ChannelInvariant.AnswerKeeps | internal/server/channel_step.go:80-243 | A successful answer is in range, moves one cursor, and keeps the invariant for every other stage's outstanding batch |
| ChannelTheorems.RunInv | internal/server/channel_step.go:12-297 | Every state of every run, with any interleaving of stages and any role changes, satisfies the invariant |
| ChannelTheorems.NeverOutOfRange | internal/server/channel_step.go:80-297 | No run ever slices, writes back or truncates out of range |
| ChannelTheorems.ReachableCursors | internal/server/channel_step.go:80-297 | The cursor chains of leader and proxy and the contiguous indices, in every reachable state |
| ChannelTheorems.ReachableFlags | internal/server/channel.go:146-387 | In every reachable state a stage is processing exactly while its one request is out or its retry timer runs, never both, and the request is the unchanged non-empty piece of the queue right behind its cursor |
| ChannelTheorems.RoleFollowsElections | internal/server/channel_step.go:20-47 | In every reachable state an initialized channel is the leader if and only if this node was named last, and otherwise a proxy that knows the node that was |
| ChannelTheorems.Conservation | internal/server/channel.go:473-518 | Every message ever taken in is still queued in its place, or was finished by sendack and deliver in one leadership or by forward |
| ChannelTheorems.DoneIsEarned | internal/server/channel_step.go:216-243 | A message counts as finished by a stage only through a successful answer for a batch that held it |
| ChannelTheorems.DoneHappened | internal/server/channel_step.go:216-297 | Each finish recorded in a run is the success of that stage's worker at an earlier moment of the run, in the recorded leadership |
| ChannelTheorems.LeavesOnlyFinished | internal/server/channel_step.go:216-297 | A message leaves the queue only after sendack and deliver both succeeded on it in one leadership, or forward did, across any role changes |
| ChannelTheorems.ResetLosesNothing | internal/server/channel.go:473-518 | A role change drops no message, and rewinds every cursor to offset - 1 |
| ChannelTheorems.VerdictIsFinal | internal/server/channel_reactor_process.go:496-906 | On one node: from the moment a message has failed there, in every later state it keeps that code, is neither stored nor delivered, and is acknowledged or forwarded with that code only. What a forwarded message is at its leader is the matter of ChannelForward |
| ChannelTheorems.StepKeepsVerdict | internal/server/channel_step.go:80-243 | One event keeps a failed verdict through all three write-backs |
| ChannelTheorems.EffectsRespect | internal/server/channel_reactor_process.go:783-1180 | The workers' effects, forwarding included, respect the verdict that their batch carries |
| ChannelTheorems.GoneStaysSilent | internal/server/channel_step.go:216-243 | No step has an effect about a message that has left the queue |
| ChannelTheorems.GoneForGood | internal/server/channel_step.go:216-297 | Nor does any later step of the run |
| ChannelTheorems.OnlyAcceptedLeave | internal/server/channel_reactor_process.go:783-1180 | What is stored was accepted, readable and not marked as not to be kept, and its store call did not fail; what is delivered had verdict success, each acknowledgement is that of a message not from the system device, and each forwarded message is one of the batch as it stood |
| ChannelTheorems.EverySenderIsTold | internal/server/channel_reactor_process.go:985-1033 | A sendack worker acknowledges every message of its batch but those of the system device |
| ChannelTheorems.FailedSenderIsTold | internal/server/channel_reactor_process.go:985-1033 | On one node, a sendack success on a message that has failed there acknowledges it with exactly the code of that failure |
| ChannelReports.RunKeepsPaid | internal/server/channel_step.go:182-243 | In every reachable leader state each queued message that the storage, sendack or deliver cursor has passed was stored, acknowledged or delivered as it now stands, if it was to be |
| ChannelReports.LeaverIsAccountedFor | internal/server/channel_step.go:216-297 | The message that leaves in a step was forwarded as it stood, or stored, acknowledged and delivered as its verdict, packet and sender ask for |
| ChannelReports.EveryLeaverIsAccountedFor | internal/server/channel_step.go:182-297 | End to end on one node: every message ever taken in and no longer queued left at one moment of the run and was by then forwarded, or stored, acknowledged and delivered as it was to be |
| ChannelReports.FailedMessageIsAnswered | internal/server/channel_step.go:216-297 | In particular a message that has failed and is no longer queued was acknowledged with exactly that code, or forwarded carrying it, unless it came from the system device |
| ChannelReports.ReportedIsStored | internal/server/channel_step.go:182-243 | In any run each acknowledgement and each delivery is that of a message its worker held, and if that was accepted, readable and persistent it had been stored before |
| ChannelReports.ReportsAreInOrder | internal/server/channel_step.go:216-243 | During one leadership messages are acknowledged, and delivered, in the order they came in, each at most once |
| ChannelForward.VerdictSurvivesForwardingIff | internal/server/server_cluster.go:93-98 | A forwarded message keeps identity, sender and packet; it keeps its verdict if and only if that was success, and its encryption flag if and only if it was decrypted |
| ChannelForward.LeaderAgreesIff | internal/server/channel.go:436-471 | The leader holds a message with the verdict and encryption flag of the proxy if and only if it had not failed before and needed no decryption at the proxy, or had an online sender, a payload and no decode error |
| ChannelForward.LeaderStoresIff | internal/server/channel_reactor_process.go:301-400 | Whatever decryption at the proxy said, whether the leader stores and delivers a persistent message, and with which code it acknowledges it, is decided by the permission check alone |
| ChannelForward.ProxyForwardsFailure | internal/server/channel_reactor_process.go:301-400 | For every encrypted message whose sender has gone offline a run of the proxy forwards it as failed |
| ChannelForward.LeaderAcceptsForwarded | internal/server/server_cluster.go:66-102 | For every persistent forwarded message a run of the leader stores, delivers and acknowledges it as a success |
| ChannelForward.FailedMessageIsStoredElsewhere | internal/server/server_cluster.go:66-102 | So a verdict is not final across nodes: the same message failed in a run of the proxy and is stored, delivered and acknowledged as a success in a run of the leader that was forwarded it |
| ChannelForward.LeaderRefuses | internal/server/channel_reactor_process.go:496-542 | For every plain message a run of a leader refuses it and stores nothing |
| ChannelForward.LeaderStepsDown | internal/server/channel_step.go:35-40 | The run goes on: the sender is told of the refusal, and a role change makes the node a proxy that still has the message |
| ChannelForward.ProxyForwards | internal/server/channel_reactor_process.go:301-400 | The run goes on: the proxy forwards the refused message |
| ChannelForward.RefusedMessageIsStoredElsewhere | internal/server/server_cluster.go:66-102 | So a refusal is not final either: the same message was refused, and its sender told so, in a run of the old leader, and is stored, delivered and acknowledged as a success in a run of the new one |
| ChannelProgress.WorkIsCounted | internal/server/channel_step.go:216-297 | The work left is never negative, and a leader or proxy without work left has an empty queue |
| ChannelProgress.SuccessIsProgress | internal/server/channel_step.go:80-297 | Every successful answer strictly lowers the work left |
| ChannelProgress.NothingElseAddsWork | internal/server/channel.go:146-387 | Requests, ticks and failures leave it alone |
| ChannelProgress.SomeStageIsReady | internal/server/channel.go:146-305 | With work left and nothing outstanding or waiting, some stage issues a request |
| ChannelProgress.CanDrain | internal/server/channel_step.go:12-297 | From every reachable leader or proxy state the queue can be emptied by the reactor and its workers alone, by a measure that every step lowers |
| ChannelProgress.CanStart | internal/server/channel.go:146-159 | From every reachable state without a role, also after failed attempts, the channel can take the role that an election gives it |
| ChannelStale.AnswerKeepsChainIff | internal/server/channel_step.go:80-297 | For a success of any stage with any index, as leader or proxy: it stays in range and leaves the cursor chain whole if and only if the upstream stage has reached that index |
| ChannelStale.ForeignAnswerIsIgnored | internal/server/channel_step.go:145-152 | An answer of a stage that the role does not have changes nothing, whatever it says |
| ChannelStale.RestartIsReached | internal/server/channel.go:473-518 | For every message a run, as leader or as proxy, goes from its request of the first term through two role changes to the state in which it is sent to decryption again |
| ChannelStale.StalePermissionAnswerCrashes | internal/server/channel_step.go:14-18 | There the worker's late permission answer, which the unique number does not tell apart, lets the later stages drop an undecrypted message, and the decrypt answer then indexes out of range |
| ChannelStale.StaleForwardAnswerCrashes | internal/server/channel_step.go:14-18 | The same for a proxy: the late forward answer drops the message, and the decrypt answer then indexes out of range |
| KeyLock.StepKeeps | pkg/keylock/keylock.go:31-117 | Every action of every session keeps the protocol invariant |
| KeyLock.CountsFollow | pkg/keylock/keylock.go:111-117 | An action changes a reference count by exactly what its own session starts or stops counting on |
| KeyLock.UsesStay | pkg/keylock/keylock.go:64-73 | No action of another session removes an entry that somebody relies on |
| KeyLock.MutualExclusion | pkg/keylock/keylock.go:31-62 | Two sessions are never both between the end of Lock(k) and the call of Unlock(k), for any number of sessions |
| KeyLock.CountIsExact | pkg/keylock/keylock.go:101-117 | The count of a lock is the number of sessions between add() and done() on it |
| KeyLock.CleanDeletesExactlyTheUnused | pkg/keylock/keylock.go:64-73 | Clean deletes a visited entry if and only if no session counts on its lock |
| KeyLock.CleanLeavesOnlyTheUsed | pkg/keylock/keylock.go:64-73 | In every run, when Clean has been over the map, every entry left is counted on by some session; with nobody else at work the map is empty |
| KeyLock.CallsComplete | pkg/keylock/keylock.go:31-73 | Lock(k) ends holding k and nothing else, Unlock(k) comes after it and ends with nothing, Clean ends, and each by a bounded number of its own actions |
| KeyLock.AloneCompletes | pkg/keylock/keylock.go:31-73 | With nobody else at work a session gets to the end of its call by itself: holding the key after Lock, with nothing after Unlock and Clean, and after Clean the map is empty |
| KeyLock.LockUnlockClean | pkg/keylock/keylock.go:31-73 | A run in which one session locks a key, holds it, unlocks it and cleans up, and the map is empty |
| KeyLock.NoEntryInUseIsLost | pkg/keylock/keylock.go:31-73 | Whoever relies on an entry finds it in the map, unchanged |
| KeyLock.UnlockFindsItsOwnLock | pkg/keylock/keylock.go:51-62 | Unlock finds its entry, it is the lock its session acquired, and the mutex it unlocks is locked by that session |
| KeyLock.NoDeadlock | pkg/keylock/keylock.go:31-73 | If nothing inside the three operations can move, every call in progress waits for a session that holds its key |
| KeyLock.QuietLeavesNothingHeld | pkg/keylock/keylock.go:51-73 | Once all sessions are done every count is zero and every mutex is free |
| RetryHeap.RiseStep | internal/server/in_flight_pqueue.go:72-81 | A swap with the parent moves the one misplaced element up and mends what it left |
| RetryHeap.SinkStep | internal/server/in_flight_pqueue.go:83-99 | A swap with the smaller child moves it down, and keeps what Remove needs for going up afterwards |
| RetryHeap.RootIsLeast | internal/server/in_flight_pqueue.go:58-70 | In heap order the root is the minimum |
| RetryHeap.LastMoves | internal/server/in_flight_pqueue.go:29-56 | After the last element has taken a removed one's place, only it is misplaced |
| RetryHeap.InFlightPqueue.constructor | internal/server/in_flight_pqueue.go:5-7 | A new queue is empty and in order |
| RetryHeap.InFlightPqueue.Swap | internal/server/in_flight_pqueue.go:9-13 | Exchanges two elements and keeps every index field right |
| RetryHeap.InFlightPqueue.Up | internal/server/in_flight_pqueue.go:72-81 | From one element too small for its place to heap order, the elements and their indices kept |
| RetryHeap.InFlightPqueue.Down | internal/server/in_flight_pqueue.go:83-99 | From one element too large for its place to heap order but perhaps one edge |
| RetryHeap.InFlightPqueue.Push | internal/server/in_flight_pqueue.go:15-27 | Adds one element, across doubling of the capacity: order, indices, and all others kept |
| RetryHeap.InFlightPqueue.Pop | internal/server/in_flight_pqueue.go:29-43 | Removes the root, across halving of the capacity, and sets its index to -1 |
| RetryHeap.InFlightPqueue.Remove | internal/server/in_flight_pqueue.go:45-56 | Removes the element at any position and sets its index to -1, all others kept |
| RetryHeap.InFlightPqueue.PeekAndShift | internal/server/in_flight_pqueue.go:58-70 | Takes out an element of minimal priority if it is due, otherwise changes nothing and tells how long nothing will be |
| RetryKeys.KeyIsInjective | internal/server/retry_queue.go:90-96 | The string "connId:messageId" is different for different pairs of any two integers |
| RetryKeys.RouteIsInRange | internal/server/retry_manager.go:53-67 | The routing index is a queue number if and only if the id is nonnegative or a multiple of the number of queues |
| RetryQueues.RetryQueue.constructor | internal/server/retry_queue.go:31-40 | A new retry queue is empty, map and heap agreeing |
| RetryQueues.RetryQueue.StartInFlightTimeout | internal/server/retry_queue.go:42-67 | The heap takes the message in any case; map and heap still agree afterwards if and only if its key was not in flight |
| RetryQueues.RetryQueue.PopInFlightMessage | internal/server/retry_queue.go:69-80 | Takes a key out of the map, or reports that it is not there |
| RetryQueues.RetryQueue.RemoveFromInFlightPQ | internal/server/retry_queue.go:106-115 | Takes a message out of the heap by its own index, or does nothing if it has left |
| RetryQueues.RetryQueue.FinishMessage | internal/server/retry_queue.go:97-105 | Takes a message out of map and heap, also one the scan has just popped, and restores agreement |
| RetryQueues.RetryQueue.Retry | internal/server/retry_manager.go:70-102 | A timed-out message comes back with a later time if and only if its retries are not used up and its connection is online |
| RetryQueues.RetryQueue.ScanOne | internal/server/retry_queue.go:117-131 | One round of the scan, with or without an acknowledgement between its two locked halves: the earliest due message leaves the heap and is retried if and only if the map still had its key; if map and heap agreed, that is if no acknowledgement came |
| RetryQueues.RetryQueue.ProcessInFlightQueue | internal/server/retry_queue.go:117-131 | The scan ends although retries re-insert while it runs. If it runs to its end nothing due is left; if it breaks off, the key of a message it had popped was gone. If map and heap agreed before, only an acknowledgement in between breaks it off; the message of that round was due and is unchanged; the scan has handled due messages, each once, in nondecreasing time order, and left the rest untouched; and nothing due is left if and only if no acknowledgement came in any round but that of the last due message |
| RetryQueues.RoundIsScanned | internal/server/retry_queue.go:117-131 | One round extends what a scan has done by the earliest remaining message, which was not handled before |
| RetryQueues.RoundIsHandled | internal/server/retry_queue.go:117-131 | A round into which an acknowledgement comes loses exactly its own message to the scan and ends it; any other extends the scan |
| RetryQueues.DueShrinks | internal/server/retry_queue.go:117-131 | Every round, whatever the map says, leaves fewer due messages in the heap |
| RetryQueues.DueIs | internal/server/retry_queue.go:117-131 | After a scan, broken off or not, the due messages are those handled, the one lost and those left behind, and no message is two of these |
| RetryQueues.LeavesNothingIff | internal/server/retry_queue.go:117-131 | A scan leaves no due message behind if and only if no acknowledgement came in any round but that of the last due message |
| RetryQueues.BrokenOffScan | internal/server/retry_queue.go:117-131 | Two due messages and an acknowledgement for the first while the scan has it in hand: the other is still waiting, due |
| RetryQueues.RepeatedKey | internal/server/retry_queue.go:42-67 | The same key started twice: the heap holds a message that the map does not know |
| RetryQueues.RetryManager.AddRetry | internal/server/retry_manager.go:53-56 | The message is in the heap of the routed queue afterwards; map and heap there go on agreeing if and only if its key was not in flight |
| RetryQueues.RetryManager.RemoveRetry | internal/server/retry_manager.go:58-61 | An acknowledgement succeeds if and only if the queue routed to holds that message, and takes out exactly that one |
| RetryQueues.ScanIsAStep | internal/server/retry_manager.go:70-102 | For each message a whole scan of its queue is one step of its life: untouched, queued again, or gone |
| RetryQueues.BrokenScanIsAStep | internal/server/retry_queue.go:117-131 | A scan that breaks off is that step for the messages it has handled, an acknowledgement for the one it has lost, and nothing for the others |
| RetryQueues.BoundedRetries | internal/server/retry_manager.go:70-102 | In any run a message is rewritten at most MaxCount times and gone after at most MaxCount + 1 timeouts |
| PowerOfTwo.CeilToPowerOfTwo | pkg/ring/ring_buffer.go:74-93 | The five shifts compute the specification below |
| PowerOfTwo.BitOfSmeared | pkg/ring/ring_buffer.go:84-89 | Smearing sets a bit if and only if one of the 32 bits from it upward was set |
| PowerOfTwo.CeilIsNextPowerIff | pkg/ring/ring_buffer.go:74-93 | For every integer the result is the least power of two not below n if and only if n is 2, or n >= 3 and n - 1 has no run of 32 zero bits below its top bit |
| PowerOfTwo.CeilIsPowerOfTwoIff | pkg/ring/ring_buffer.go:74-93 | For every n >= 3 the result lies in [n, 2n), and it is a power of two if and only if n - 1 has no such run |
| PowerOfTwo.CeilFailsForOne | pkg/ring/ring_buffer.go:74-93 | 1 is a power of two and is rounded to 2 |
| PowerOfTwo.CeilWorksUpTo32Bits | pkg/ring/ring_buffer.go:74-93 | From 2 to 2^32 the result is the least power of two not below n, and lies in [n, 2n) |
| PowerOfTwo.CeilFailsAboveEveryLargePower | pkg/ring/ring_buffer.go:74-93 | For every t >= 32 the result for 2^t + 1 is not a power of two, against the comment in the source |
| RingBuffers.WriteAppends | pkg/ring/ring_buffer.go:254-272 | Writing into the free part, round the end or not, appends to what the ring holds |
| RingBuffers.ReadDrops | pkg/ring/ring_buffer.go:199-215 | Moving the read position drops a prefix, and meets the write position only when everything is read |
| RingBuffers.PrefixInPieces | pkg/ring/ring_buffer.go:115-127 | A prefix of the ring is one piece of the array or two |
| RingBuffers.GrowthIsEnough | pkg/ring/ring_buffer.go:513-536 | Whatever branch grow takes, the new size is at least what was asked for and at least the old one |
| RingBuffers.GrowthIsModest | pkg/ring/ring_buffer.go:513-536 | Nor is it much more: double the old size below 4096, at most a quarter more than what was asked for above, and below double of it from nothing |
| RingBuffers.Buffer.constructor | pkg/ring/ring_buffer.go:56-67 | A new buffer is empty; its size is 0 if asked for 0, otherwise the rounded argument, and at least what was asked |
| RingBuffers.Buffer.Buffered | pkg/ring/ring_buffer.go:296-309 | The length of the content |
| RingBuffers.Buffer.Available | pkg/ring/ring_buffer.go:322-335 | Together with the length of the content it is the size |
| RingBuffers.Buffer.Peek | pkg/ring/ring_buffer.go:97-130 | The two pieces together are the first n bytes, or everything |
| RingBuffers.Buffer.PeekAll | pkg/ring/ring_buffer.go:133-149 | The two pieces together are everything |
| RingBuffers.Buffer.Bytes | pkg/ring/ring_buffer.go:343-366 | The whole content |
| RingBuffers.Buffer.Discard | pkg/ring/ring_buffer.go:152-164 | Drops a prefix and reports its length |
| RingBuffers.Buffer.Read | pkg/ring/ring_buffer.go:177-218 | Copies out a prefix of the content and drops exactly that; the rest of the target is untouched |
| RingBuffers.Buffer.ReadByte | pkg/ring/ring_buffer.go:221-235 | The first byte, or the error on an empty buffer |
| RingBuffers.Buffer.Reset | pkg/ring/ring_buffer.go:508-511 | Empty again |
| RingBuffers.Buffer.NewSize | pkg/ring/ring_buffer.go:513-536 | The growth loop computes the specified size and terminates |
| RingBuffers.Buffer.Grow | pkg/ring/ring_buffer.go:513-548 | An array of exactly the size of the growth rule with the same content at its start |
| RingBuffers.Buffer.Write | pkg/ring/ring_buffer.go:243-277 | Appends all of its argument; array and size stay if and only if it fits into the free part |
| RingBuffers.Buffer.WriteByte | pkg/ring/ring_buffer.go:280-293 | Appends one byte and fails if and only if the buffer is full and at least 4096 bytes large; there the write position is behind the last byte |
| RingBuffers.Buffer.StoreIsInRangeIff | pkg/ring/ring_buffer.go:280-293 | On a full buffer the index that WriteByte stores to after growing by one is in range if and only if the size is below 4096 |
| RingBuffers.FailingWriteByte | pkg/ring/ring_buffer.go:280-293 | A new buffer of 4096 bytes, filled by one Write, is one on which WriteByte stores out of range |
| RingBuffers.Buffer.CopyFromSocket | pkg/ring/ring_buffer_unix.go:28-60 | Appends what the read returned, in all four positions of the two pointers |
| Framing.DecodeLength | pkg/client/common.go:80-97 | The loop over at most four digits computes the specified length, or reports that a digit is missing |
| Framing.GnetUnpacket | internal/server/proto.go:135-167 | Takes exactly the complete frames at the front; the client's copy (pkg/client/common.go:46-78) is the same code |
| Framing.Parse | pkg/client/common.go:7-44 | The splitter that copies frame by frame computes the same split |
| Framing.SplitAtStop | pkg/client/common.go:46-78 | The position at which the scan of the buffer stops separates its complete frames from the rest |
| Framing.SplitKeepsTheBytes | pkg/client/common.go:46-78 | Frames and remainder together are the buffer |
| Framing.SplitOfMore | pkg/client/common.go:46-78 | Reading on behind what was left over gives the split of everything at once |
| Framing.ChunkingDoesNotMatter | pkg/client/common.go:46-78 | However a stream is cut into chunks, its frames and its remainder are those of the whole stream |
| Framing.FramesAreReadBack | pkg/client/common.go:46-78 | Frames written one after the other are read back one by one, whatever follows |
| Framing.ConsumedIsLongest | pkg/client/common.go:46-78 | What a splitter takes is the longest prefix of the buffer that is made of complete frames |
| Framing.DecodeInvertsEncodeIff | pkg/client/common.go:80-97 | Decoding inverts base-128 encoding, whatever follows, if and only if the length is below 2^28 |
| Framing.PrefixIsIncomplete | pkg/client/common.go:80-97 | No strict prefix of an encoded length is taken for a length |
| Framing.EncodedFrameIsAFrame | pkg/client/common.go:46-97 | A type byte, an encoded length and a payload of that length are one frame |
| Framing.BareFrameIff | pkg/client/common.go:46-78 | A ping or pong byte is a frame by itself, whatever follows, and no other single byte is |
| IndexQueues.AppendAllKeeps | internal/server/msg_queue.go:177-180 | Appending numbers the messages on from the last index and moves nothing else |
| IndexQueues.DoneKeeps | internal/server/msg_queue.go:155-161 | A success removes exactly the messages up to its index |
| IndexQueues.IndexQueue.constructor | internal/server/msg_queue.go:139-145 | A new queue: offset 1, cursor and last index 0 |
| IndexQueues.IndexQueue.AppendMessage | internal/server/msg_queue.go:177-180 | Numbers and appends a message |
| IndexQueues.IndexQueue.TruncateTo | internal/server/msg_queue.go:155-161 | Cuts up to an index in range |
| IndexQueues.IndexQueue.ResetIndex | internal/server/msg_queue.go:147-152 | The cursor goes back to offset - 1 |
| IndexQueues.IndexQueue.Settle | internal/server/user_step.go:61-64 | A success moves cursor and offset forward, never back |
| IndexQueues.IndexQueue.Slice | internal/server/msg_queue.go:201-213 | The messages between two indices |
| UserSpec.SafeIffPlausible | internal/server/user_step.go:58-209 | For a handler in order a step stays in range if and only if its answer names no index that was never given out |
| UserSpec.StepMoves | internal/server/user_step.go:11-209 | Any plausible action in any role keeps all four queues in order and takes out only what a success for that lane covers |
| UserSpec.BecomeKeeps | internal/server/user.go:233-279 | A role change moves no message and no cursor |
| UserSpec.AlwaysInOrder | internal/server/user_step.go:58-67 | In every run against stale, repeated and reordered answers all four queues stay in order and no step is out of range |
| UserSpec.NothingLeavesUndone | internal/server/user_step.go:58-209 | A message that was queued and is no longer was covered in between by a success for its lane |
| UserSpec.BatchIsTheQueue | internal/server/user.go:110-193 | A lane issues the whole of its queue, never an empty batch |
| UserSpec.IssuedAgainIff | internal/server/user_step.go:58-64 | When a success arrives while a request is out, the lane issues some of its messages again if and only if that success does not cover all of them |
| UserRoutes.SendRoutes | internal/server/user_step.go:97-111 | In either role the recvacks of a Send action go to the recvack lane in order; the pings go to the ping lane of a leader, and a proxy queues one pong for each, to the same connection; nothing else changes, and the first other frame ends it |
| UserRoutes.ConnectAndRecvRoute | internal/server/user_step.go:44-57 | A connection's messages go to the auth lane and messages to be received to the recvMsg lane, in order, and nothing else changes |
| UserRoutes.IssuedIff | internal/server/user.go:110-193 | A lane is in the next requests if and only if it is free and has messages, whole, but for a proxy's ping lane |
| UserRoutes.AnswerSettlesItsLane | internal/server/user_step.go:58-209 | The answer of a lane's worker, in either role, comes back to that lane and to no other: a success frees it and takes out what it covers, a failure keeps all |
| UserRoutes.RoundTrip | internal/server/user_step.go:58-209 | What a free lane issues, once answered with success, is gone from it, the lane is free again and no other has changed |
| UserRoutes.FailedLaneIsIssuedAgain | internal/server/user.go:281-330 | A lane whose request has failed is issued again whole, 20 ticks later and not before |
| UserRoutes.RecvacksAreIssued | internal/server/user_step.go:97-111 | The recvacks of a Send action are part of the next request of a free recvack lane |
| UserRoutes.ElectionDecides | internal/server/user_step.go:20-43 | An election decides the role and moves no message, and a proxy knows its leader |
| UserHandlers.UserHandler.constructor | internal/server/user.go:67-85 | A new handler is the start state of the rules |
| UserHandlers.UserHandler.Step | internal/server/user_step.go:11-82 | Does what the rules say for every action; fails if and only if the unique number is another one or a Send action has an unknown frame |
| UserHandlers.UserHandler.StepLeader | internal/server/user_step.go:84-149 | The leader's actions |
| UserHandlers.UserHandler.StepProxy | internal/server/user_step.go:151-209 | The proxy's actions |
| UserHandlers.UserHandler.SendEach | internal/server/user_step.go:97-111 | Frames go to the ping or the recvack queue until an unknown one ends the loop with an error, and without one there is none; a proxy queues a pong instead |
| UserHandlers.UserHandler.Reset | internal/server/user.go:252-279 | All cursors and flags start over |
| UserHandlers.UserHandler.Ready | internal/server/user.go:110-193 | Issues exactly the free lanes of the role, in the order of the source, and raises exactly their flags |
| UserHandlers.UserHandler.Tick | internal/server/user.go:281-330 | The five retry timers |
| NodeDelivery.NodeSender.Ready | internal/server/node.go:144-162 | Issues the size-limited batch behind the cursor if free, and never an empty one, so the panic cannot happen |
| NodeDelivery.CutIsLongest | internal/server/node.go:144-162 | That batch is the longest within the limit, and all that is pending if there is none |
| NodeDelivery.NodeSender.OnMessages | internal/server/node.go:112-116 | Numbers and appends |
| NodeDelivery.NodeSender.HandleDeliverMsgs | internal/server/node.go:164-186 | Counts failures in a row and gives up beyond ten |
| NodeDelivery.NodeSender.OnResp | internal/server/node.go:117-124 | Settles a batch on success or giving up |
| NodeDelivery.StepKeeps | internal/server/node.go:92-186 | Loop and worker together keep one batch in flight, a non-empty prefix of the queue |
| NodeDelivery.SettledIsPrefix | internal/server/node.go:92-186 | In every run the settled batches are, one after the other, a prefix of what was enqueued and the queue is the rest |
| NodeDelivery.SettledForAReason | internal/server/node.go:117-186 | An answer settles its batch if and only if its request succeeded or the last eleven requests, of whichever batches, have failed |
| NodeDelivery.GivesUpAtOnce | internal/server/node.go:164-186 | Giving up does not start the count anew: after it, and until a request succeeds, every batch is given up at its first failed request |
| NodeDelivery.RetryStartsAgain | internal/server/node.go:92-162 | A failed batch comes again from the same first message |
| NodeDelivery.SomeoneMoves | internal/server/node.go:92-186 | While something is queued, loop or worker can move |
| Conversations.ConversationUpdate.AddOrUpdateUser | internal/server/conversation.go:623-639 | The cached position of one user becomes the larger one, nobody else's changes, and the deletion mark goes |
| Conversations.ConversationUpdate.HandleSenders | internal/server/conversation.go:285-321 | A request leaves each sender of this node, but not the system user, at the larger of the cached position and the largest of its stored messages; nobody else's position changes |
| Conversations.LargestIsLargest | internal/server/conversation.go:288-321 | That largest position is one of the sender's messages and none of its messages is beyond it |
| Conversations.ConversationUpdate.RemoveUserIfSeqLE | internal/server/conversation.go:656-667 | Takes out a user exactly if the cached position is not beyond the given one |
| Conversations.ConversationUpdate.DeleteUser | internal/server/conversation.go:641-653 | Takes out a user and marks it deleted |
| Conversations.ConversationUpdate.constructor | internal/server/conversation.go:605-621 | A new update object caches nobody |
| Conversations.ConversationUpdate.GetConversations | internal/server/conversation.go:444-537 | Every cached position, and the suggested one for exactly those wanted users without a cached position, if the whole channel is to be updated |
| Conversations.ConversationWorker.constructor | internal/server/conversation.go:238-246 | A new worker represents the empty cache |
| Conversations.ConversationWorker.GetConversationUpdate | internal/server/conversation.go:569-576 | The update object of a channel |
| Conversations.ConversationWorker.HandleReq | internal/server/conversation.go:276-351 | The update objects represent the cache after the pushes of the request, and the whole channel is to be updated exactly if it was, or it is no person channel and the request brings the first message of a command channel or a tag other than the last one |
| Conversations.PushedAllAt | internal/server/conversation.go:303-321 | Those pushes leave every user of the channel where the update object's loop leaves it, and no other channel changed |
| Conversations.RequestedAt | internal/server/conversation.go:276-351 | A user ends at no less than each of its stored messages, a partner of a person channel has a position after the channel's first message, and every position that changes is that of such a message or 0 for such a partner |
| Conversations.ConversationWorker.DeleteUserConversationFromCache | internal/server/conversation.go:192-202 | The update objects represent the cache without the user's position |
| Conversations.ConversationWorker.Copy | internal/server/conversation.go:374-384 | The copy carries no other position for a cached user than the cached one, and every cached position unless the users of a channel could not be read |
| Conversations.ConversationWorker.Reconcile | internal/server/conversation.go:414-423 | The nested loops over stored positions and update objects represent the reconciled cache |
| Conversations.ConversationWorker.Propose | internal/server/conversation.go:372-427 | A proposal into which nothing comes: no position is lost, whichever piece of the store fails; if nothing fails every cached position is stored and the cache is empty |
| Conversations.StoreInPieces | internal/server/conversation.go:394-412 | Storing piece by piece stores what storing at once does, up to the piece that fails |
| Conversations.ConversationWorker.CleanUpdate | internal/server/conversation.go:429-442 | Exactly the expired update objects with nothing to store go, and the cache they represent stays |
| Conversations.ReconciledKeeps | internal/server/conversation.go:414-425 | Reconciling takes out a position only if one at least as large is stored |
| Conversations.StepKeeps | internal/server/conversation.go:372-427 | Pushes, snapshots, pieces of a store, failures and reconciliations, in any order, keep the invariant |
| Conversations.NoPositionIsLost | internal/server/conversation.go:372-427 | With any interleaving and any number of proposals at once, the larger of stored and cached position is at least the largest pushed |
| Conversations.StoredWasCopied | internal/server/conversation.go:372-427 | No position is made up: a stored one was stored before the run or copied by an earlier proposal |
| Conversations.CachedWasPushed | internal/server/conversation.go:276-351 | A cached one is not beyond what was pushed for the user since it was last deleted |
| Conversations.PushIsStored | internal/server/conversation.go:372-427 | A pushed position goes by one undisturbed proposal into the store and out of the cache |
| Conversations.QuietProposalFlushes | internal/server/conversation.go:372-427 | A proposal that copied the whole cache and met no push empties it |
| LinkedLists.Find | internal/server/queue.go:73-84 | The first position with a key |
| LinkedLists.List.constructor | internal/server/queue.go:31-33 | An empty list |
| LinkedLists.List.Add | internal/server/queue.go:35-47 | Appends one node; both directions of links and the count stay right |
| LinkedLists.List.Remove | internal/server/queue.go:49-71 | Unlinks the first node with the key, or reports that there is none |
| LinkedLists.List.Get | internal/server/queue.go:73-84 | The first item with the key |
| LinkedLists.List.Iter | internal/server/queue.go:98-106 | Visits the items in the order of insertion, up to and including the first on which the callback stops |

## Left out

- Streams inside a channel: their queues slice without the +1 of the channel queue and are a separate protocol.
- Channel and user batches are values: that a worker's slice shares its array and its packet pointers with the queue is not modelled.
- Answers from before a role change, and what such late workers still do outside, are not part of the runs (see Assumptions).
- The drain loops of the stage workers, which merge requests of one channel: single flight leaves them one request for each stage.
- Stages.ProcessSendack: how the acknowledgements for another node are encoded, and what happens there.
- Stages.HandleChannelForward: the encoding of the request; a proposal does not wait for the reactor, so it reports no error, and one that the reactor drops silently is not modelled.
- Idle close, tag checking, logging, tracing, webhooks, and the message count of a channel.
- Growth and shrinking of the message slices, and `offsetInProgress`, which nothing reads.
- Wrap-around of 64-bit indices and of the four-byte length accumulator (28 bits are all it ever holds).
- Channel.Channel.HasReady: pending actions and the streams of the channel.
- Channel.Channel.Ready: the stream requests issued in the same pass.
- Channel.Channel.Tick: idle close, tag checks and the ticks of streams.
- Channel.Channel.Step: stream actions.
- Stages.ProcessPermission: store calls are functions of their arguments for the duration of one batch.
- RetryHeap.InFlightPqueue.Push: the heap is a sequence with a capacity counter; what the array holds beyond its length is not modelled.
- RetryQueues.RetryQueue.ProcessInFlightQueue: the queue is not stopped during a scan; between the two locked halves of a round only the acknowledgement of the popped message is interleaved, other operations fall between rounds as separate calls; the string key is represented by the pair it encodes, which `RetryKeys.KeyIsInjective` allows.
- RetryQueues.RetryQueue.Retry: the write to the connection and the closing of a connection whose write fails.
- RingBuffers.Buffer.Read: `ReadFrom`, `WriteTo` and `Rewind` are not modelled; a short first read, a zero-byte write or a wrapped buffer breaks the first-in-first-out view.
- RingBuffers.Buffer.CopyFromSocket: the socket is the byte string that the read returned, empty on error.
- UserHandlers.UserHandler.StepLeader: the bookkeeping of pong timeouts.
- UserHandlers.UserHandler.StepProxy: the node ping action.
- UserHandlers.UserHandler.Tick: leader checks, node pings and proxy timeouts.
- UserHandlers.UserHandler.Step: node ping and pong, proxy timeouts, leader checks, close actions and the connection list.
- NodeDelivery.NodeSender.HandleDeliverMsgs: how a batch is grouped by channel and tagged before it is sent.
- Conversations.StepKeeps: a snapshot may be any list, which covers every copy that `ConversationWorker.Copy` makes; deleting a conversation from the store is not modelled.
- Conversations.ConversationWorker.HandleReq: which node leads a user and which channels are command channels are parameters; the spreading of channels over workers and the file written on shutdown are left out.
- KeyLock.StepKeeps: the timer that calls Clean; that every waiting session is served in the end is left to the fairness of the mutexes.
- LinkedLists.List.Add: the list's own mutex; operations are atomic.
- HTTP handlers, the cluster and store, encryption, packet bodies and configuration.
