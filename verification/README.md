# Verified models of the agent kernel

A Dafny model of the kernel's crash-safe protocols and of the decision and codec code they rest on,
with proofs over every input, every run or every reachable state:

- the durable event pipeline: outbox, dispatcher, journal, live bus, subscriptions;
- the effect lifecycle: executor tokens and leases, the daemon epoch fence, reconciliation, operator resolution;
- idempotent command execution;
- the in-memory message queue;
- delegation chains, permission decisions and approvals;
- the resource-URI parser, the gateway's base64 codec and the script that orders a task graph.

Check the whole project with `dafny verify dfyconfig.toml`.

## How it is organised

Code that updates state is a class or a method with loops (`OutboxDispatcher`, `EventJournal`, `LiveSubscription`,
`EffectTxn`, `DaemonFence`, `CommandCoordinator`, `InMemoryQueue`, `SecurityStore`, `ApprovalStore`, `Buffer`,
`TopologicalOrder`, ...). Each is proved equal to a specification function on values. The theorems are then about
those functions: one step keeps an invariant, and a `Run` (a fold of steps) therefore does too. What the functions
themselves do is stated a second time, on the fields of their arguments and results or on the whole history, and
proved to be the same; these statements are in `EndToEnd`, `ApprovalHistory` and the modules that end in `Meanings`.

| files | subject |
|---|---|
| `Common`, `Text`, `Ids`, `Utf8` | sequences, splitting and joining, the code-point order, identifiers, UTF-8 |
| `Envelopes`, `Outbox`, `Batches`, `Journal` | event records, sequence allocation, scanning and grouping, the append-only journal |
| `Pipeline` | the pipeline as a state machine: stage, scan, read, append, abort, mark, publish, crash, subscribe, page, take, disconnect, resume |
| `PipelineDurability`, `PipelineDelivery`, `TwoDispatchers` | what holds with any number of dispatchers, with one, and when delivery is gap-free |
| `Dispatcher`, `Subscription`, `Refinement` | `dispatch_once` and `subscribe` as they are written, and why they are runs of the state machine |
| `EndToEnd`, `Recovery` | from a staged draft to a client's frame, field by field; a way back after any run |
| `Effects`, `EffectMeanings`, `EffectRuns`, `EffectHistory`, `Fence` | the effect table, what each operation does to a row, its runs, its event history, the epoch fence |
| `Coordinator` | command execution against "the first success wins" |
| `Queue`, `QueueRuns`, `QueueMeanings` | the queue's collections, every sequence of operations, what each operation answers |
| `Capabilities`, `Delegation`, `DelegationMeanings` | capability tokens, chains, when a hop is accepted |
| `Scopes`, `ScopeMeanings`, `Permissions`, `PermissionMeanings` | coverage of targets and what it means for locations and hosts, the decision and the condition of each answer |
| `Framing`, `Approvals`, `ApprovalHistory` | the digest's framing, approval requests and responses, the outcome by the history alone |
| `ResourceUris`, `UriMeanings`, `Base64`, `Base64Bits`, `Topology` | parser and printer, the texts that write a value, codec, Kahn's algorithm |

## Assumptions and readings

- A marking transaction whose commit fails has marked nothing. A journal append is atomic.
- The store is a set of maps behind one write lock; a failed transaction leaves them as they were.
- Time, generated identifiers, faults, handlers and the hash function are parameters.
- A live subscriber lags as soon as more than `capacity` events wait for it.
- The comment at agent-os/crates/permissions/src/policy.rs:47-50 says an empty egress list on a grant covers any
  request. The code at lines 414-430 of that file covers only requests without egress or with an empty list. The model
  follows the code; `Scopes.EmptyEgressGrant` states what the code does.

Five promises hold only under a condition, and the model keeps the code as it is:

- Delivery to a live client is gap-free in every run if and only if there is at most one dispatcher
  (`TwoDispatchers.GapFreeIff`; `TwoDispatchers.LiveClientMissesEvent` is a run of two that loses an event).
- The queue's dedupe index stays within its cap in every run if and only if the capacity does (`QueueRuns.IndexBoundedIff`).
- A stored envelope reads back equal if and only if neither of its two free texts is present but empty; it always
  re-encodes and projects to the same bytes (`Envelopes.StoredEnvelopeSurvives`, `Envelopes.EmptyTextIsLost`).
- Encoding a decoded base64 text gives it back if and only if its spare bits are zero (`Base64.EncodeDecode`,
  `Base64.SpareBitsAreIgnored`).
- The digest framing tells contents apart, for fields of up to n bytes, if and only if n is below 2^32
  (`Framing.FrameIsInjectiveIff`); `Framing.LongFieldsCollide` gives two inputs that share a frame.

## Model

| member | source | states |
|---|---|---|
| `Outbox.StageExtends` | agent-os/crates/events/src/outbox.rs:42-80 | staging succeeds exactly when the event id is new and both classes are set; it then extends its own stream by the next contiguous sequence, touches no other stream, and keeps the outbox valid (contiguous sequences, unique ids, marks a prefix); the new row is unpublished and records the draft field by field: id, stream, type, classes, payload, time, causation, correlation |
| `Outbox.MarkTouchesOnlyFlags` | agent-os/crates/kernel-store-sqlite/src/repos/streams.rs:156-182 | marking sets publication flags and nothing else: every row keeps its place and its event, and is published exactly when it was or its id is named |
| `Outbox.OpenIsSuffix` | agent-os/crates/kernel-store-sqlite/src/repos/streams.rs:139-154 | where marks form a prefix, the unpublished rows of a stream are the contiguous rest |
| `Outbox.BacklogIsOrdered` | agent-os/crates/kernel-store-sqlite/src/repos/streams.rs:139-154 | the backlog lists all unpublished rows and only those, by stream key and then by sequence |
| `Envelopes.StoredEnvelopeSurvives` | agent-os/crates/events/src/envelope.rs:186-255 | an envelope decodes after encoding exactly when its stream key is canonical and both classes are set; then it re-encodes to the same bytes, projects to the same client frame, and equals the original exactly when no free text is present but empty |
| `Envelopes.EmptyTextIsLost` | agent-os/crates/events/src/envelope.rs:186-255 | an envelope with an empty correlation text, which reads back with none |
| `Batches.BuildGroups` | agent-os/crates/events/src/dispatcher.rs:98-113 | the grouping loop fails exactly when some scanned key is not canonical, and otherwise groups runs of one stream |
| `Batches.ScanGroups` | agent-os/crates/events/src/dispatcher.rs:96-113 | of a scan: each group is a contiguous run starting at the stream's first unpublished row, no stream has two groups, and the groups flatten to the scanned rows in order |
| `Batches.CutIsBacklogPrefix` | agent-os/crates/kernel-store-sqlite/src/repos/streams.rs:139-154 | filling the limit stream by stream gives exactly the first `limit` rows of the ordered backlog |
| `Journal.ValidateBatch` | agent-os/crates/event-journal-sqlite/src/lib.rs:171-198 | the loop accepts exactly the nonempty batches of one stream with contiguous sequences after the expected one |
| `Journal.CheckIds` | agent-os/crates/event-journal-sqlite/src/lib.rs:212-232 | inserting row by row meets no primary-key clash exactly when all ids are new and distinct |
| `Journal.EventJournal.Append` | agent-os/crates/event-journal-sqlite/src/lib.rs:106-128 | the new log and the reply are those of the specified append: insert at the head, confirm an identical batch behind it, refuse everything else without a change |
| `Journal.EventJournal.ReadStream` | agent-os/crates/event-journal-sqlite/src/lib.rs:130-167 | the page built row by row is the specified one: rows after the cursor, ascending, at most `limit`, an error if one does not decode |
| `Journal.ReadMeans` | agent-os/crates/event-journal-sqlite/src/lib.rs:130-167 | for any journal contents a page is read exactly when each of its rows is an event of the stream at its own place with an id, a canonical key and both classes; it then holds the next events, consecutively, up to the limit or the head |
| `Journal.VerifiedPosition` | agent-os/crates/event-journal-sqlite/src/lib.rs:239-280 | a batch that verifies as already recorded is at its own positions, byte for byte |
| `Journal.VerifyMeans` | agent-os/crates/event-journal-sqlite/src/lib.rs:239-280 | verification is decided at the first event that is not recorded as it is: confirmed if there is none, a gap if it is past the head, a conflict if other bytes stand there |
| `Journal.AppendMeans` | agent-os/crates/event-journal-sqlite/src/lib.rs:106-128 | what an append answers and does: a malformed batch is refused; at the head it is inserted exactly when its ids are new; elsewhere nothing is written and it succeeds exactly when it is recorded there byte for byte; no other stream changes |
| `Journal.AppendIsIdempotent` | agent-os/crates/event-journal-sqlite/src/lib.rs:106-128 | an append that succeeded, repeated, succeeds with the same reply and changes nothing |
| `Journal.JournalReadsBack` | agent-os/crates/event-journal-sqlite/src/lib.rs:130-167 | after any appends of decodable envelopes, accepted or refused, every page reads without an error and holds the next events of its stream, consecutively, up to the limit or the head |
| `Journal.RecordedPrefix` | agent-os/crates/events/src/dispatcher.rs:196-214 | the counter loop finds the length of the recorded prefix, or a divergence, as specified |
| `Journal.PrefixMeans` | agent-os/crates/events/src/dispatcher.rs:196-214 | the prefix ends where page or batch ends or their sequences part; where sequences agree and identity or bytes differ it is a divergence |
| `PipelineDurability.JournalIsOutboxPrefix` | agent-os/crates/events/src/dispatcher.rs:91-164 | after any run, with any number of dispatchers: every stream's journal is a prefix of its committed outbox, only journaled rows are marked, unmarked rows are a contiguous suffix, and every worker's groups are slices of the outbox |
| `PipelineDurability.StepKeepsDurable` | agent-os/crates/events/src/dispatcher.rs:91-164 | every single step, enabled or not, keeps that invariant |
| `PipelineDurability.ReadFinds` | agent-os/crates/events/src/dispatcher.rs:116-122 | under the invariant the read-back finds exactly the journaled part of a batch: it never reports a divergence |
| `PipelineDurability.SuffixNeverConflicts` | agent-os/crates/event-journal-sqlite/src/lib.rs:239-280 | verifying a pending batch against the journal never finds other contents, at most a gap |
| `PipelineDurability.AppendSuffix` | agent-os/crates/events/src/dispatcher.rs:123-132 | appending the missing part keeps the journal a prefix of the outbox, and succeeds whenever it lands at the head |
| `PipelineDelivery.GapFreeDelivery` | agent-os/crates/control-api/src/event_service.rs:160-235 | with one dispatcher, after any interleaving of publishing, paging, lag, resume and crash: what a client was sent since `after` is exactly events after+1 .. last of its stream, projected and durable; a live client that has drained the bus has everything published |
| `PipelineDelivery.StepKeepsDelivering` | agent-os/crates/control-api/src/event_service.rs:160-235 | every step keeps the joint invariant of dispatcher, sink, bus and clients |
| `PipelineDelivery.SinkAtMostOnce` | agent-os/crates/events/src/dispatcher.rs:144-156 | every live hand-off is a committed event that is already journaled and marked, no event is handed over twice, and a stream's hand-offs ascend |
| `PipelineDelivery.LoneAppendSucceeds` | agent-os/crates/events/src/dispatcher.rs:114-142 | in every reachable state a lone dispatcher's append is issued at the true journal head and succeeds |
| `PipelineDelivery.SecretsNeverShip` | agent-os/crates/control-api/src/event_service.rs:84-110 | with any number of dispatchers, no frame ever sent carries the payload of a secret event |
| `EndToEnd.StoreHoldsDrafts` | agent-os/crates/events/src/outbox.rs:42-80 | after any run, with any number of dispatchers, a stream holds exactly its committed drafts in order, field by field, at sequences 1, 2, ... |
| `EndToEnd.SubscriptionWasAsked` | agent-os/crates/control-api/src/event_service.rs:151-169 | a client's stream and starting point are those of a subscribe step of the run |
| `EndToEnd.FramesCarryDrafts` | agent-os/crates/control-api/src/event_service.rs:82-235 | with one dispatcher, frame i of a client comes from a staging step of the run, the (after+1+i)-th committed on the stream it asked for: id, stream, type, classes, time, causation and correlation are the draft's, the sequence is after+1+i, and the payload is the draft's unless it is secret, then empty |
| `Recovery.RecoveryDelivers` | agent-os/crates/control-api/src/event_service.rs:151-235 | after any run of one dispatcher whose backlog has canonical keys, there are steps (a crash, one clean iteration, a resume and a replay) that commit nothing and leave the client live with every event committed since its starting point |
| `TwoDispatchers.GapFreeIff` | agent-os/crates/control-api/src/event_service.rs:160-235 | delivery is gap-free in all runs exactly when there is at most one dispatcher |
| `TwoDispatchers.LiveClientMissesEvent` | agent-os/crates/control-api/src/event_service.rs:199-218 | a run of two dispatchers after which a live client at cursor 2 was sent event 2 and never event 1 |
| `Dispatcher.OutboxDispatcher.AppendGroup` | agent-os/crates/events/src/dispatcher.rs:115-140 | journal and error after one group are the specified ones, fault point included |
| `Dispatcher.OutboxDispatcher.JournalAll` | agent-os/crates/events/src/dispatcher.rs:114-142 | groups are journaled in order up to the first error |
| `Dispatcher.OutboxDispatcher.MarkRows` | agent-os/crates/events/src/dispatcher.rs:144-154 | exactly the scanned events are marked |
| `Dispatcher.OutboxDispatcher.Publish` | agent-os/crates/events/src/dispatcher.rs:157-159 | all events reach the sink, in order |
| `Dispatcher.OutboxDispatcher.DispatchOnce` | agent-os/crates/events/src/dispatcher.rs:91-164 | store, journal, sink and result after an iteration are those of the specified iteration, for every fault pattern and commit outcome |
| `Dispatcher.DispatchOutcome` | agent-os/crates/events/src/dispatcher.rs:91-164 | an iteration over a scan succeeds exactly when every key is canonical, no append it makes meets the fault point and the marks commit; then it marks and publishes exactly the first `limit` backlog rows, all journaled; otherwise it marks and publishes nothing; the journal only grows |
| `Dispatcher.DispatchShrinksBacklog` | agent-os/crates/events/src/dispatcher.rs:91-164 | an iteration takes min(limit, backlog) rows off the front of the backlog and keeps the rest in order |
| `Dispatcher.CallsPublishInOrder` | agent-os/crates/events/src/dispatcher.rs:91-164 | after any calls with any faults and commit outcomes, what the sink received followed by what is left is exactly the backlog there was, in order |
| `Dispatcher.CallsAreSound` | agent-os/crates/events/src/dispatcher.rs:91-164 | after any such calls the journal has only grown and is still a prefix of the outbox that holds every marked row |
| `Dispatcher.DispatcherDrains` | agent-os/crates/events/src/dispatcher.rs:91-164 | over a canonical backlog, calls without faults all succeed: they take the sum of their limits off its front and hand exactly that to the sink, in order |
| `Refinement.DispatchIsRun` | agent-os/crates/events/src/dispatcher.rs:91-164 | from any state, one `dispatch_once`, with any fault and commit outcome, is a run of one dispatcher's scan, read, append, abort, mark and publish steps |
| `Refinement.GroupingKeepsEvents` | agent-os/crates/events/src/dispatcher.rs:98-113 | grouping loses, repeats and reorders nothing, for any rows |
| `Subscription.Replay` | agent-os/crates/control-api/src/event_service.rs:168-195 | the paging loop ends and sends exactly what one unbounded read after the cursor holds; a bad row ends it after an exact prefix; a cursor past the head replays nothing |
| `Subscription.LiveSubscription.Next` | agent-os/crates/events/src/live_bus.rs:119-140 | the next item is the event after the last one unless more than `capacity` wait; an open bus without news gives none yet; lag and closure end the subscription, and the resume cursor is the last one delivered or none |
| `Subscription.Follow` | agent-os/crates/control-api/src/event_service.rs:199-235 | the live loop sends exactly the fresh events of its stream, projected, and a lag notice names the last sequence sent |
| `Subscription.FreshAscends` | agent-os/crates/control-api/src/event_service.rs:201-208 | what the live loop sends is of its own stream with strictly ascending sequences above the cursor |
| `Refinement.ReplayIsRun` | agent-os/crates/control-api/src/event_service.rs:168-195 | the replay loop is a run of the client's page steps and ends where `Subscription.Replay` does |
| `Refinement.FollowIsRun` | agent-os/crates/control-api/src/event_service.rs:199-235 | however other steps fall in between, a live client was sent exactly what the live loop sends for the items it was given, stands at the last sequence sent, and is lagged exactly when they end in an overrun |
| `Effects.EffectTxn.RepoClaim` | agent-os/crates/kernel-store-sqlite/src/repos/effect_claims.rs:20-57 | a claim succeeds exactly on a prepared row or an expired claim, stamps the next token, and otherwise changes nothing |
| `Effects.EffectTxn.CasTransition` | agent-os/crates/kernel-store-sqlite/src/repos/effects.rs:181-228 | the compare-and-set applies exactly when state and token are as expected |
| `Effects.EffectTxn.Claim` | agent-os/crates/effects/src/executor.rs:60-99 | table, staged event and outcome of a claim are the specified ones |
| `Effects.EffectTxn.Transit` | agent-os/crates/effects/src/executor.rs:296-375 | a transition checks legality, then identity and token, epoch and lease, in that order, and stages its event |
| `Effects.EffectTxn.Observe` | agent-os/crates/effects/src/reconcile.rs:124-240 | settling, re-arming or parking a dispatched effect gives the specified table and events; any other state is left alone |
| `Effects.EffectTxn.Resolve` | agent-os/crates/effects/src/reconcile.rs:276-330 | an operator resolution of an unknown effect succeeds: marked succeeded it is committed with the given result, marked failed it has failed with the reason or `resolved_failed`, retried it is prepared with its references unchanged; holder and contract stay |
| `EffectMeanings.TransitionSources` | agent-os/crates/effects/src/record.rs:26-53 | the transition table read from its targets; nothing leaves committed, failed or cancelled |
| `EffectMeanings.ClaimMeans` | agent-os/crates/effects/src/executor.rs:60-99 | a claim wins exactly on a prepared effect or a run-out claim; it stamps the next token, the executor, the epoch and a lease of thirty seconds, keeps contract and references, and stages that row; else nothing changes |
| `EffectMeanings.MoveMeans` | agent-os/crates/effects/src/executor.rs:103-375 | of every executor move: the condition of each answer in the order of the checks, and the row it ends in, references included; only a move that succeeds changes anything |
| `EffectMeanings.ObservationMeans` | agent-os/crates/effects/src/reconcile.rs:98-240 | probing a dispatched effect and applying the plan: success commits with the result, failure fails with the code, no record re-arms exactly what may be redispatched and parks the rest, inconclusive parks; references are written out; an effect no longer dispatched is left alone |
| `EffectMeanings.StalePlanParks` | agent-os/crates/effects/src/reconcile.rs:98-240 | a plan made before the effect was dispatched only parks it |
| `EffectMeanings.ResolutionMeans` | agent-os/crates/effects/src/reconcile.rs:276-330 | an unknown effect ends as the operator says, states and references written out, with the transition event and then a note of the same row |
| `EffectRuns.DispatchBound` | agent-os/crates/effects/src/reconcile.rs:98-330 | in every history dispatches are at most the preparations, an effect that may not be redispatched is dispatched at most once plus the operator's retries, and the token counts the claims |
| `EffectRuns.DispatchTokensIncrease` | agent-os/crates/effects/src/executor.rs:103-125 | later dispatches of an effect carry strictly larger tokens |
| `EffectRuns.OnlyClaimsChangeTokens` | agent-os/crates/effects/src/executor.rs:60-99 | a step that changes a token is an admitted claim of that effect, and adds exactly one |
| `EffectRuns.EffectsOnlyEvolve` | agent-os/crates/effects/src/record.rs:26-53 | over any run an effect stays, its contract is immutable, its token never goes back, a terminal row never changes, and executor and epoch change only with the token |
| `EffectRuns.AppliesExactlyWhenFenced` | agent-os/crates/effects/src/executor.rs:296-375 | a presented transition changes the kernel exactly when the epoch is current, the transition legal, executor and token match, the claim is of this epoch and the lease unexpired |
| `EffectRuns.StaleExecutorNeverApplies` | agent-os/crates/effects/src/executor.rs:347-375 | once a later claim holds an effect, nothing presented under an earlier token applies in any continuation |
| `EffectRuns.StaleEpochNeverWrites` | agent-os/crates/kernel-store-sqlite/src/txn.rs:290-298 | once a newer epoch is persisted, no write transaction of an older one is admitted in any continuation |
| `EffectRuns.DeadClaimIsVoid` | agent-os/crates/effects/src/executor.rs:347-375 | once a newer epoch is persisted, nothing the holder of an older claim, or any earlier one, presents applies in any continuation, whatever epoch the transaction runs under |
| `EffectRuns.WriteEpochsNeverDecrease` | agent-os/crates/kernel-store-sqlite/src/fence.rs:97-114 | committed write transactions carry non-decreasing epochs, none above the persisted fence |
| `EffectRuns.SettlementCompletes` | agent-os/crates/effects/src/reconcile.rs:124-240 | applying a plan to a dispatched effect never fails half-way and ends in the state the plan stands for |
| `EffectRuns.StepKeepsKernel` | agent-os/crates/effects/src/executor.rs:296-343 | every step keeps rows in agreement with their staged events, plans in agreement with contracts, and the fence monotone |
| `EffectHistory.EventsRebuildTable` | agent-os/crates/effects/src/executor.rs:329-342 | the table can be rebuilt from the staged events: an effect is stored exactly when it has an event, with the row of its latest one |
| `EffectHistory.HistoryIsLegal` | agent-os/crates/effects/src/record.rs:26-45 | an effect's events start with its preparation, each later row follows by a legal transition, kinds fit states, and a reconciliation note repeats the row |
| `Fence.DaemonFence.Claim` | agent-os/crates/kernel-store-sqlite/src/fence.rs:29-75 | a claim whose lease is positive and ends within 64 bits issues an epoch above all earlier ones; any other is refused without a change |
| `Fence.DaemonFence.BeginWrite` | agent-os/crates/kernel-store-sqlite/src/fence.rs:97-114 | a write is admitted exactly for the latest issued epoch, which is the greatest |
| `Coordinator.CommandCoordinator.Run` | agent-os/crates/command-coordinator/src/lib.rs:83-173 | store and reply of an execution are the specified ones for every handler outcome and fault, before and after the commit |
| `Coordinator.UnreadyReply` | agent-os/crates/command-coordinator/src/envelope.rs:112-137 | an unrouted, unnamed, late or unadmitted submission is refused and changes nothing; the error is by its own fields |
| `Coordinator.FreshReply` | agent-os/crates/command-coordinator/src/lib.rs:83-173 | on a free slot the reply is Ok with the handler's outcome exactly when a handler is registered, key and type are not blank, the deadline is absent or not before now, the write is admitted, the handler succeeds and no fault or lost commit strikes; the handler's error is passed on, anything later answers Unavailable; the store changes exactly when the commit is durable |
| `Coordinator.TakenReply` | agent-os/crates/command-coordinator/src/lib.rs:116-135 | on a taken slot a ready submission gets the stored outcome for the stored digest and a conflict for any other, and changes nothing |
| `Coordinator.StateIsFirstSuccesses` | agent-os/crates/command-coordinator/src/lib.rs:83-173 | after any submissions, retries and faults the state is what running each first success once, in commit order, gives |
| `Coordinator.AtMostOnce` | agent-os/crates/command-coordinator/src/lib.rs:116-162 | commits have pairwise different slots, each new at its commit, and each leaves its record |
| `Coordinator.RecordsPersist` | agent-os/crates/command-coordinator/src/lib.rs:116-162 | a record is never changed or removed |
| `Coordinator.RecordHasWinner` | agent-os/crates/command-coordinator/src/lib.rs:137-162 | every new record was left by one committed attempt and holds its digest and outcome |
| `Coordinator.OkRepliesAgree` | agent-os/crates/command-coordinator/src/lib.rs:116-172 | an `Ok` reply carries what is stored for its slot and digest for good, so all `Ok` replies agree |
| `Coordinator.TakenSlotAnswers` | agent-os/crates/command-coordinator/src/lib.rs:116-135 | once a slot is taken, even by a commit whose reply was lost, the same digest gets the recorded outcome, any other a conflict, and the store does not change |
| `QueueRuns.InMemoryQueue.EvictTombstones` | agent-os/crates/message-queue/src/in_memory.rs:65-80 | the loop ends with the specified index: active keys rotate to the back, tombstones are dropped until the cap is met |
| `QueueRuns.InMemoryQueue.Publish` | agent-os/crates/message-queue/src/in_memory.rs:140-180 | all seven collections and the result are the specified ones |
| `QueueRuns.InMemoryQueue.Consume` | agent-os/crates/message-queue/src/in_memory.rs:182-229 | the delivery loop hands out and leaves behind what is specified |
| `QueueRuns.InMemoryQueue.Ack` | agent-os/crates/message-queue/src/in_memory.rs:231-244 | acknowledging drops the delivery and evicts, or reports an unknown id |
| `QueueRuns.InMemoryQueue.Nack` | agent-os/crates/message-queue/src/in_memory.rs:246-268 | a nack puts the delivery back at the front of its channel, or reports an unknown id |
| `Queue.Evict` | agent-os/crates/message-queue/src/in_memory.rs:65-80 | eviction leaves an index within the cap as it is and never cuts a larger one below the cap; it forgets only keys neither queued nor in flight, changes no remembered payload, and keeps the order a repetition-free listing of the index |
| `Queue.EvictReaches` | agent-os/crates/message-queue/src/in_memory.rs:65-80 | one key over the cap and a tombstone among the keys not yet scanned: despite rotation, eviction reaches it |
| `Queue.EvictBounds` | agent-os/crates/message-queue/src/in_memory.rs:65-80 | one key over the cap and at most `capacity` live messages, capacity within the cap: eviction brings the index back within it |
| `Queue.ParcelsAreFront` | agent-os/crates/message-queue/src/in_memory.rs:182-229 | deliveries are the front of the channel in order, with the accepted payloads and consecutive delivery ids |
| `QueueMeanings.ConsumeMeans` | agent-os/crates/message-queue/src/in_memory.rs:182-229 | in every run a consumer gets the first min(max(1, max), waiting) messages of the channel in order, under new consecutive ids, each with the payload it was last accepted with; exactly those are now in flight and the rest still waits |
| `QueueMeanings.PublishMeans` | agent-os/crates/message-queue/src/in_memory.rs:140-180 | in every run a remembered id is confirmed with its last accepted payload and refused with any other; a new one is refused exactly when the live messages fill the capacity, and else waits last in its channel |
| `QueueMeanings.AckMeans` | agent-os/crates/message-queue/src/in_memory.rs:231-244 | in every run an acknowledgement ends exactly the delivery it names; an unknown id changes nothing |
| `QueueRuns.QueueAccounts` | agent-os/crates/message-queue/src/in_memory.rs:140-268 | after any operations: pending queues, `queued` and `messages` hold the same keys once, no key is queued and in flight or in flight twice, channels hold only their own keys, live messages never exceed the capacity, and accepted = pending + in flight + acknowledged, per key and in total |
| `QueueRuns.IndexBoundedIff` | agent-os/crates/message-queue/src/in_memory.rs:65-80 | the dedupe index stays within its cap in all runs exactly when the capacity does |
| `QueueRuns.RetryIsIdempotent` | agent-os/crates/message-queue/src/in_memory.rs:140-161 | until it is acknowledged, publishing a message again changes nothing: the last accepted payload is confirmed, any other is a conflict |
| `QueueRuns.DeliveriesCarryAccepted` | agent-os/crates/message-queue/src/in_memory.rs:182-268 | every delivery in flight, however often requeued, carries the payload last accepted under its key |
| `QueueRuns.FirstInFirstOut` | agent-os/crates/message-queue/src/in_memory.rs:140-229 | in a run without nacks, what was handed out on a channel followed by what waits is exactly what was accepted, in order |
| `QueueRuns.NackedIsNext` | agent-os/crates/message-queue/src/in_memory.rs:246-268 | a nacked delivery is the next one its channel hands out, under a new delivery id |
| `Capabilities.ParsePrint` | agent-os/crates/identity/src/delegation.rs:198-265 | a printed capability parses back to itself exactly when it is supported |
| `Capabilities.PrintParse` | agent-os/crates/identity/src/delegation.rs:244-265 | only the printed form of a supported capability parses |
| `Capabilities.SortedMembers` | agent-os/crates/identity/src/delegation.rs:190-196 | sorting a set lists each member once, in the derived order |
| `Delegation.EncodeGrantIds` | agent-os/crates/identity/src/delegation.rs:743-750 | the loop writes the identifiers one after the other |
| `Delegation.DecodeGrantIds` | agent-os/crates/identity/src/delegation.rs:752-769 | the loop over 36-byte chunks decodes as specified, or fails |
| `Delegation.DecodeEncode` | agent-os/crates/identity/src/delegation.rs:743-769 | decoding undoes encoding |
| `Delegation.EncodeDecode` | agent-os/crates/identity/src/delegation.rs:743-769 | a blob that decodes is the encoding of what it decodes to |
| `Delegation.EncodeAt` | agent-os/crates/identity/src/delegation.rs:743-750 | the blob is 36 bytes an identifier, the i-th holding the i-th identifier |
| `Delegation.HopCapabilities` | agent-os/crates/identity/src/delegation.rs:714-735 | the shape checks by set size accept exactly hops with distinct capabilities and enough distinct grants, and return the set |
| `Delegation.ValidateChain` | agent-os/crates/identity/src/delegation.rs:671-690 | the loop accepts exactly chains with contiguous indices, good hops and shrinking capability sets |
| `Delegation.ChainShrinks` | agent-os/crates/identity/src/delegation.rs:671-690 | along a valid chain every later set is within every earlier one |
| `Delegation.DeriveChildChain` | agent-os/crates/identity/src/delegation.rs:647-667 | the derived list, or the refusal, is the specified one |
| `Delegation.DerivedHopExtends` | agent-os/crates/identity/src/delegation.rs:647-667 | a hop made of a derived set extends the chain validly and holds exactly what was requested |
| `DelegationMeanings.DeriveMeans` | agent-os/crates/identity/src/delegation.rs:647-667 | a child may ask for exactly what the tip of a valid chain holds, and gets each capability once, in order; an invalid chain is an integrity error |
| `Delegation.SecurityStore.Load` | agent-os/crates/identity/src/delegation.rs:608-641 | loading row by row gives the specified chain or error |
| `Delegation.SecurityStore.ResolveHop` | agent-os/crates/identity/src/delegation.rs:693-711 | a hop resolves exactly when its shape is good, its grants exist and carry exactly its capabilities |
| `Delegation.SecurityStore.PersistHop` | agent-os/crates/identity/src/delegation.rs:571-604 | a hop is appended, or refused without a change, as specified |
| `DelegationMeanings.HopAccepted` | agent-os/crates/identity/src/delegation.rs:571-604 | in every reachable store a hop is accepted exactly when it repeats nothing, continues the persisted chain in index and authority, and its grants exist and carry exactly its capabilities; the chain is then what it was and this hop |
| `Delegation.ChainsReload` | agent-os/crates/identity/src/delegation.rs:571-641 | after any run of grants and hops every chain reloads as exactly the persisted hops in order, capabilities sorted, and is valid |
| `Delegation.AuthorityOnlyShrinks` | agent-os/crates/identity/src/delegation.rs:571-690 | in every reachable store a later hop holds no capability an earlier one lacks |
| `Scopes.CoverageIsSound` | agent-os/crates/permissions/src/policy.rs:245-411 | a host admitted by a covered request rule is admitted by some grant rule, exact, suffix or wildcard |
| `Scopes.CoverageIsTransitive` | agent-os/crates/permissions/src/policy.rs:325-430 | coverage composes across every kind of scope, egress lists included |
| `ScopeMeanings.CoverageMeans` | agent-os/crates/permissions/src/policy.rs:325-430 | what coverage means, kind by kind: a location below the granted one, every requested host admitted by the grant (a star only by a star), a secret below the granted one with egress within the grant's, the same configuration change, every child count the request permits |
| `ScopeMeanings.UriMeans` | agent-os/crates/permissions/src/policy.rs:580-605 | a text normalises to a location exactly when it writes its scheme and segments, with or without one closing slash |
| `ScopeMeanings.WorkspaceMeans` | agent-os/crates/permissions/src/policy.rs:562-624 | a root and path normalise to a location exactly when they lead there without leaving the root |
| `ScopeMeanings.TraversalIsRefused` | agent-os/crates/permissions/src/policy.rs:562-624 | a root or path with a dot or dot-dot step names no workspace: nothing covers it and it covers nothing |
| `ScopeMeanings.DomainMeans` | agent-os/crates/permissions/src/policy.rs:641-682 | a token is valid exactly when it is a star, a dotted name, or a dotted name after a dot |
| `ScopeMeanings.CaseIsIgnored` | agent-os/crates/permissions/src/policy.rs:240-262 | texts that differ only in the case of ASCII letters are the same token, and match the same |
| `ScopeMeanings.MatchMeans` | agent-os/crates/permissions/src/policy.rs:240-262 | a star rule admits every host, a name itself, a name after a dot itself and everything below it |
| `ScopeMeanings.RuleCoverage` | agent-os/crates/permissions/src/policy.rs:389-411 | one rule covers another exactly when it admits every host the other admits |
| `ScopeMeanings.TokenCoverage` | agent-os/crates/permissions/src/policy.rs:389-411 | a list covers a requested rule exactly when it admits every host the rule admits; a requested star needs a star |
| `ScopeMeanings.EgressCoverage` | agent-os/crates/permissions/src/policy.rs:414-430 | egress coverage by what is admitted, absent and empty lists included |
| `Scopes.CoversItself` | agent-os/crates/permissions/src/policy.rs:325-381 | a target covers itself exactly when everything in it normalises |
| `Scopes.EgressTransitive` | agent-os/crates/permissions/src/policy.rs:414-430 | egress coverage composes, absent and empty lists included |
| `Scopes.EmptyEgressGrant` | agent-os/crates/permissions/src/policy.rs:414-430 | an empty egress list covers exactly requests without egress or with an empty list |
| `Scopes.WildcardEgressGrant` | agent-os/crates/permissions/src/policy.rs:414-430 | a grant with a `*` entry covers exactly the requests whose tokens all normalise |
| `Scopes.DomainIsFixed` | agent-os/crates/permissions/src/policy.rs:641-682 | domain normalisation is idempotent |
| `Scopes.NormalizeTwice` | agent-os/crates/permissions/src/policy.rs:580-605 | URI normalisation is idempotent |
| `Scopes.NormalForm` | agent-os/crates/permissions/src/policy.rs:580-605 | a normalised URI is a scheme and a nonempty list of good segments |
| `Scopes.RenderIsNormal` | agent-os/crates/permissions/src/policy.rs:580-605 | every scheme with good segments renders to a URI in normal form that splits back into them |
| `Scopes.SegmentPrefixMeaning` | agent-os/crates/permissions/src/policy.rs:384-386 | on normalised URIs the string test holds exactly when schemes agree and one segment list is a prefix of the other |
| `Scopes.WorkspaceIsConfined` | agent-os/crates/permissions/src/policy.rs:562-624 | a normalised workspace path is below its normalised root and has no empty, dot or dot-dot segment |
| `Permissions.AncestorCapabilities` | agent-os/crates/permissions/src/policy.rs:433-443 | the loop computes the intersection of all hops |
| `Permissions.AuthorityIsTip` | agent-os/crates/permissions/src/policy.rs:433-443 | on a valid chain of any length that intersection is the tip's own set |
| `Permissions.GroupRows` | agent-os/crates/permissions/src/policy.rs:273-284 | rows are grouped by exactly the cited grants of the tip that carry the capability |
| `Permissions.ScanGrants` | agent-os/crates/permissions/src/policy.rs:290-307 | whatever order the grants are visited in, the covering set and the expiry flag are the specified ones |
| `Permissions.BackingGrants` | agent-os/crates/permissions/src/policy.rs:269-317 | covering grants, or the reason there are none, as specified |
| `Permissions.Decide` | agent-os/crates/permissions/src/policy.rs:186-238 | the decision is the specified one |
| `Permissions.DecisionMeaning` | agent-os/crates/permissions/src/policy.rs:186-238 | allowed exactly when the chain is valid, the tip holds the supported capability, the tool allows it, the target fits, an unexpired grant covers it, and there is no joint risk; approval exactly when only joint risk is in the way; the ancestor reason only on invalid chains |
| `Permissions.DenialMeaning` | agent-os/crates/permissions/src/policy.rs:186-317 | a capability that is held is denied only for scope or expiry; expiry exactly when every cited grant has an expired row; tool restriction exactly when only the tool lacks it |
| `PermissionMeanings.AllowMeans` | agent-os/crates/permissions/src/policy.rs:186-238 | allowed exactly when the request is entitled and not risky, put up for approval exactly when entitled and risky, written on time stamps, domains, capabilities and rows; an allow cites exactly the backing grants, an approval names exactly what would be used together |
| `PermissionMeanings.RiskMeans` | agent-os/crates/permissions/src/policy.rs:446-482 | risky exactly when a secret is to be used or signed with and the caller can also connect, or the egress is empty or names a star |
| `PermissionMeanings.DenyMeans` | agent-os/crates/permissions/src/policy.rs:186-317 | over a valid chain each reason for a denial has its own condition on hops, tools, rows, target and time |
| `Permissions.CitedGrantBacks` | agent-os/crates/permissions/src/policy.rs:269-317 | every grant an allow cites is held by the tip, carries the capability, is unexpired and covers the target |
| `Permissions.NoHopExceedsAncestors` | agent-os/crates/permissions/src/policy.rs:186-238 | nothing is allowed, or offered for approval, that some hop of the chain does not hold |
| `Permissions.BroaderGrantKeepsAllow` | agent-os/crates/permissions/src/policy.rs:269-381 | broadening a grant row's scope never withdraws an allow nor a grant it cited |
| `Framing.BuildFrame` | agent-os/crates/approvals/src/lib.rs:131-174 | appending field by field builds the specified frame |
| `Framing.FrameIsInjective` | agent-os/crates/approvals/src/lib.rs:131-174 | two inputs with fields below 2^32 bytes share a frame exactly when all scalar and optional fields and the capability sets agree |
| `Framing.LongFieldsCollide` | agent-os/crates/approvals/src/lib.rs:160-164 | at 2^32 bytes the length prefix wraps: from any input, two that differ in operation and target share a frame |
| `Framing.FrameIsInjectiveIff` | agent-os/crates/approvals/src/lib.rs:131-174 | with fields of up to n bytes a frame determines its content exactly when n is below 2^32 |
| `Approvals.CapabilitiesRoundTrip` | agent-os/crates/approvals/src/lib.rs:552-570 | the stored list decodes to what was written exactly when every capability is supported, and to nothing otherwise |
| `Approvals.ApprovalStore.CreateRequest` | agent-os/crates/approvals/src/lib.rs:198-263 | the stored request, or the refusal, is the specified one |
| `Approvals.ApprovalStore.RespondTo` | agent-os/crates/approvals/src/lib.rs:304-357 | the response is stored, or refused for the first failing check, as specified |
| `ApprovalHistory.CreateReply` | agent-os/crates/approvals/src/lib.rs:198-263 | a request is told its id and digest, or that it is not acceptable, or that the id is taken, each by its own condition |
| `ApprovalHistory.RespondReply` | agent-os/crates/approvals/src/lib.rs:304-357 | the condition of each refusal, and an answer goes in exactly when the request is live and unanswered, the digest is its own, and the principal answers from a device |
| `ApprovalHistory.StoreIsHistory` | agent-os/crates/approvals/src/lib.rs:198-357 | in every run the stored request is the first acceptable one presented under its id, and the stored response is the first live answer presented, with that answer's verdict, digest, device, principal and time |
| `ApprovalHistory.OutcomeIsHistory` | agent-os/crates/approvals/src/lib.rs:499-532 | the outcome by the presented steps alone: unrequested, invalidated for another digest, else the verdict of the first live answer, else pending or expired by the request's expiry |
| `ApprovalHistory.ApprovalWasGiven` | agent-os/crates/approvals/src/lib.rs:499-532 | approved, and denied, only if a step of the run presented that verdict for the id and digest, by the principal and before the expiry |
| `Approvals.NewRowChecks` | agent-os/crates/approvals/src/lib.rs:198-263 | a new row stands for exactly the bound input, so its digest recomputes |
| `Approvals.RunKeepsSound` | agent-os/crates/approvals/src/lib.rs:198-357 | in every reachable store recomputed digests equal stored ones, and every response was live, by the principal and on the digest |
| `Approvals.RecordsAreFinal` | agent-os/crates/approvals/src/lib.rs:198-357 | requests and responses are never changed or removed, so a request has at most one response |
| `Approvals.ExpiredStaysUnanswered` | agent-os/crates/approvals/src/lib.rs:304-357 | past its expiry an unanswered request stays unanswered |
| `Approvals.ResolutionIsFinal` | agent-os/crates/approvals/src/lib.rs:499-532 | with a clock that does not go back, approved, denied and expired are final for a fixed expected digest |
| `Approvals.ApprovedMeans` | agent-os/crates/approvals/src/lib.rs:499-532 | approved exactly when the request carries the expected digest and was answered with approve; then the principal answered on that digest before the expiry |
| `Approvals.CheckNeverFails` | agent-os/crates/approvals/src/lib.rs:499-550 | the check reports no tampering on a store built by these operations |
| `Approvals.TamperingNeedsCollision` | agent-os/crates/approvals/src/lib.rs:535-550 | a row that still passes the check under the same digest says the same, or two different frames share a hash |
| `Approvals.LongRequestsCollide` | agent-os/crates/approvals/src/lib.rs:198-263 | past 2^32 bytes two different acceptable requests are bound to the same bytes |
| `ResourceUris.DecodeSegment` | agent-os/crates/resource-uri/src/parser.rs:251-273 | the index loop percent-decodes (section 2.1 of RFC 3986) and UTF-8-decodes as specified |
| `ResourceUris.BuildPath` | agent-os/crates/resource-uri/src/parser.rs:206-222 | the segment loop normalises a path as specified |
| `ResourceUris.NormalPathIsTokens` | agent-os/crates/resource-uri/src/parser.rs:206-248 | a normalised path is tokens joined by slashes: no empty, dot or dot-dot segment, no separator or escape inside one |
| `ResourceUris.TokenPathIsFixed` | agent-os/crates/resource-uri/src/parser.rs:206-248 | a path of tokens is its own normal form |
| `ResourceUris.ParsedIsCanonical` | agent-os/crates/resource-uri/src/parser.rs:57-142 | everything the parser accepts is canonical |
| `ResourceUris.PrintParses` | agent-os/crates/resource-uri/src/parser.rs:172-193 | every canonical value prints to a string that parses back to it |
| `ResourceUris.ParsePrintParse` | agent-os/crates/resource-uri/src/parser.rs:57-193 | whatever is accepted prints to a string with the same meaning: printing is a fixpoint after one parse |
| `UriMeanings.ParseMeans` | agent-os/crates/resource-uri/src/parser.rs:57-142 | a text parses to a value exactly when the value is canonical and the text writes it, every scheme and escaping considered |
| `UriMeanings.PercentMeans` | agent-os/crates/resource-uri/src/parser.rs:251-282 | decoding gives bytes exactly when the text writes them, each byte plain or as a two-digit escape in either case; so the escape of any byte decodes to it |
| `UriMeanings.PathMeans` | agent-os/crates/resource-uri/src/parser.rs:206-222 | a path normalises to another exactly when it spells its tokens |
| `Base64.B64Encode` | agent-os/crates/agentgw/src/main.rs:1931-1955 | the chunk loop writes the specified text |
| `Base64.B64Decode` | agent-os/crates/agentgw/src/main.rs:1957-2009 | the chunk loop decodes as specified or fails |
| `Base64.DecodeEncode` | agent-os/crates/agentgw/src/main.rs:1931-2009 | decoding undoes encoding for every byte sequence (section 4 of RFC 4648) |
| `Base64.AlphabetMeans` | agent-os/crates/agentgw/src/main.rs:1957-2009 | the symbols are the letters, small letters, digits, plus and slash of section 4 of RFC 4648, in that order, and nothing else |
| `Base64.DecodesExactly` | agent-os/crates/agentgw/src/main.rs:1957-2009 | decoding succeeds exactly on texts whose length is a multiple of four, made of symbols followed by at most two pads |
| `Base64.EncodeDecode` | agent-os/crates/agentgw/src/main.rs:1931-2009 | a text is the encoding of what it decodes to exactly when the bits past its last byte are zero |
| `Base64.SpareBitsAreIgnored` | agent-os/crates/agentgw/src/main.rs:1957-2009 | a text with spare bits set, which decodes and is not what encoding gives back |
| `Base64Bits.EncodingKeepsBits` | agent-os/crates/agentgw/src/main.rs:1931-1955 | read as one number, the symbols are the input's bits followed by zero bits up to a whole symbol: none, four or two by the length modulo three |
| `Topology.BuildChildren` | agent-os-microkernel-mvp-buildpack/scripts/sync_dag_sources.py:101-104 | the loops list each task under each dependency as often as it names it, and fail exactly on an unknown dependency |
| `Topology.Release` | agent-os-microkernel-mvp-buildpack/scripts/sync_dag_sources.py:111-114 | children lose one edge per listing, and exactly those that reach zero become ready |
| `Topology.Drain` | agent-os-microkernel-mvp-buildpack/scripts/sync_dag_sources.py:105-114 | the loop ends with a repetition-free greedy order and the degrees that order leaves |
| `Topology.TopologicalOrder` | agent-os-microkernel-mvp-buildpack/scripts/sync_dag_sources.py:97-117 | fails on an unknown dependency; else fails exactly on a repeated id or a cycle; else returns the greedy order, which holds every task after its dependencies |
| `Topology.GreedyIsTopological` | agent-os-microkernel-mvp-buildpack/scripts/sync_dag_sources.py:97-117 | a complete greedy order places every task after all its dependencies |
| `Topology.GreedyIsLeast` | agent-os-microkernel-mvp-buildpack/scripts/sync_dag_sources.py:97-117 | wherever another topological order first differs from the greedy one, it has the larger id |
| `Topology.CycleExcludesOrder` | agent-os-microkernel-mvp-buildpack/scripts/sync_dag_sources.py:115-116 | a cycle rules out every topological order |
| `Topology.StuckHasCycle` | agent-os-microkernel-mvp-buildpack/scripts/sync_dag_sources.py:115-116 | tasks that all wait for one another contain a cycle |

## Left out

- SQL text, connection pools, schema bootstrap and file handling: the store is maps under one write lock with atomic commit.
- Dispatcher.OutboxDispatcher.DispatchOnce: takes the scanned rows as a parameter, because the ordered SQL query is `Outbox.Scan`; `Dispatcher.DispatchOutcome` is about those rows.
- Dispatcher.DispatcherDrains: is about calls without faults over canonical keys; with faults, `Dispatcher.CallsPublishInOrder` says what was published.
- QueueRuns.FirstInFirstOut: covers runs without nacks, since a nack deliberately puts a message back in front; `QueueRuns.NackedIsNext` says where.
- Framing.FrameIsInjective: requires fields below 2^32 bytes and an expiry in 64 bits; that bound is exact for the set of inputs (`Framing.FrameIsInjectiveIff`), while which single longer inputs collide depends on their bytes.
- Topology.TopologicalOrder: the heap is a set of which the least id is taken; the heap's array layout is not modelled.
- Permissions.ScanGrants: visits grants in any order, where the source uses the order of a sorted map.
- Envelopes.StoredEnvelopeSurvives: identifiers in envelopes are nonempty text; that they are UUIDs is checked where they are made and not modelled here.
- The 64-bit widths of sequences, tokens and epochs, and the 32-bit width of a scan limit.
- A commit that stages several events is several consecutive staging steps.
- Protobuf bytes: the journal blob and the client frame are the record they encode, and two blobs are equal when their records are.
- SHA-256 is a parameter; the hexadecimal rendering of digests is left out.
- The rounding of the broadcast buffer to a power of two: the model lags exactly beyond the given capacity.
- Delivery into a closed client channel, which ends a subscription; in the model that is a disconnect.
- The text codec of grant scopes, the rendering of target tokens and nonces in approval drafts, and the events staged by approvals.
- The lookup of an earlier preparation under the same key in `prepare_effect`: the model refuses a second preparation of an id.
- The numeric option parsing of a queue consumer: the model takes the parsed maximum.
- HTTP and gRPC services, the command line, the desktop shell and the web application: input and output.
- Process spawning, signals, sockets, file locks, bundle hashing and artifact files: operating-system calls.
- Adapter framing, session deadlines and the JSON-RPC client: timeouts and opaque message bodies.
- Configuration handlers, effect policy ranking, the adapter resolver, enum mirrors and row mappers: they would only add easy members.
- The run graph, workspace coordinator, scheduler, sandbox and runtime recovery.
- Authentication and device tokens.
