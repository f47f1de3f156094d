# Verification of the replicated todo list

This project models the CRDT primitives, the replicated `TodoState` and the
peer-to-peer sync protocol of the repository, and proves what they keep over
every run. The primitives and `TodoState` are classes whose methods update maps
and sets in place, visit hash tables in an arbitrary order, and are proved
against pure specification functions. The protocol is a state machine over N
replicas and their connections; its steps use the same specification functions.

`dafny verify dfyconfig.toml` checks everything.

## How the model is laid out

| file | content |
|---|---|
| `Base.dfy` | `u64` as a subset type with wrapping addition |
| `VectorClock.dfy` | the clock class, its loops, and the pointwise order they compute |
| `Counters.dfy` | `GCounter`, `PNCounter`, order-independent sums; `CounterRuns`: replicas exchanging counters |
| `GSet.dfy` | the grow-only set class |
| `TodoId.dfy` | printed ids, reading them back, the replica id derived from a peer id |
| `TodoDoc.dfy` | the todo list as a value (`Doc` is what travels, `Replica` adds the three skipped fields), its operations, the information order `Leq`, the laws of merge and of joins |
| `TodoSnapshot.dfy` | string order, sorting, and what a browser snapshot must list |
| `TodoState.dfy` | the mutable `TodoState` object |
| `History.dfy` | the ground truth: one log of effective operations per replica, numbered by its clock entry, and what it means that logs explain a state |
| `Network.dfy` | the system: local operation, notification, connect, subscribe, wake, lag, tick, clone, send, disconnect, deliver, lose; and the invariant |
| `SyncSchedule.dfy` | what the sync loops can meet at their awaits and what they have to do then |
| `SyncLoop.dfy` | one replica's process as imperative code: the receive loop, the outgoing task with its reconnects, and `apply_and_broadcast`, each running among arbitrary steps of everyone else at every await, and taking only steps of the system |
| `LocalStep.dfy`, `Invariant.dfy` | every step keeps the invariant |
| `Runs.dfy` | theorems about every moment of every run |
| `Causality.dfy` | where snapshots come from, and that clocks decide happened-before |
| `Accounting.dfy` | what queues, send histories and the network hold, counted from the steps taken |
| `Sync.dfy` | lost wakeups, lost connections, counting ids |
| `Push.dfy` | a push can get through from every state of a worker: on its own, after losing the connection, and after a local change |
| `Convergence.dfy` | n - 1 rounds on a strongly connected graph |
| `Hypotheses.dfy` | why the hypotheses below are needed |

`LeqCore` compares every replicated field but `completed`; `Leq` compares all.

## Hypotheses of the run theorems

- Replica ids are distinct (the system is keyed by them) and peer ids are distinct.
  The bootstrap does not guarantee the first: see `SharedReplicaIdHidesItems`;
  `ReplicaIdsCollideIff` says exactly which peer ids collide.
- No replica restarts within a run: see `RestartReusesIds`.
- Each replica performs fewer than 2^64 effective operations in a run. Arithmetic is
  that of a release build: `u64` additions wrap. `IncrementIsStrict` shows the
  clock is exact precisely up to that limit. The counter runs assume that all
  increments together stay below 2^64 and prove that then no slot and no sum wraps.
- Statements about `completed` that need runs without an un-toggle say so;
  `ClocksOrderEverythingIff` shows that the condition is exact.

Frames in flight form a set from which any frame may be delivered any number of
times, in any order, or lost, and which outlives its connection. This covers TCP's
in-order delivery, connections that die with frames unread, and readers of an old
connection that are still draining it.

Where the documentation promises more than the code does: the header of
`state.rs` calls every field a CRDT or monotonic, but `toggle` can lower a flag
(`ToggleInflatesIff`, `UntoggleIsUndone`), and `traits.rs` calls merge a least upper
bound, but the map merges prefer the left side, so that holds exactly for states
that agree on their ids' texts and creators (`MergeAboveRightIff`,
`MergeCommutesIff`). All states of a run do (`IdsNeverConflict`).

In `SyncLoop.dfy` a schedule lists what everybody else tries at each await.
`Node.Others` takes every listed step that can be taken in its turn, and
`TakenAll` shows that any interference the system allows can be listed.

## Model

| member | source | states |
|---|---|---|
| `VectorClocks.VectorClock.Increment` | crates/crdt-core/src/vector_clock.rs:25-29 | adds one to the replica's entry, creating it at zero, and returns the new value |
| `VectorClocks.VectorClock.Observe` | crates/crdt-core/src/vector_clock.rs:35-41 | raises an entry to a seen counter; zero is ignored and never stored |
| `VectorClocks.VectorClock.PartialCmp` | crates/crdt-core/src/vector_clock.rs:57-79 | the two-pass key loop with its early exit returns what the pointwise order on all replicas says, for every key order |
| `VectorClocks.VectorClock.HappensBefore` | crates/crdt-core/src/vector_clock.rs:43-45 | true exactly for strictly smaller in the pointwise order |
| `VectorClocks.VectorClock.ConcurrentWith` | crates/crdt-core/src/vector_clock.rs:47-49 | true exactly when neither clock is below the other |
| `VectorClocks.VectorClock.Merge` | crates/crdt-core/src/vector_clock.rs:84-92 | the loop computes the elementwise maximum in any key order and stores no zero of the other side |
| `VectorClocks.CompareReversed` | crates/crdt-core/src/vector_clock.rs:56-81 | swapping the arguments reverses the comparison |
| `VectorClocks.CompareTransitive` | crates/crdt-core/src/vector_clock.rs:56-81 | comparisons chain; one strict step makes the whole strict |
| `VectorClocks.EqualIsStructural` | crates/crdt-core/src/vector_clock.rs:15-18 | on clocks without zero entries the derived equality is the order's Equal |
| `VectorClocks.OperationsKeepPositive` | crates/crdt-core/src/vector_clock.rs:25-41 | the operations store no zero; for increment exactly when it does not overflow |
| `VectorClocks.ObserveIsLeast` | crates/crdt-core/src/vector_clock.rs:35-41 | observing gives the least clock above the old one whose entry reaches the counter; a zero counter changes nothing |
| `VectorClocks.IncrementIsStrict` | crates/crdt-core/src/vector_clock.rs:25-29 | an increment moves the clock strictly up exactly when it does not overflow |
| `VectorClocks.MergeIsLub` | crates/crdt-core/src/vector_clock.rs:83-93 | merge is the least upper bound of the clock order |
| `VectorClocks.MergeAssociative` | crates/crdt-core/src/vector_clock.rs:83-93 | merging clocks is associative, zero entries included |
| `VectorClocks.MergeCommutative` | crates/crdt-core/src/vector_clock.rs:83-93 | merging clocks without zero entries is commutative |
| `Counters.GCounter.Increment` | crates/crdt-core/src/counter.rs:49-51 | adds to one slot and leaves the others |
| `Counters.GCounter.Value` | crates/crdt-core/src/counter.rs:54-56 | the sum of all slots modulo 2^64, independent of iteration order |
| `Counters.GCounter.Merge` | crates/crdt-core/src/counter.rs:67-72 | the loop computes the slotwise maximum in any order |
| `Counters.PNCounter.Increment` | crates/crdt-core/src/pn_counter.rs:17-19 | counts up on the increments side only |
| `Counters.PNCounter.Decrement` | crates/crdt-core/src/pn_counter.rs:21-23 | counts up on the decrements side only |
| `Counters.PNCounter.Value` | crates/crdt-core/src/pn_counter.rs:25-27 | increments minus decrements, always within i128 |
| `Counters.PNCounter.Merge` | crates/crdt-core/src/pn_counter.rs:31-34 | merges both sides |
| `Counters.MergeConservesSum` | crates/crdt-core/src/counter.rs:64-73 | merging loses exactly what both sides had counted in common |
| `Counters.MergeSumBounds` | crates/crdt-core/src/counter.rs:64-73 | the merged sum lies between the larger sum and the total, and is the total exactly when no replica was counted on both sides |
| `CounterRuns.CountersConserve` | crates/crdt-core/src/counter.rs:7-9 | in every run no slot or sum exceeds what was counted or overflows, and a counter is exact just when it has caught up with every replica |
| `CounterRuns.AgreementIsExact` | crates/crdt-core/src/counter.rs:7-9 | replicas that agree show the exact total ever counted |
| `CounterRuns.PNRunProjects` | crates/crdt-core/src/pn_counter.rs:12-35 | a run of PN-counters is two runs of G-counters side by side |
| `CounterRuns.PNCountersConserve` | crates/crdt-core/src/pn_counter.rs:12-35 | once replicas agree the value is total increments minus total decrements |
| `GSets.GSet.Insert` | crates/crdt-core/src/g_set.rs:29-31 | adds the element and says whether it was new |
| `GSets.GSet.Merge` | crates/crdt-core/src/g_set.rs:50-54 | set union |
| `TodoIds.IdRoundTrip` | crates/todo-app/src/state.rs:131-134 | splitting at the last dash reads back exactly the printed ids, whatever the peer id contains |
| `TodoIds.PrintIdInjective` | crates/todo-app/src/state.rs:131-134 | ids print alike exactly for the same peer and number |
| `TodoIds.DigitsOfConcat` | crates/todo-app/src/main.rs:78-83 | the digits of a peer id are collected character by character in their order |
| `TodoDocs.TrimSplits` | crates/todo-app/src/state.rs:65-68 | trimming cuts whitespace off both ends and nothing else |
| `TodoDocs.WhitespaceIs` | crates/todo-app/src/state.rs:65 | exactly the 25 written-out characters count as whitespace |
| `TodoDocs.TrimOf` | crates/todo-app/src/state.rs:65 | what stands between outer whitespace is what trimming leaves |
| `TodoDocs.AddIgnoredIff` | crates/todo-app/src/state.rs:65-68 | adding leaves the state alone exactly for texts of nothing but those characters |
| `TodoDocs.AddFiles` | crates/todo-app/src/state.rs:64-75 | any other text is filed without its outer whitespace under peer, dash and the next number, unset and with the local peer as creator, and counts one operation |
| `TodoDocs.MergeAssociative` | crates/todo-app/src/state.rs:138-156 | merge is associative on all states |
| `TodoDocs.MergeIdempotent` | crates/todo-app/src/state.rs:138-156 | merge is idempotent on all states |
| `TodoDocs.MergeCommutesIff` | crates/todo-app/src/state.rs:142-149 | the left-biased merge commutes exactly for states that agree on their ids' texts and creators |
| `TodoDocs.MergeLeastAbove` | crates/crdt-core/src/traits.rs:5-8 | merge is above its left argument and below every upper bound |
| `TodoDocs.MergeAboveRightIff` | crates/crdt-core/src/traits.rs:5-8 | merge takes in all of its right argument exactly for consistent states, and is then the least upper bound |
| `TodoDocs.MutualMergeAgrees` | crates/todo-app/src/state.rs:209-218 | merging both ways makes the two states equal |
| `TodoDocs.ToggleInflatesIff` | crates/todo-app/src/state.rs:77-85 | a toggle moves the state up exactly when it is ignored or finds its flag unset (and the clock has room) |
| `TodoDocs.JoinAbove` | crates/todo-app/src/state.rs:138-156 | the join of several consistent states contains each of them, whatever the merge order |
| `TodoSnapshots.ListingUnique` | crates/todo-app/src/state.rs:96-114 | equal content gives the identical list whatever the hash order |
| `TodoSnapshots.BeforeIff` | crates/todo-app/src/state.rs:114 | the id order is the code point order: at the first difference the smaller string has ended or has the smaller character |
| `TodoSnapshots.ListingFields` | crates/todo-app/src/state.rs:97-113 | the items are exactly the ids added, not removed and with a text; a missing flag counts as unset, a missing creator as the local peer |
| `TodoSnapshots.ListingAscends` | crates/todo-app/src/state.rs:114 | the list ascends in that order |
| `TodoSnapshots.SortById` | crates/todo-app/src/state.rs:114 | sorts by id, ascending in code point order, and keeps every item |
| `TodoStates.TodoState.constructor` | crates/todo-app/src/state.rs:41-53 | a new state is empty, with its own parts |
| `TodoStates.TodoState.Apply` | crates/todo-app/src/state.rs:55-62 | dispatches to the operation; Resync changes nothing |
| `TodoStates.TodoState.Add` | crates/todo-app/src/state.rs:64-75 | a blank text is ignored; otherwise counts an operation, draws the next id and files trimmed text, unset flag and creator under it |
| `TodoStates.TodoState.Toggle` | crates/todo-app/src/state.rs:77-85 | ignored unless the id is visible; otherwise counts an operation and flips the flag |
| `TodoStates.TodoState.Delete` | crates/todo-app/src/state.rs:87-94 | ignored unless the id was added; otherwise counts an operation and leaves a tombstone |
| `TodoStates.TodoState.NewTodoId` | crates/todo-app/src/state.rs:131-134 | draws the next number and prints it behind the peer id |
| `TodoStates.TodoState.Snapshot` | crates/todo-app/src/state.rs:96-129 | lists exactly the visible items with their fields, ids strictly ascending in code point order, and the replica's own clock entry |
| `TodoStates.TodoState.Merge` | crates/todo-app/src/state.rs:138-156 | the set unions, the first-writer maps, the OR of the flags and the clock merge together are the merge of the values; local fields stay |
| `TodoStates.TodoState.SyncPair` | crates/todo-app/src/state.rs:209-218 | two consistent states that merge each other hold the same least upper bound |
| `TodoStates.TodoState.FromWire` | crates/todo-app/src/state.rs:23-30 | a deserialized state has default values in the skipped fields |
| `SyncLoops.Node.Receive` | crates/crdt-sync/src/lib.rs:168-180 | merges an arriving state that is in flight to this replica, in one step, and announces the remote update |
| `SyncLoops.Node.ServeIncoming` | crates/crdt-sync/src/lib.rs:153-183 | greets, then merges and announces every state that arrives in turn, skips Hellos, and ends with an error exactly at a failed greeting or the first unreadable frame; undisturbed it ends at the merge of all |
| `SyncSchedules.ReceivedAllIsLub` | crates/crdt-sync/src/lib.rs:173-180 | whatever consistent states arrive, in whatever order and however often, the receiver holds the least state above its own and all of theirs |
| `SyncLoops.MergedForGood` | crates/crdt-sync/src/lib.rs:173-180 | in a run, whatever the receive loop merged stays contained in the shared state, flags aside |
| `SyncLoops.Node.SendMessage` | crates/crdt-sync/src/lib.rs:268-278 | a written snapshot is in flight; a failed write ends the connection and loses what the schedule says of its frames |
| `SyncLoops.Node.PushState` | crates/crdt-sync/src/lib.rs:254-266 | what is sent is the state at the moment of the clone, whatever others do before and after it; a failed write sends nothing and takes the worker offline |
| `SyncLoops.Node.TakeTurn` | crates/crdt-sync/src/lib.rs:238-251 | with a tick or 1 to 16 unread notifications a turn of the select sends the state once, unless the write fails; with more unread and no tick it ends the session, sending nothing; with none it waits |
| `SyncSchedules.LoopEnds` | crates/crdt-sync/src/lib.rs:239-251 | the loop ends exactly when the turns run out, when more than 16 notifications are unread, or when a push that is due fails |
| `SyncSchedules.AttemptEnds` | crates/crdt-sync/src/lib.rs:193-251 | an attempt fails if the connection, the Hello or the first push does, and otherwise ends as its loop does |
| `SyncLoops.Node.SelectLoop` | crates/crdt-sync/src/lib.rs:239-251 | the loop sends one snapshot per turn with a tick or a readable notification, each the state at its own clone |
| `SyncLoops.Node.DriveOutgoing` | crates/crdt-sync/src/lib.rs:214-252 | Hello, first push and select loop: exactly these actions for the queue lengths met at each turn, whatever else happens in between; it sends one snapshot to begin with and one per turn that is due, each the state at its own clone |
| `SyncLoops.Node.RunOutgoing` | crates/crdt-sync/src/lib.rs:193-211 | connects, subscribes before the first push, drives the session, and tries again exactly after each session that ended or attempt that failed |
| `SyncLoops.WaitingTaskIsUpToDate` | crates/crdt-sync/src/lib.rs:185-252 | a task that waits with nothing to read and nothing to be notified has sent every local operation over its connection, whatever interleaved with the loops |
| `SyncLoops.Node.ApplyAndNotify` | crates/todo-app/src/server.rs:111-118 | applies the message to the state of that moment and, after whatever others do in between, notifies each subscribed outgoing task once |
| `Histories.MergeExplained` | crates/todo-app/src/state.rs:138-156 | the merge of states explained by the logs is explained by the logs |
| `Histories.ClockSummarizes` | crates/todo-app/src/state.rs:64-94 | among explained states containment is what the clocks say, flags aside; without an un-toggle flags included |
| `LocalSteps.EffectOf` | crates/todo-app/src/state.rs:55-94 | a message either changes nothing or has exactly the effect of one logged event |
| `LocalSteps.AffectedExplained` | crates/todo-app/src/state.rs:64-94 | after an effective operation the state is explained by the log with that operation |
| `Invariants.EventKeepsInv` | crates/todo-app/src/server.rs:111-118 | an effective local operation keeps the invariant of the whole system |
| `Invariants.DeliverKeepsInv` | crates/crdt-sync/src/lib.rs:173-180 | merging a received state keeps the invariant |
| `Invariants.WorkKeepsInv` | crates/crdt-sync/src/lib.rs:193-252 | every step of an outgoing worker keeps the invariant |
| `Invariants.NotifyKeepsInv` | crates/todo-app/src/server.rs:116-118 | the notification that follows a local message keeps the invariant |
| `Invariants.StepKeepsInv` | crates/crdt-sync/src/lib.rs:153-266 | every step keeps the invariant |
| `Runs.RunInv` | crates/crdt-sync/src/lib.rs:153-266 | the invariant holds at every moment of every run |
| `Runs.ClockIsExactSummary` | crates/todo-app/src/state.rs:137-157 | of any two states occurring anywhere, at any moments, one is contained in the other (flags aside) exactly when its clock is; equal clocks mean equal fields |
| `Runs.StrongEventualConsistency` | crates/todo-app/src/state.rs:150-155 | without an un-toggle a flag is set exactly when a toggle lies under the clock, and equal clocks mean equal states |
| `Runs.ClocksOrderEverythingIff` | crates/todo-app/src/state.rs:8-11 | clocks order all states of a run, flags included, exactly when the run has no un-toggle |
| `Runs.NobodyIsAhead` | crates/crdt-core/src/vector_clock.rs:83-93 | no state anywhere counts more operations of a replica than that replica performed |
| `Runs.LocalOperationIsNews` | crates/todo-app/src/state.rs:69 | after an effective operation nothing that occurred before has caught up with the new clock |
| `Runs.ReplicaOnlyGains` | crates/crdt-sync/src/lib.rs:173-180 | a replica's later state contains its earlier one, flags aside |
| `Runs.IdsNeverConflict` | crates/todo-app/src/state.rs:142-149 | any two occurring states agree on texts and creators, so their merge commutes and contains both |
| `Runs.IdsAreOwned` | crates/todo-app/src/state.rs:64-75 | every id reads back as its creator and a number the creator handed out and still holds, within the creator's clock entry; its text is not blank |
| `Runs.FieldsCoverIds` | crates/todo-app/src/state.rs:96-113 | added, texts, completed and creators always cover the same ids, removed only those |
| `Runs.NextIdOccursNowhere` | crates/todo-app/src/state.rs:131-134 | the next id occurs in no replica, frame or sent snapshot |
| `Runs.SnapshotIsComplete` | crates/todo-app/src/state.rs:96-114 | at every moment the list has an item for each added and not removed id, as many as the difference of the sizes, and uses no default |
| `Runs.EqualStatesShowEqualLists` | crates/todo-app/src/state.rs:96-114 | replicas with equal replicated fields show the identical list |
| `Runs.TombstonesAreFinal` | crates/todo-app/src/state.rs:87-100 | an id is visible over one contiguous stretch and never returns once removed |
| `Runs.DeliveredForGood` | crates/crdt-sync/src/lib.rs:173-180 | a delivered snapshot stays contained in the receiver, flags aside |
| `Causality.SnapshotHasOrigin` | crates/crdt-sync/src/lib.rs:261-264 | every snapshot cloned, in flight or ever sent equals its sender's state at some earlier moment |
| `Causality.SnapshotsOfOneSender` | crates/crdt-sync/src/lib.rs:254-266 | any two snapshots of one sender, over any connections and at any moments, are contained one in the other, flags aside |
| `Causality.HappenedBeforeTransitive` | crates/crdt-core/src/vector_clock.rs:3-6 | happened-before, defined by order at one replica and order along messages, is transitive |
| `Causality.ClockCountsPast` | crates/crdt-core/src/vector_clock.rs:3-6 | an operation's clock counts another operation exactly if that is itself or happened before it |
| `Causality.ClocksRevealCausality` | crates/crdt-core/src/vector_clock.rs:3-6 | of any two operations of a run, the clock comparison says which happened before the other, that they are the same, or that they are concurrent |
| `Accounting.QueueConserved` | crates/crdt-sync/src/lib.rs:198-241 | a subscribed worker's unread notifications are those fired since it subscribed minus those it read; its connection sent one snapshot per send |
| `Accounting.FreshQueueIsEmpty` | crates/crdt-sync/src/lib.rs:198 | a new subscription starts with an empty queue and nothing sent |
| `Accounting.SendsCounted` | crates/crdt-sync/src/lib.rs:254-266 | what an edge has sent is one snapshot per send |
| `Accounting.ActionPossibleIff` | crates/crdt-sync/src/lib.rs:193-252 | an outgoing task can act exactly in the order connect, subscribe, clone, send, wait, and again; its connection can break at any time |
| `Accounting.ReadPossibleIff` | crates/crdt-sync/src/lib.rs:241-244 | a waiting task reads a notification exactly with 1 to 16 unread since it subscribed, and lags exactly with more |
| `Accounting.NotificationsOwed` | crates/todo-app/src/server.rs:111-118 | every local message is notified once: the notifications owed are the messages applied minus those fired |
| `Accounting.FlightIff` | crates/crdt-sync/src/lib.rs:153-266 | a frame is in flight exactly if it was sent and neither delivered for the last time nor lost since |
| `Sync.NoLostWakeup` | crates/crdt-sync/src/lib.rs:193-251 | a waiting worker with nothing to read, and no local message still to be notified, has sent every local operation over the current connection |
| `Sync.OccursBelowJoin` | crates/crdt-sync/src/lib.rs:254-266 | while replicas are quiet everything in the system stays below what they knew together |
| `Sync.LostFramesLoseNothing` | crates/crdt-sync/src/lib.rs:194-210 | the join of the replicas already contains every snapshot in flight, so dropping frames loses nothing but flags |
| `Sync.FramesAreBehindSender` | crates/crdt-sync/src/lib.rs:254-266 | a frame in flight is contained in its sender's current state |
| `Sync.SentSnapshotsIncrease` | crates/crdt-sync/src/lib.rs:193-211 | the snapshots of one edge increase, across reconnects too |
| `Sync.AgreedIdsAreCounted` | crates/todo-app/src/state.rs:131-134 | once all replicas hold the same ids their number is the sum of the local counters |
| `Pushes.DuePushArrives` | crates/crdt-sync/src/lib.rs:254-266 | clone, send and delivery make the receiver merge exactly the sender's state; no other replica changes |
| `Pushes.CatchesUp` | crates/crdt-sync/src/lib.rs:193-251 | wherever a worker stands, offline, mid-push, waiting or lagging, it can go on, and its next push leaves the receiver containing all the sender holds, flags included |
| `Pushes.ReconnectCatchesUp` | crates/crdt-sync/src/lib.rs:193-211 | the same after losing the connection with any part of its frames |
| `Pushes.ChangeIsPushed` | crates/crdt-sync/src/lib.rs:12-14 | a local message and its notification can be followed, wherever the worker stands, by a push that brings the message's effect to the peer |
| `Convergence.TransferCarries` | crates/crdt-sync/src/lib.rs:254-266 | in any run a snapshot cloned and delivered, with anything interleaved, brings everything the sender held until the clone to the receiver for good; flags included while no replica performs an effective operation |
| `Convergence.QuietStepRises` | crates/crdt-sync/src/lib.rs:173-180 | without effective operations every step moves every replica up, flags included |
| `Convergence.RoundReachesOneMore` | crates/crdt-sync/src/lib.rs:233-251 | each round carries a replica's knowledge to at least one more replica until all have it; flags aside with local operations going on, flags included without |
| `Convergence.EveryoneKnowsEveryone` | crates/crdt-sync/src/lib.rs:11-17 | after n - 1 rounds every replica contains what every replica held at the start, flags aside whatever goes on meanwhile, flags included without effective operations |
| `Convergence.RoundsCarryJoin` | crates/crdt-sync/src/lib.rs:11-17 | and so contains the join of all starting states |
| `Convergence.RoundsConverge` | crates/crdt-sync/src/lib.rs:11-17 | after n - 1 rounds without effective operations on a strongly connected graph, under any interleaving, all replicas equal the join of the starting states, flags aside; and entirely unless they hold a flag the join does not |
| `Convergence.FlagsConvergeIff` | crates/crdt-sync/src/lib.rs:11-17 | the flags converge too exactly when every frame delivered during the rounds is contained in the join |
| `Convergence.CleanStartConverges` | crates/crdt-sync/src/lib.rs:11-17 | so they do if no snapshot was under way at the start |
| `Hypotheses.SharedReplicaIdHidesItems` | crates/todo-app/src/main.rs:78-83 | two peers with one replica id get equal clocks with different items |
| `Hypotheses.PeersWithoutDigitsCollide` | crates/todo-app/src/main.rs:78-83 | every peer id without digits gets replica id 1 |
| `Hypotheses.ReplicaIdsCollideIff` | crates/todo-app/src/main.rs:78-83 | two peer ids get one replica id exactly when their digits agree after dropping leading zeros, no digits and too many counting as 1 |
| `Hypotheses.RestartReusesIds` | crates/todo-app/src/state.rs:29-45 | a restarted peer reuses ids, and then merging depends on its direction |
| `Hypotheses.UntoggleIsUndone` | crates/todo-app/src/state.rs:8-11 | once another replica saw a flag set, un-toggling it does not last |

## Left out

- The endless loops of `SyncLoop.dfy` run over a finite schedule of awaits, so they cover every finite stretch of the real ones. The accept loop, which only starts a receive task per connection, has no imperative form; other connections of the same replica act through the steps of others.
- SyncLoops.Node.SendMessage: a write that reports failure sends nothing there; that its frame arrives all the same is covered by the system, where a send may be followed by a disconnect at once.
- TCP, tokio, timers, sleeps, bincode and framing: a tick, a failed connect, a loss or a disconnect may happen at any time; serialization is the projection to `Doc`; what a Hello says is only logged and not modelled.
- Liveness of single messages: nothing says that a push is ever scheduled. `CatchesUp` and `ChangeIsPushed` say that it can always happen, `TransferCarries` and the round theorems what follows once it did.
- axum routing, WebSocket handling, JSON and the order in which browsers receive snapshots; what browsers do with a remote update.
- Process restarts as steps of a run: ids repeat after one (`RestartReusesIds`).
- Debug builds panic where a release build wraps; the run theorems stay below the limit, where the two agree.
- Rust's sort is taken by its contract: `TodoSnapshots.SortById` is an insertion sort with the same result.
- `Dot` in `clock.rs` is unused by the repository; the history's `Dot` here numbers log entries.
- Laws of the grow-only set on its own, `len`, `is_empty`, `replica_count` and iterators.
