# Verified model of the Fabric-X committer

This project models the parts of the Fabric-X committer that decide what is committed and who learns of it,
and proves what those parts promise for every batch, every interleaving and every run. It is written for
Dafny 4.11; `dafny verify dfyconfig.toml` checks all of it.

The committer is a pipeline of services. A sidecar maps ordered blocks and submits their transactions; a
coordinator hands them to validator-committers and collects results; validator-committers check and write
batches to a shared database; snapshot hashers digest frozen copies of it; a query service shares read views.

| files | what they model |
|---|---|
| `Encoding.dfy` | order-preserving numbers, height bytes, checkpoint keys |
| `VcTypes.dfy`, `VcPrepare.dfy`, `VcDatabase.dfy`, `VcCommit.dfy`, `VcPipeline.dfy`, `VcLaws.dfy`, `VcService.dfy` | the validator-committer from a batch to its answer |
| `SidecarForm.dfy` | the form checks of the sidecar, and what they secure for the validator-committer |
| `SidecarMapping.dfy`, `SidecarRing.dfy`, `SidecarRelay.dfy`, `SidecarRelaySafety.dfy`, `SidecarRelayLaws.dfy` | block mapping, ID dedup, the ring of blocks in flight, and the relay's goroutines |
| `SidecarNotifier.dfy` | the notifier's subscription table |
| `Coordinator.dfy`, `CoordinatorOwnership.dfy`, `CoordinatorIdle.dfy` | node ownership across failing streams; the counters behind the idle call |
| `SnapshotLifecycle.dfy`, `SnapshotHasher.dfy` | the durable snapshot records; what a snapshot's hash covers |
| `QueryViews.dfy` | reference-counted batchers shared by views |
| `KeyModel.dfy` | the load generator's key model |
| `Common.dfy` | machine integers, heights, facts about division |

How things are modelled:

- Code that loops over maps and slices is a class or a method with loops. Iteration over a Go map picks any
  remaining key. Goroutines that share state are a step machine: a step is one atomic operation, one locked
  section or one channel operation, and the theorems hold after every sequence of steps.
- The database is two maps, namespace and key to value and version, and transaction ID to status and height.
  The SQL functions are methods over these maps that report all duplicates, or all colliding keys, and change
  nothing when they report any.
- What others do to the database before each of a batch's accesses to it, the verdicts of the snapshot and checkpoint
  gates, parsed messages, random bytes and the hash function are parameters, so each theorem holds for all of
  them.
- Versions, block numbers and offsets wrap at 64 bits where the code lets them.

The assumptions the theorems make about neighbours are written as predicates and named in the table:
conflict-freedom inside a batch (the dependency graph), heights not submitted again before they are answered
and at most one report for each transaction sent (the coordinator and the sidecar to each other), a snapshot
transaction alone in flight (which `RelaySafety.BarriersHold` proves of the relay), consecutive block numbers
(the delivery client). What the pipeline asks of single transactions, that they touch a key once and that
checkpoints stand alone, is proved of the sidecar's checks (`TxForm.SidecarSecuresForm`).

Results that contradict a first reading of the code:

- A `uint64` version of 2^64 - 1 is mistaken for "no version" by the preparer's map key
  (`VcPrepare.CmpReadDistinguishes`); the pipeline's main theorem asks for its absence. That it asks for no other bound is a property of the
  model's table: the version column is a `BIGINT`, which cannot store 2^63 or more.
- Decoding is not injective: `[1, 0]` decodes to 0 as `[0]` does (`Encoding.NonCanonicalDecodes`); decoding is
  inverted by encoding exactly when the payload has no leading zero (`Encoding.DecodedIsCanonical`).
- A block that holds both a config transaction and an accepted snapshot transaction never submits the latter
  (`RelaySteps.EveryPendingSubmittedIff`), and mapping lets such a block through
  (`RelaySteps.ConfigAndSnapshotMaps`, `RelaySteps.SnapshotStranded`). The session then emits neither that block
  nor any later one (`RelaySafety.NeverEmitted`).
- The notifier can reject an ID that it also accepts and later reports: a request may name an ID twice, and all
  of its IDs from the first without a slot on are rejected (`Notifier.RejectedYetReported`). Which IDs, the IDs
  and the free slots alone decide (`Notifier.SplitsIff`).
- An idle answer of the coordinator does not mean that its result queue is empty: any batch can be left in it
  (`IdleHandshake.IdleWithQueuedResult`). The comment in `service/coordinator/coordinator.go` takes the
  comparison for "nothing in progress", and it is that number being zero that means an empty queue
  (`IdleHandshake.IdleMeansEmptyIff`).
- A block can have several checkpoint keys, `[1, 5]` and `[2, 0, 5]` for block 5 (`Encoding.TwoKeysOneBlock`),
  because every key that decodes is accepted (`service/sidecar/mapping.go:593`). It has a single one exactly
  when its number is at least 2^56 (`Encoding.OneKeyIff`).
- So competing closures of a snapshot need not share a key, as `utils/statedb/snapshot_state.go:329` has it. With
  two keys the guard behind the insert is reached (`SnapshotLifecycle.GuardReached`), or a checkpoint is written
  although its snapshot was closed the other way (`SnapshotLifecycle.WrittenInVain`).
  `SnapshotLifecycle.CheckpointOutcome` says exactly when, and `SnapshotLifecycle.SharedKeyDecides` that neither
  happens while every checkpoint writes the shortest key.
- A snapshot database can be made for a transaction that is already decided
  (`SnapshotLifecycle.LateClone`, exactly when: `SnapshotLifecycle.LateCloneIff`), although
  `service/vc/database_snapshot.go:199` rules it out: the status is read before the database is created.
- The paged scan skips a row with an empty key (`SnapshotHasher.AfterStart`).

## Model

| member | source | states |
|---|---|---|
| VcService.ProcessBatch | service/vc/committer.go:95-177 | One batch through preparer, validator and committer. Whatever other writers do to the tables before any access, and whatever the gates say, a reply answers each distinct ID with something to commit exactly once, at its own height, by a status or by the one checkpoint feedback. A conflict-free batch without system transactions that nobody disturbs always gets a reply, after at most two rejected attempts, and its tables, versions, status rows and reported statuses are those of running its transactions one by one in any order. Said of the transactions as submitted: a new one commits exactly when all versions it read and those of its namespaces are current, each of its writes leaves its value one version after the key's old one or at version 0 when the key was absent, nothing else changes, and statuses and rows are those of these decisions |
| VcLaws.MergedFollows | service/vc/preparer.go:291-338 | The merged effects of a batch, said of its transactions as submitted: which commit, the value and version each write leaves, and every row |
| VcLaws.EffectAdvances | service/vc/preparer.go:315-315 | A write that goes through leaves its key one version further, wrapping after 2^64 - 1, or at version 0 when it was absent |
| VcLaws.OldVersionIsStale | service/vc/database.go:120-147 | Whoever read the version a key had before it was written is stale from then on |
| VcLaws.FreshIsCurrent | service/vc/preparer.go:178-252 | The reads a transaction depends on are those it lists, the version of each data namespace in the meta namespace and that of the config entry for the meta namespace |
| VcService.MergedIsSerializable | service/vc/committer.go:95-177 | The merged effects of a batch are the result of every serial order, repetitions included |
| VcService.BatchIsAnOrder | service/vc/preparer.go:155-176 | The batch as it arrived, with repeated submissions of a transaction, is one of those serial orders |
| VcSerial.SerialMerges | service/vc/committer.go:95-177 | Every serial order of a conflict-free batch leads to the same merged tables, and each run of a transaction reports the status decided against the tables before the batch: a stored status for the same height, a duplicate for another height, the preliminary status, an abort on any stale read |
| VcSerial.MergedIsUnique | service/vc/committer.go:95-177 | Merged effects determine the tables |
| VcService.CommitLoop | service/vc/committer.go:137-177 | The retry loop, with arbitrary changes by others before each attempt: a reply accounts for every transaction; undisturbed, duplicates cost at most one attempt and insert conflicts at most one more |
| VcService.TryCommit | service/vc/committer.go:137-173 | One attempt leaves the batch and all accounts in order, and either settles the batch or advances the loop towards its bound |
| VcService.CommitTransactions | service/vc/committer.go:95-177 | Categorising blind writes and committing what the validator handed over: exactly-once answers always, merged tables and right statuses when undisturbed |
| VcService.Finish | service/vc/committer.go:155-168 | The final statuses answer every transaction once and, after a settled attempt, are the serial ones |
| VcService.DoneSettles | service/vc/database.go:272-316 | A committed attempt holds no duplicate and no insert conflict, and its tables are the merged effects |
| VcService.ConflictsProgress | service/vc/committer.go:170-172 | Insert conflicts always name registered reads, so pruning never fails on a missing read, and one such pruning removes all of them |
| VcService.DuplicatesProgress | service/vc/committer.go:173-173 | One pruning removes all duplicate IDs |
| VcService.CorrectedOnce | service/vc/committer.go:235-272 | Correcting duplicate statuses keeps exactly-once answers |
| VcService.StartsAccounted | service/vc/preparer.go:155-252 | After preparation exactly the transactions with something to commit are listed |
| VcService.HitsAccounted | service/vc/validator.go:182-199 | A commit conflict never hits a withheld checkpoint |
| VcService.Validate | service/vc/validator.go:90-146 | Bulk read check and both gates: whatever others write meanwhile, no missing-read error and nobody lost; undisturbed, everything left in a batch without system transactions passes every check but the insert check |
| VcService.CheckReads | service/vc/validator.go:108-124 | The same for the bulk check alone: what it prunes was registered for a read it reported |
| VcService.CheckGates | service/vc/validator.go:126-136 | Neither gate loses a transaction, and a batch without system transactions passes unchanged |
| VcService.ValidateReads | service/vc/validator.go:148-168 | Reports exactly the reads whose version differs from the one committed when their namespace was checked |
| VcService.RejectSnapshotIfPriorNotCheckpointed | service/vc/database_snapshot.go:54-92 | Prunes the one snapshot transaction of a single-entry batch when it is new and the gate refuses it, and nothing otherwise |
| VcService.RejectCheckpointIfNotVerified | service/vc/checkpoint.go:45-76 | Keeps, rejects or withholds the checkpoint; a known transaction is left to duplicate detection |
| VcPrepare.Prepare | service/vc/preparer.go:135-265 | The prepared maps hold exactly the operations of the first occurrence of each ID: its writes by kind, its reads once each, who depends on which read, preliminary statuses, heights, no empty entry |
| VcPrepare.PreparedTransactions.AddTx | service/vc/preparer.go:155-252 | Repeated IDs are skipped, a preliminary status suppresses the content, anything else is added whole |
| VcPrepare.PreparedTransactions.AddReadsOnly | service/vc/preparer.go:268-288 | Adds exactly the reads of one namespace to what the maps reflect |
| VcPrepare.PreparedTransactions.AddReadWrites | service/vc/preparer.go:291-322 | Adds exactly the read-writes of one namespace: inserts without a version, updates with the next one |
| VcPrepare.PreparedTransactions.AddBlindWrites | service/vc/preparer.go:325-338 | Adds exactly the blind writes of one namespace |
| VcPrepare.ClearEmpty | service/vc/preparer.go:388-411 | Removes empty entries at both levels and nothing else |
| VcPrepare.CheckpointWriteInBatch | service/vc/preparer.go:459-485 | Finds the one checkpoint of a batch, and fails exactly when there are two or one is malformed |
| VcPrepare.CmpReadDistinguishes | service/vc/preparer.go:109-115 | Two different reads of a key share a map key exactly when one has no version and the other version 2^64 - 1 |
| VcCommit.ValidatedTransactions.UpdateInvalidTxs | service/vc/validator.go:201-212 | Pruning a list of IDs is pruning their set at once from all three maps and the checkpoint |
| VcCommit.ValidatedTransactions.InvalidateTxsOnReadConflicts | service/vc/validator.go:182-199 | Prunes exactly the transactions registered for a conflicting read, and fails exactly when one is registered for none |
| VcCommit.ValidatedTransactions.PopulateVersionsAndCategorizeBlindWrites | service/vc/committer.go:200-233 | Every blind write becomes an update with the next version when its key existed as its namespace was queried and an insert otherwise; nothing else moves |
| VcCommit.ValidatedTransactions.PrepareStatusForCommit | service/vc/committer.go:180-196 | Lists each ID once, with its height and its invalid status or committed |
| VcCommit.SetCorrectStatusForDuplicateTxID | service/vc/committer.go:235-272 | A duplicate stored at the same height gets the stored status back; every other status stays |
| VcCommit.GroupWritesByNamespace | service/vc/committer.go:274-288 | Groups exactly the writes of all transactions; keys stay distinct when they were |
| VcDatabase.Database.Commit | service/vc/database.go:204-270 | All duplicates, else all colliding keys, else all writes and rows; a rejected attempt changes nothing |
| VcDatabase.InsertTxStatus | service/vc/database.go:331-391 | Reports exactly the stored IDs, or inserts a row for every status but a duplicate one |
| VcDatabase.InsertStates | service/vc/database.go:393-441 | Reports exactly the colliding keys of every namespace, or inserts all |
| VcDatabase.UpdateStates | service/vc/database.go:443-469 | Overwrites exactly the named keys that exist |
| VcDatabase.Database.ValidateNamespaceReads | service/vc/database.go:120-147 | Returns the reads whose version is not the committed one |
| VcDatabase.Database.QueryVersionsIfPresent | service/vc/database.go:150-166 | Returns the versions of exactly the keys that exist |
| VcInvariant.BulkCheckChecks | service/vc/validator.go:182-212 | After the bulk check every transaction left in the batch passes it, and every pruned one has a stale read |
| VcInvariant.PlacementIsFine | service/vc/committer.go:200-233 | Placed blind writes have the version and kind that running alone gives them |
| VcInvariant.ConflictStep | service/vc/committer.go:170-172 | Conflict pruning hits exactly the inserters of existing keys |
| VcInvariant.NothingCollides | service/vc/database.go:331-391 | No status collides exactly when every stored ID is already marked a duplicate |
| VcInvariant.NoConflictIsClear | service/vc/database.go:393-441 | No insert conflicts exactly when every live insert is of an absent key |
| VcSuccess.StatesMerge | service/vc/database.go:393-469 | The written keys hold the effects of the winners and no other key changed |
| VcSuccess.RowsMerge | service/vc/database.go:331-391 | The new rows are those the reference stores |
| TxForm.SidecarSecuresForm | service/sidecar/mapping.go:502-616 | Transactions that pass the form checks touch each key once whatever version reads their namespaces add, have something to commit, and checkpoints stand alone: what the pipeline asks of them |
| TxForm.VerifyTxForm | service/sidecar/mapping.go:502-536 | Accepts exactly the transactions with distinct, well-formed namespaces and standalone system namespaces |
| TxForm.CheckNamespace | service/sidecar/mapping.go:577-651 | Accepts exactly the namespaces of the required shape |
| TxForm.FormByNamespace | service/sidecar/mapping.go:502-616 | In an accepted transaction a snapshot or checkpoint namespace stands alone, a snapshot namespace is empty, a checkpoint namespace is one insert, and any other writes |
| TxForm.SystemFormsPass | service/sidecar/mapping.go:577-598 | Both system transactions are accepted in that shape |
| TxForm.CheckKeys | service/sidecar/mapping.go:661-688 | The pairwise check of short namespaces and the set check of long ones both find exactly the empty and the repeated keys |
| TxForm.FormGivesOneTouch | service/sidecar/mapping.go:502-536 | Distinct namespaces with distinct keys never touch a key twice |
| BlockMapping.MapBlock | service/sidecar/mapping.go:100-156 | Every message of a block lands in exactly one place, named by a fate that depends on the messages before it alone; the block fails exactly when some message does; the accepted IDs are new and become the block's in the dedup set |
| BlockMapping.MappedByMessage | service/sidecar/mapping.go:279-474 | A message malformed as bad envelope, missing ID or duplicate is answered with that status at once, goes nowhere and uses no ID; any other malformed one is rejected with its status under its new ID; well-formed ones go on as transaction, snapshot or second-snapshot rejection; a used ID makes a duplicate. The block waits for exactly what goes on, and its IDs are the new ones its messages use |
| BlockMapping.FailsIff | service/sidecar/mapping.go:279-304 | A block fails exactly on an unprocessable message and on a config transaction whose ID is used |
| BlockMapping.BlockMapper.MapMessages | service/sidecar/mapping.go:142-152 | Folding the messages one by one shows each one's fate, keeps order, and counts as pending exactly what is submitted, rejected or the snapshot |
| BlockMapping.BlockMapper.ApplyParsedTx | service/sidecar/mapping.go:279-436 | One message, with all duplicate, snapshot and config cases, changes the block as its fate demands or fails it |
| BlockMapping.AppliedFolds | service/sidecar/mapping.go:279-304 | The step-by-step outcome of a message is its fate |
| BlockMapping.ParseMessages | service/sidecar/mapping.go:169-208 | The parsed messages are the same for every number of workers and every order they run in |
| BlockMapping.SharesTile | service/sidecar/mapping.go:193-205 | Worker shares follow each other from 0 to the block's end and each is at least the minimum batch |
| BlockMapping.ShareOf | service/sidecar/mapping.go:200-205 | Every position falls into some worker's share |
| BlockMapping.PreProcessBlocks | service/sidecar/relay.go:143-183 | Over a whole run each block is mapped against exactly the IDs accepted by earlier blocks that are not committed when it is taken up, so an ID is refused while its block is in flight and free again afterwards; the mapped block shows every message's fate against them; the run stops early exactly at a block that fails; the dedup set stays the disjoint union of its blocks' IDs |
| BlockMapping.PreProcessBlock | service/sidecar/relay.go:156-176 | One turn of that loop, from any point of a run |
| BlockMapping.ExactlyInFlight | service/sidecar/tx_id_dedup.go:59-71 | After eviction the dedup set holds exactly the IDs of blocks not yet committed |
| TxIdDedups.TxIdDedup.EvictCommittedBelow | service/sidecar/tx_id_dedup.go:59-71 | Forgets exactly the blocks below the number, and the set stays the disjoint union of the rest |
| TxIdDedups.TxIdDedup.TrackBlock | service/sidecar/tx_id_dedup.go:53-55 | The IDs of the mapped block become part of the disjoint union |
| TxIdDedups.TxIdDedup.Add | service/sidecar/tx_id_dedup.go:37-48 | Adds an ID and tells whether it was new |
| TxIdDedups.HoldsRest | service/sidecar/tx_id_dedup.go:59-71 | Removing the oldest block's IDs leaves exactly those of the others |
| InFlightRing.InFlightBlocks.Register | service/sidecar/in_flight_blocks.go:66-87 | Appends to the window exactly the next number, accepts a tracked one, refuses every other, for wrapped offsets too |
| InFlightRing.InFlightBlocks.Grow | service/sidecar/in_flight_blocks.go:91-102 | A larger power of two with the same window |
| InFlightRing.InFlightBlocks.Get | service/sidecar/in_flight_blocks.go:105-116 | Finds exactly the blocks of the window |
| InFlightRing.InFlightBlocks.NextBlockToCommit | service/sidecar/in_flight_blocks.go:120-127 | The oldest block of the window, if any |
| InFlightRing.InFlightBlocks.DropCommittedBlock | service/sidecar/in_flight_blocks.go:133-141 | The window without its oldest block, and the next number |
| InFlightRing.MaskIsModulo | service/sidecar/in_flight_blocks.go:145-147 | Masking with a power of two less one is the remainder |
| InFlightRing.OffsetClassifies | service/sidecar/in_flight_blocks.go:70-80 | The wrapped offset tells numbers below, inside, next to and above the window apart |
| RelaySafety.SlotsAccount | service/sidecar/relay.go:261-278 | In every state of a session the free slots are the limit less the submitted transactions without a result and the results about to be given back; never more than limit - 1 plus the largest segment are in flight |
| RelaySafety.BarriersHold | service/sidecar/relay.go:202-259 | While a config block's transaction is in flight only that block's are, and while a snapshot transaction is in flight nothing else is |
| RelaySafety.EmitsInOrder | service/sidecar/relay.go:280-321 | Blocks come out with consecutive numbers from the session's start, each once, with every status final and equal to what mapping gave or the coordinator reported; registration and setting a status never fail; between steps the oldest block in flight has a pending transaction |
| RelayLaws.PendingIsSomewhere | service/sidecar/relay.go:261-321 | In every state of every session a transaction without a final status is in exactly one place: a segment still to be submitted, one that has its slots and was not sent, the coordinator, or the reports still to be looked at; unless feedback or a config block gave it up. Only such transactions are there |
| RelayLaws.SendHandsOver | service/sidecar/relay.go:309-318 | After a send the transactions of the segment are with the coordinator |
| RelayLaws.BatchIsRecorded | service/sidecar/relay.go:340-416 | A reported batch can be taken in to its end: exactly the reported transactions have their status and are unanswered no more, and their slots are free |
| RelayLaws.BlocksKeepApart | service/sidecar/relay.go:202-259 | The barriers, by the blocks taken in: nothing of another block is in flight with a transaction of a config block, and nothing at all with the snapshot transaction of a block |
| RelayLaws.InFlightBound | service/sidecar/relay.go:261-278 | With blocks of at most n transactions never more than limit - 1 + n are in flight |
| RelayLaws.EmittedByEvents | service/sidecar/relay.go:482-521 | Each emitted block is the one taken in at its place, and each of its statuses is the one it came with or one delivered for that transaction |
| RelayLaws.StepsRunOut | service/sidecar/relay.go:143-321 | Between two events from outside a session takes only finitely many steps |
| RelayLaws.RestMeansWaiting | service/sidecar/relay.go:143-321 | A session that has nothing to do has sent all it has slots for: what is left is short of slots or waits for a drain, all unanswered transactions are with the coordinator, and the oldest block in flight has a pending one |
| RelaySafety.NeverEmitted | service/sidecar/relay.go:185-200 | In every run, after a block with both a config and an accepted snapshot transaction is taken in, neither that block nor any later one is emitted |
| RelaySafety.StepKeepsInv | service/sidecar/relay.go:340-416 | Every step of the three goroutines keeps slots, places, order, barriers and the watch over finished blocks |
| RelaySafety.RegisterStep | service/sidecar/relay.go:304-307 | A segment's block is the next one or still in the window when it is registered |
| RelaySteps.MappingIsWellMapped | service/sidecar/mapping.go:100-156 | What mapping produces is what the relay's theorems take in, with the messages' own IDs, the transactions and rejections to submit and the config flag of the block |
| RelaySteps.EveryPendingSubmittedIff | service/sidecar/relay.go:185-252 | Every pending transaction of a block is submitted exactly when the block does not hold both a config and an accepted snapshot transaction |
| RelaySteps.ConfigAndSnapshotMaps | service/sidecar/mapping.go:279-436 | Mapping accepts a block of a new config and a new snapshot transaction |
| RelaySteps.SnapshotStranded | service/sidecar/relay.go:185-200 | However such a block is mapped, the relay takes it in, and its snapshot transaction stays pending without being submitted |
| RelaySteps.ProcessCommittedBlocksInOrder | service/sidecar/relay.go:482-521 | The loop takes out exactly the leading blocks without a pending transaction |
| Notifier.RunNotifier | service/sidecar/notify.go:125-186 | For every sequence of requests, statuses and timeouts, IDs named twice included: the subscriptions before each event follow from the events alone; accepted is exactly what was ever subscribed, and it is subscribed or reported, once; before each event exactly what was subscribed and is no more has been reported, and what is subscribed had no status or timeout since it was asked for; every ID asked for is accepted or rejected, and both exactly where its request was split; free slots plus subscriptions are the maximum, and no ID maps to an empty set |
| Notifier.SplitsIff | service/sidecar/notify.go:282-304 | An ID of a new request is both accepted and rejected exactly when the request names it at two positions such that the IDs up to the first fit the free slots and those before the second do not |
| Notifier.NeverSplits | service/sidecar/notify.go:282-304 | That never happens when no ID is named twice or there are slots for all |
| Notifier.RejectedYetReported | service/sidecar/notify.go:282-336 | With one slot, of a request for a, b, a the last two are rejected, and a is reported when its status comes |
| Notifier.Subscriptions.AddRequest | service/sidecar/notify.go:282-304 | Accepts a prefix of the IDs and rejects the rest, which starts at the first new ID without a slot; of a new request, exactly the split IDs are both |
| Notifier.Subscriptions.RemoveAndEnqueueStatusEvents | service/sidecar/notify.go:308-336 | Reports and removes exactly the subscriptions to the IDs, once each, and gives back their slots |
| Notifier.Subscriptions.RemoveAndEnqueueTimeoutEvents | service/sidecar/notify.go:341-376 | Reports and removes exactly the request's subscriptions, leaving no empty set |
| TxOwnership.OwnedOnce | service/coordinator/validator_committer_manager.go:173-374 | In every run with stream failures, requeues and any answers whatsoever, a node that entered is in exactly one place, its result is forwarded at most once, it is freed at most once, and only after its result was forwarded |
| TxOwnership.StepBalanced | service/coordinator/validator_committer_manager.go:238-317 | Every step moves nodes without making or losing one |
| TxOwnership.HeightIsFree | service/coordinator/validator_committer_manager.go:369-373 | A node never overwrites another in the tracking map |
| TxOwnership.StoreKeepsAllIff | service/coordinator/validator_committer_manager.go:369-373 | Storing loses a node exactly when another is tracked at its height |
| TxTracking.ValidatorCommitter.Receive | service/coordinator/validator_committer_manager.go:238-304 | Forwards exactly the first status of each tracked height and hands on exactly the nodes that leave the map |
| TxTracking.ValidatorCommitter.GetTxs | service/coordinator/validator_committer_manager.go:339-367 | Takes the nodes of the matched statuses, in order, and lists the indices of the others |
| TxTracking.DropUntracked | service/coordinator/validator_committer_manager.go:252-259 | Deleting the listed indices from the back leaves exactly the other statuses |
| TxTracking.MatchedOnce | service/coordinator/validator_committer_manager.go:339-367 | Each tracked height that is reported is matched once, and nothing else is |
| TxTracking.ValidatorCommitter.RecoverPendingTransactions | service/coordinator/validator_committer_manager.go:306-317 | Hands back every tracked node once and clears the map |
| TxTracking.ValidatorCommitter.AddTxsBeingValidated | service/coordinator/validator_committer_manager.go:369-373 | Storing a batch leaves the map that the batch's nodes give one after the other |
| TxOwnership.StepsStoreBatch | service/coordinator/validator_committer_manager.go:369-373 | The single store steps of the runs, taken until the batch is stored, amount to that |
| TxOwnership.StepsMatchBatch | service/coordinator/validator_committer_manager.go:245-259 | Receiving an answer and matching its statuses one by one takes the reported heights out of the map and leaves, in report order, one answer with its node and first status for each that was tracked |
| TxOwnership.StepsReceiveBatch | service/coordinator/validator_committer_manager.go:245-304 | Taken to its end, an answer's statuses and the node feedback names are forwarded, then its nodes are freed, as the class does in one call |
| TxOwnership.StepsRecover | service/coordinator/validator_committer_manager.go:306-317 | When a stream ends every tracked node goes back into the queue and the service starts anew |
| TxTracking.ValidatorCommitter.CheckpointNodeToRelease | service/coordinator/validator_committer_manager.go:322-337 | Releases the node feedback names, if it is tracked |
| IdleHandshake.CountersAgree | service/coordinator/coordinator.go:301-330 | In every state the number in progress is the pipeline, plus the queue's count, plus what was read and not subtracted, so it is at least the count, which is at least zero; the idle call answers true exactly when no transaction still waits for its result |
| IdleHandshake.TxCountIsAnswers | service/coordinator/tx_status_queue.go:95-104 | A batch counts its statuses and one more for feedback, so one with feedback only counts one |
| IdleHandshake.ReceivedIsCounted | service/coordinator/coordinator.go:385-392 | In every run the transactions received, rejected ones included, are those waiting for a result plus those that have one |
| IdleHandshake.QueueIsFifo | service/coordinator/tx_status_queue.go:27-58 | What was put into the queue is, in order, what was taken out and what is still in it |
| IdleHandshake.WriterDelivers | service/coordinator/tx_status_queue.go:27-44 | Whoever holds the stream, a due result gets into the queue as long as there is room |
| IdleHandshake.StreamHandsOn | service/coordinator/tx_status_queue.go:46-58 | A stream hands on the oldest batch and takes its transactions off both counters |
| IdleHandshake.IdleCallAlone | service/coordinator/coordinator.go:316-330 | Undisturbed, the idle call empties the queue, takes its transactions off both counters and answers whether nothing waits for a result |
| IdleHandshake.IdleMeansDrainedIff | service/coordinator/coordinator.go:312-330 | In every run, an idle answer leaves no transaction in the queue or with a writer exactly when the number in progress that the call loaded was zero |
| IdleHandshake.IdleMeansEmptyIff | service/coordinator/coordinator.go:312-330 | When no batch without a result is written, as the receiver sees to, an idle answer means an empty queue and no writer exactly when that number was zero |
| IdleHandshake.QueuedCarry | service/coordinator/validator_committer_manager.go:267-270 | Then every batch in the queue or with a writer carries a result, in every state |
| IdleHandshake.IdleWithQueuedResult | service/coordinator/coordinator.go:309-312 | For every batch and queue size above zero a run from the start that ends in an idle answer with the batch in the queue, put there between drain and comparison |
| TxStatusQueues.TxStatusQueue.Drain | service/coordinator/tx_status_queue.go:78-89 | Empties the channel and takes exactly its transactions off the count |
| TxStatusQueues.TxStatusQueue.Write | service/coordinator/tx_status_queue.go:27-44 | Count and channel stay in step whether or not the batch gets in |
| TxStatusQueues.TxStatusQueue.Read | service/coordinator/tx_status_queue.go:46-58 | Count and channel stay in step |
| SnapshotLifecycle.LifecycleSafe | service/vc/database_snapshot.go:54-126 | In every state at most one snapshot is open, and its database is there and unchanged; a published hash is the digest of what the snapshot's database was made with; a closed snapshot has the status its checkpoint named, and a checkpointed one was closed by a checkpoint of exactly its hash |
| SnapshotLifecycle.NothingUndone | service/snapshothasher/scheduler.go:220-344 | Between any two states no record is lost, no terminal status left, no published hash changed, nor what the clone it covers was made with |
| SnapshotLifecycle.HashCompletes | service/snapshothasher/scheduler.go:220-344 | From every reachable state whose latest snapshot is PENDING, IN_PROGRESS or FAILED, any resting hasher can poll, mark, scan and publish: the record is COMPLETED with the digest of its database, and nothing else changes |
| SnapshotLifecycle.CrashIsHarmless | service/snapshothasher/scheduler.go:220-344 | The same after a hasher died at any point of its work |
| SnapshotLifecycle.FailureIsRecorded | service/snapshothasher/scheduler.go:300-344 | A failed scan leaves FAILED and its reason, and the snapshot can be hashed again |
| SnapshotLifecycle.LateHasherRests | service/snapshothasher/scheduler.go:275-295 | A hasher whose snapshot is finished or closed meanwhile goes back to rest |
| SnapshotLifecycle.RefusedWhileOpen | service/vc/database_snapshot.go:54-92 | While a snapshot is open a new one is refused: decided without record or database |
| SnapshotLifecycle.KnownIsLeftAlone | service/vc/database_snapshot.go:70-80 | A snapshot transaction that was decided changes nothing when it comes again |
| SnapshotLifecycle.DivergenceIsRecorded | service/vc/checkpoint.go:116-140 | A checkpoint that differs from the published hash halts, and the reason is kept with the otherwise unchanged record |
| SnapshotLifecycle.OpenSnapshot | service/vc/database_snapshot.go:149-244 | With nothing open a new snapshot transaction can be taken through the gate, cloned and committed as PENDING |
| SnapshotLifecycle.CloseSnapshot | service/vc/database.go:252-262 | A verified checkpoint with a new key can be committed and closes the latest snapshot |
| SnapshotLifecycle.CloneIsDeleted | utils/statedb/snapshot_clone.go:75-120 | Deleting the database of a closed snapshot removes it and then its name |
| SnapshotLifecycle.DecisionsMean | service/vc/checkpoint.go:81-114 | In every state a refused request is told NO_CHECKPOINT exactly when the open snapshot's hash is published; a checkpoint is held exactly while a hasher would still pick the snapshot up, halts exactly when the clone's published digest differs from it and is accepted exactly when it equals it |
| SnapshotLifecycle.CheckpointOutcome | utils/statedb/snapshot_state.go:305-350 | In every run a committing checkpoint is written exactly when its snapshot is open, or its key is new and the latest snapshot has the status it names; the guard fails it exactly when its key is new, its snapshot closed and the latest one in another status; its own snapshot ends as it names exactly when it was open or so already |
| SnapshotLifecycle.SharedKeyDecides | utils/statedb/snapshot_state.go:329-336 | While every checkpoint writes the shortest key, it is written exactly when its snapshot is open and finds its key taken otherwise; the guard never fails |
| SnapshotLifecycle.GuardReached | utils/statedb/snapshot_state.go:331-336 | For any two keys of a block, a run in which the guard fails a verified checkpoint |
| SnapshotLifecycle.WrittenInVain | utils/statedb/snapshot_state.go:325-327 | For any two keys of a block, a run in which an abort is written though its snapshot is checkpointed and stays so |
| SnapshotLifecycle.CheckpointCloses | utils/statedb/snapshot_state.go:305-350 | A verified checkpoint or abort that commits while its snapshot is open closes it |
| SnapshotLifecycle.CheckpointEvolves | service/vc/database.go:248-262 | Committing a verified checkpoint changes no record but that of the snapshot it was verified against, which must be the latest and open, and only to the status it names, though the hash is not looked at again |
| SnapshotLifecycle.CommitEvolves | service/vc/database_snapshot.go:149-244 | A snapshot that passed the gate finds every other one closed when it commits |
| SnapshotLifecycle.CasEvolves | utils/statedb/snapshot_state.go:236-296 | An update that names the statuses it expects undoes nothing |
| SnapshotLifecycle.LateCloneIff | service/vc/database_snapshot.go:220-231 | In every run, when CREATE makes a database for a transaction that is already decided and has a snapshot, that snapshot is closed and its database was dropped before; that it makes one exactly when there is none is the guard of CREATE and needs no run |
| SnapshotLifecycle.ClearedSince | service/vc/database_snapshot.go:220-229 | A database is created only for a transaction whose status was read before and was unknown then |
| SnapshotLifecycle.LateClone | service/vc/database_snapshot.go:220-231 | A run in which a slow validator-committer makes the database of an aborted snapshot again after it was dropped |
| SnapshotLifecycle.TwoInFlightTwoOpen | service/vc/database_snapshot.go:54-92 | From any state with nothing open and two snapshot transactions in flight, steps that take both through the gate and leave both open |
| SnapshotHasher.HashTable | service/snapshothasher/hasher.go:188-233 | For every page size the scan ends and feeds the hash every row with a non-empty key, once, in key order |
| SnapshotHasher.AfterStart | service/snapshothasher/hasher.go:196-202 | The scan covers the whole table exactly when no key is empty |
| SnapshotHasher.EncodeInjective | service/snapshothasher/hasher.go:218-225 | Equal byte streams mean equal tables |
| SnapshotHasher.HashSnapshotDatabase | service/snapshothasher/hasher.go:59-97 | The digest depends on the tables and their order, not on page size or worker order |
| SnapshotHasher.EqualDigests | service/snapshothasher/hasher.go:59-97 | Databases with equal digests have equal tables, unless the hash collides on what was fed to it |
| QueryViews.ReferencesCounted | service/query/batcher.go:119-187 | In every state a batcher's count is its assigned views and those retired but still to leave, within the maximum; nobody uses a cancelled batcher; no retired view is assigned |
| QueryViews.CancelledByLastLeave | service/query/batcher.go:286-316 | A batcher is cancelled exactly by its last view leaving, stays so, and no view is assigned to one |
| QueryViews.OwnParameters | service/query/batcher.go:190-237 | In every state a view is assigned only to a batcher created for the parameters it was asked with |
| QueryViews.FindsBatcher | service/query/lock_free.go:42-74 | Undisturbed, a view gets the batcher of its parameters if that can be joined and a new one otherwise |
| QueryViews.LoserJoins | service/query/lock_free.go:42-74 | A view that lost the race to store a new batcher takes the one that is there |
| QueryViews.NewAfterWindow | service/query/batcher.go:190-237 | After the window of a batcher closed, a view with its parameters gets a new one |
| QueryViews.SearchAgain | service/query/lock_free.go:42-74 | Giving up a search leaves everything as before |
| QueryViews.GivesBack | service/query/batcher.go:286-316 | A retired view gives its reference back, and the last one cancels the batcher |
| QueryViews.StepKeepsInv | service/query/lock_free.go:42-74 | Every step of the lock-free update-or-create loop and of retirement keeps the counts |
| KeyModel.SlotKeys | loadgen/workload/tx_rand.go:139-185 | For every profile and every random bytes: fresh keys first; each reference lies its offset back from the frontier of the gap, and the offsets follow from the drawn bytes; all keys differ, every reference is below every fresh key and within the lookback window, or within as many keys as there are references |
| KeyModel.RateEndpoints | loadgen/workload/tx_rand.go:139-145 | A backreference rate of 0 makes every slot fresh, one equal to the slots makes none fresh |
| KeyModel.FrontierIsFloor | loadgen/workload/tx_rand.go:194-196 | The frontier is the number of transactions times slots less the rate, rounded down |
| KeyModel.SampleOffsets | loadgen/workload/tx_rand.go:150-169 | Each sampled offset is the drawn one unless it was taken, the others step back one by one, and none repeats or leaves the window or the number of references |
| KeyModel.FreshRangesTile | loadgen/workload/tx_rand.go:187-196 | Fresh ranges of successive transactions follow each other without a gap |
| KeyModel.IntroducedBefore | loadgen/workload/tx_rand.go:139-171 | Every index below the frontier was introduced by exactly one earlier transaction |
| KeyModel.StatsAreClosedForm | loadgen/workload/tx_counter.go:39-55 | Summed over any first n transactions, fresh keys and reused read and write slots are the closed form |
| KeyModel.TxCounter.Stats | loadgen/workload/tx_counter.go:39-55 | The computed counters are the sums over the reserved transactions |
| KeyModel.TxCounter.Reserve | loadgen/workload/tx_counter.go:26-28 | Reserved ranges follow each other |
| Encoding.EncodePreservesOrder | utils/encoding.go:22-46 | Codes compare bytewise as their numbers do |
| Encoding.EncodePrefixFree | utils/encoding.go:22-46 | No code is a prefix of another |
| Encoding.DecodeEncode | utils/encoding.go:52-72 | Decoding a code followed by anything returns the number and the code's length |
| Encoding.DecodedIsCanonical | utils/encoding.go:52-72 | What decodes is the code of its number exactly when its payload has no leading zero |
| Encoding.NonCanonicalDecodes | utils/encoding.go:52-72 | A code with a leading zero decodes too |
| Encoding.EncodeOrderPreservingVarUint64 | utils/encoding.go:22-46 | The method fills its buffer with the code |
| Encoding.DecodeOrderPreservingVarUint64 | utils/encoding.go:52-72 | The method decodes, with every error case |
| Encoding.HeightBytesOrder | api/servicepb/height.go:52-56 | Height bytes sort by block, then by transaction |
| Encoding.HeightRoundTrip | api/servicepb/height.go:34-44 | Height bytes decode back exactly, whatever follows them |
| Encoding.CheckpointKeyCanonicalIff | api/servicepb/checkpoint_key.go:25-44 | A key accepted for a block is the one made for it exactly when its payload is empty or has no leading zero |
| Encoding.KeysOfBlock | api/servicepb/checkpoint_key.go:32-44 | The keys accepted for a block are exactly the codes of its number with superfluous leading zeros, up to eight bytes, and their number tells them apart |
| Encoding.AcceptedIff | api/servicepb/checkpoint_key.go:34-44 | A key is accepted exactly when it decodes and nothing follows |
| Encoding.OneKeyIff | api/servicepb/checkpoint_key.go:32-44 | A block has no other key than the one made for it exactly when its number is at least 2^56 |
| Encoding.TwoKeysOneBlock | service/sidecar/mapping.go:593-595 | Two keys that both name block 5 |

## Left out

- VcService.ProcessBatch: the serializability clause is about batches without snapshot and checkpoint transactions; for those the gates' verdicts are parameters and only exactly-once answers are stated.
- VcService.ProcessBatch: creating the snapshot database, rewriting the snapshot record's value and creating tables for new namespaces are not part of the batch model.
- VcService.RejectSnapshotIfPriorNotCheckpointed: whether the gate refuses is a parameter here; when it does is `SnapshotLifecycle.DecisionsMean`.
- VcService.RejectCheckpointIfNotVerified: the verdict is a parameter here; what it is, is `SnapshotLifecycle.DecisionsMean`.
- VcDatabase.Database.Commit: SQL itself, connection errors and retry profiles; a transaction either commits or changes nothing. Marking the snapshot record in the same transaction is part of `SnapshotLifecycle`.
- TxOwnership.OwnedOnce: coordinator shutdown, where an output channel may refuse; policy updates on committed meta transactions; the split of a stream's first batch by block.
- IdleHandshake.CountersAgree: 32-bit wrap-around of the counters; that each result is produced once is `TxOwnership.OwnedOnce`, here a produced batch never exceeds the pipeline.
- TxStatusQueues.TxStatusQueue.Write: a full channel is a refused write, because the sequential class cannot wait; waiting writers are part of `IdleHandshake`.
- TxStatusQueues.TxStatusQueue.Read: an empty channel is a read without a batch, because the sequential class cannot wait.
- RelaySafety.EmitsInOrder: context cancellation and the wait of a held checkpoint; feedback ends the session.
- RelaySafety.SlotsAccount: a result holds its slot until its status batch is done, as the code releases them together.
- Notifier.RunNotifier: pending counters, timers and slow clients.
- QueryViews.ReferencesCounted: service shutdown, the view limiter, view IDs and the batches of keys a batcher executes.
- KeyModel.StatsAreClosedForm: floating-point rounding; the rate is an exact real between 0 and the number of slots.
- KeyModel.SlotKeys: floating-point rounding, as above.
- KeyModel.FrontierIsFloor: floating-point rounding, as above.
- KeyModel.FreshRangesTile: floating-point rounding, as above.
- KeyModel.IntroducedBefore: floating-point rounding, as above.
- KeyModel.TxCounter.Stats: floating-point rounding, as above, and wrap-around of the counters.
- SnapshotHasher.EqualDigests: SHA-256 is any function; absence of collisions on the streams is a hypothesis.
- SnapshotLifecycle.LifecycleSafe: corrupt records, clone creation failures and the watcher that stops a scan early; a scan may fail at any time.
- SnapshotLifecycle.CheckpointOutcome: checkpoint transactions whose ID is already in the status table; duplicate detection drops them before any key is written. A failed guard ends the batch, and what the coordinator does then is not followed.
- BlockMapping.MapBlock: envelope parsing and the validation of config transactions; a message's parse is a parameter.
- TxForm.VerifyTxForm: endorsements, namespace names, policies and checkpoint key and value formats are one parameter; which transactions pass is stated, not which malformed status the others get.
- TxForm.CheckNamespace: namespace names, policies and the formats of checkpoint keys and values are the same parameter; which checkpoint keys decode is `Encoding.KeysOfBlock`.
- The dependency graph and the signature verifiers enter as assumptions.
- gRPC, TLS, configuration, metrics, logging, block streams and ledger recovery: plumbing without a property of its own here.
