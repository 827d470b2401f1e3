# Signed warehouse actions: a verified model

A warehouse management system (WMS) lets operators sign what they do (receive, put away, pick, ship) and administrators sign what happens to keys. Signed actions leave the WMS through an outbox, reach the ledger adapter over Kafka in commit order, and are applied once on a permissioned chain. This project models the parts in which that can go wrong and proves what they promise, in Dafny 4.11. `dafny verify dfyconfig.toml` checks all of it.

## How the project is laid out

**The ledger adapter.** `EventStore` holds the table of events and its guarded updates. `ActionChunks` cuts a window into segments and packs calldata. `ActionOutcomes`, `Settling` and `SettlingRows` find the outcome of a mined action and write it. `ChainClient` is the signer's client.
`DeliveryMachine` puts all of them into one step machine: the consumer loop, the collector, the background reconciler, the table, the signer's nonce, the chain, another sender on the same key, failures of every call and restarts, interleaved in any way. `DeliveryInvariants` states what every reachable state satisfies, `DeliverySteps`, `DeliveryLedgerSteps` and `DeliveryChainSteps` prove it step by step, `DeliveryTheorems` draws the conclusions, `DeliveryOffsets` says what becomes of every single offset, and `DeliveryWitnesses` gives runs in which the promises of the documentation fail.
`AdapterWorld`, `AdapterFlusher`, `AdapterConsumer` and `AdapterCollector` are the adapter's own loops as methods over that machine: every call to the outside first lets everybody else take any number of steps, then answers arbitrarily, and each method is proved to perform nothing but steps of the machine. So what holds over all runs holds of these loops. Calls that fail and sends that are refused are counted, and nothing is given back, failed or left undone without one: with no fault every window is submitted, every due batch handed over and every batch committed.

**Concurrent transactions of the WMS.** `ConcurrentFlow`, `ConcurrentShips`, `KeyRevocation` and `KeyActionsInFlight` model READ COMMITTED directly: one snapshot a statement, `FOR SHARE` and `FOR UPDATE` row locks held to commit, the row looked at again after a lock wait, any interleaving. `ConcurrentFlow` runs placing, allocating, picking, unloading and shipping on the same rows; `ConcurrentFlowSteps` and `ConcurrentFlowEffects` prove what every step and every commit keeps, `ConcurrentFlowResults` draws the conclusions, among them that a commit leaves what the transaction would have left running alone, and `ConcurrentFlowWitness` shows the one exception. `ConcurrentFlowAlone` proves the converse: whatever is accepted running alone gets through the locks and checks of the interleaved statements. `ConcurrentShips` is shipping by itself, small enough to be run both ways, with the lock in a statement of its own, as the code has it, and without: it adds to `ConcurrentFlow` why the two statements are needed, and that shipments share no product. `Runs` helps to put explicit runs together.

**Stock.** `WarehouseTables` has the rows; `Allocation` is the allocator that always asks the table, `AllocationResults` what it promises, `AllocationService` the allocator with its shortage cache. `ProductFlow` says what each transaction does running alone; to `ConcurrentFlow`, which refers to it, it adds what those effects do to baskets and stamps and to the rows the allocator relies on. `ProductFlowService` has the transactions themselves, with the staleness checks that stand in front of unguarded bulk updates.

**What is signed.** `Words`, `HexText`, `Base64Url` and `SortedLists` are encodings kept concrete; `ActionDetails` and `ActionParts` are the signed words and the parts of an operation, `ActionEnvelopes` the way from a part over its envelope back to its challenge and through the audit; `WebAuthnChecks` compares what the warehouse accepts with what the contract checks.

## Where the code and its documentation differ

The model follows the code.

- The adapter's README says offsets are committed only after a terminal outcome. A window whose send failed transiently is put back whole, its partial list of transactions is forgotten, and on the next pass a row that has a hash is passed over without being terminal. What holds when an offset commits is: the row is COMMITTED, FAILED, or carries a hash (`NoEventLost`).
- `onParseFailure` means to keep a bad message's offset behind earlier messages, but a drain that fails transiently returns no error, so the bad offset may commit past put-back messages; after a restart such a message is lost (`OvertakingLosesEvent`). An offset in the pipeline is ahead of a waiting message exactly when it was published while that message waited in the batcher (`OvertakesIff`); a commit leaves an open message behind exactly when one of its offsets was (`CommitLeavesOpenIff`), and every other message below the mark is closed (`MarkNeverPassesOpenMessage`). A failed DLQ publish likewise leaves an offset that later commits pass (`FailedPublishIsPassed`, `BadMessagesReachDlq`).
- The reconciler is said to bring rows in line with the chain. A broadcast whose hash was lost can be the one that is applied while its recorded copy reverts; the row then ends FAILED without a reason although the action is applied (`AppliedButMarkedFailed`), and exactly then (`FailedButAppliedIffLost`).
- `keyActionInFlight` reads the newest `submitted_at`, which `now()` sets to the time a transaction began. A submit that waited behind a younger one is not the newest when it commits, so a key can have two actions in flight (`TwoInFlight`). Two are in flight exactly when the one was committed by a transaction whose own check passed over the other, hidden by a newer action (`TwoInFlightIff`), and a key is rejected with an action in flight exactly when that rejection's check passed over it (`RejectedInFlightIff`). For either, some earlier submit for the same key must have committed late (`AtMostOneInFlight`, `RejectedIsIdle`).
- `UpdateOrdersToAssembled` decides on the snapshot of its one statement. Two operators who unload the halves of an order together each still see the other half picked, and neither promotes it: all of it stands in the shipping buffer and the order stays ALLOCATED (`NobodyPromotes`) until it is shipped. An unload leaves an order behind so exactly when its snapshot showed another product of it not ready (`LeftBehindIff`), which takes two overlapping unloads (`LeftBehindOnlyByRace`).
- `Verify` names the first occurrence of the challenge field, the JSON decoder reads the last one. Text in another serialization can be accepted and still fail on chain (`RepeatedFieldFails`); it passes exactly when the first occurrence carries the challenge (`PassesOnChainIff`).

## What is taken as given

- The contract processes an action once: one log on first processing, a write-once state, except that a signer that does not verify is logged without a state (`SignedMappingWMS.sol`, `ConsortiumRegistry.sol`). An action reaches the chain in this adapter's transactions only.
- The node's pending nonce never decreases, and the node refuses a nonce it has already mined. Blocks take nonces in order.
- keccak and SHA-256 are arbitrary functions; where two inputs must be told apart, the lemma asks that these two do not collide. Signature verification is a predicate for which (r, s) and (r, n - s) are both valid or both invalid, and a valid pair lies within the group order.
- One Kafka partition, one offset after another; committing offsets is a high-water mark. One id names one message kind at each offset.

## Model

| member | source | states |
|---|---|---|
| EventStore.CommittedIsAbsorbing | ledger-adapter/internal/store/onchain_events.go:52-148 | Whatever statements follow, by any writer and in any order: no row disappears, a COMMITTED row never changes again, and a recorded broadcast is never forgotten |
| EventStore.HashKeptIff | ledger-adapter/internal/store/onchain_events.go:67-148 | Exactly which statements leave a recorded hash alone, so keeping it stable is the callers' obligation |
| EventStore.WhatIsWritten | ledger-adapter/internal/store/onchain_events.go:67-148 | Status, hash and reason after each statement, column by column: only MarkCommitted touches a COMMITTED row, a failure without a hash keeps the stored one, only MarkRejected stores a reason |
| EventStore.WhichRows | ledger-adapter/internal/store/onchain_events.go:52-64 | Only an insert adds a row, and it is PENDING |
| EventStore.Repository.ListReconcilable | ledger-adapter/internal/store/onchain_events.go:194-222 | Exactly the rows SENT or FAILED that carry a hash and no reason |
| EventStore.Repository.Insert | ledger-adapter/internal/store/onchain_events.go:52-64 | A first sight inserts PENDING without a hash, a second changes nothing |
| EventStore.Repository.Update | ledger-adapter/internal/store/onchain_events.go:67-148 | The four Mark statements: the new table, nothing for an empty list, COMMITTED rows untouched |
| EventStore.Repository.StatusAndTx | ledger-adapter/internal/store/onchain_events.go:167-185 | Status and hash of a row, an error for an id without one |
| ActionChunks.SplitSegments | ledger-adapter/internal/consumer/flusher_actions.go:53-65 | The segments join back to the window, each is of one kind, neighbours differ in kind |
| ActionChunks.SegmentationUnique | ledger-adapter/internal/consumer/flusher_actions.go:48-65 | There is one such cut: nothing is reordered, merged or split |
| ActionChunks.MaxActionChunk | ledger-adapter/internal/consumer/flusher_actions.go:199-215 | Every prefix up to n packs into at most limit bytes and the next one does not; its calldata, and the two ways of having none |
| ActionChunks.PlanIsExact | ledger-adapter/internal/consumer/flusher_actions.go:144-190 | Every pending action lands, in order, in exactly one within-limit chunk or one refusal, and refusals are exactly what does not fit alone |
| ActionChunks.CutsAreThePlan | ledger-adapter/internal/consumer/flusher_actions.go:144-190 | Where the send loop cuts are the ends of the pieces of the greedy plan, one after another |
| ActionChunks.GreedyIsOptimal | ledger-adapter/internal/consumer/flusher_actions.go:192-215 | With additive calldata sizes and actions that fit alone, no order-preserving split uses fewer transactions |
| DeliveryChainSteps.RunKeepsInv | ledger-adapter/internal/consumer/consumer.go:72-182 | The invariants hold in every state of every run |
| DeliveryTheorems.RowsOnlyAdvance | ledger-adapter/internal/store/onchain_events.go:67-148 | Along a run rows only advance: a hash never changes once set, COMMITTED never changes, terminal stays terminal |
| DeliveryTheorems.NoEventLost | ledger-adapter/internal/consumer/pipeline.go:152-189 | When a batch's offsets are committed every parsed message in it has a row that is COMMITTED, FAILED or carries a hash, its transactions are settled action by action, and so it stays |
| DeliveryOffsets.OffsetFate | ledger-adapter/internal/consumer/consumer.go:155-182 | Every message ever read is closed, waits in memory, or was forgotten by a restart while it waited below the mark; a forgotten one never waits again |
| DeliveryOffsets.OvertakesIff | ledger-adapter/internal/consumer/consumer.go:155-165 | An offset in the pipeline is ahead of a message in memory exactly when it is a bad one published while that message waited in the batcher |
| DeliveryOffsets.MarkNeverPassesOpenMessage | ledger-adapter/internal/consumer/consumer.go:155-182 | Offset by offset: a message below the mark is closed, unless a bad offset below the mark was published over that very message |
| DeliveryOffsets.CommitLeavesOpenIff | ledger-adapter/internal/consumer/pipeline.go:185-189 | A commit leaves an open message below the mark exactly when one waits in memory that one of its offsets was published over |
| DeliveryOffsets.BadMessagesReachDlq | ledger-adapter/internal/consumer/consumer.go:155-165 | An unparsable message is in the DLQ exactly when a publish of it succeeded; one below the mark that is not there had a publish of it fail |
| DeliveryOffsets.FailedUnsentReachedDlq | ledger-adapter/internal/consumer/flusher.go:138-153 | An event FAILED without ever being broadcast is in the DLQ |
| DeliveryTheorems.CommittedIsApplied | ledger-adapter/internal/consumer/reconcile.go:131-167 | A COMMITTED row means the chain applied the action and logged it |
| DeliveryTheorems.ReasonIsTheChains | ledger-adapter/internal/consumer/reconcile.go:131-167 | A stored reason is the chain's own, and no broadcast of the action was applied |
| DeliveryTheorems.FailedButAppliedIffLost | ledger-adapter/internal/consumer/flusher.go:208-213 | A FAILED row's action is applied on chain exactly when a broadcast of it that was lost was mined and applied; no reason is stored then |
| DeliveryTheorems.OnlyLostBroadcastsRepeat | ledger-adapter/internal/consumer/flusher.go:160-217 | Of all broadcasts of an event every one but the last was lost |
| DeliveryTheorems.LostOnlyThen | ledger-adapter/internal/consumer/flusher_actions.go:171-188 | A broadcast is lost only by an unanswered send, a failed MarkSent or a crash in between |
| DeliveryTheorems.SettledNeverResent | ledger-adapter/internal/consumer/flusher.go:187-207 | An event with a recorded hash, or failed for good, never enters calldata again |
| DeliveryTheorems.FirstBroadcastsInArrivalOrder | ledger-adapter/internal/consumer/flusher_actions.go:124-190 | First broadcasts follow Kafka arrival order, one kind a transaction, nonces never go back and grow after an acknowledged one |
| DeliveryTheorems.ChainFollowsArrivalOrder | ledger-adapter/internal/consumer/flusher_actions.go:48-65 | In block order too: what is mined after a younger action travelled with that younger one already, so neither kind overtakes the other |
| DeliveryTheorems.NonceNeverAhead | ledger-adapter/internal/chain/client.go:142-223 | The local nonce never runs ahead of the node's pending nonce, whoever else sends |
| DeliveryTheorems.CommitsAreFifoPrefix | ledger-adapter/internal/consumer/pipeline.go:71-150 | Committed batches are a FIFO prefix of the submitted ones and at most the window is unsettled |
| DeliveryTheorems.NothingCommitsAfterStall | ledger-adapter/internal/consumer/pipeline.go:123-189 | After a stall or a failed commit the process commits nothing more |
| DeliveryWitnesses.OvertakingLosesEvent | ledger-adapter/internal/consumer/consumer.go:155-182 | A run in which a put-back event is overtaken and lost |
| DeliveryWitnesses.FailedPublishIsPassed | ledger-adapter/internal/consumer/consumer.go:155-165 | A run in which a commit passes a bad message that never reached the DLQ |
| DeliveryWitnesses.AppliedButMarkedFailed | ledger-adapter/internal/consumer/flusher.go:208-213 | A run in which an applied action's row ends FAILED |
| AdapterFlusher.Flusher.FilterOne | ledger-adapter/internal/consumer/flusher.go:170-214 | One message of the filter is one step of the machine: skipped, reconciled or kept for sending; the window is given back exactly when a call failed |
| AdapterFlusher.Flusher.ReconcileReceipt | ledger-adapter/internal/consumer/reconcile.go:49-84 | Without a fault a redelivered event whose transaction is mined ends COMMITTED or FAILED, and one not mined is passed over |
| AdapterFlusher.Flusher.FilterAndMarkPending | ledger-adapter/internal/consumer/flusher.go:160-217 | The filter loop with its duplicate check walks the machine through the segment |
| AdapterFlusher.Flusher.SendCalldata | ledger-adapter/internal/chain/client.go:136-223 | Every way a send can end is a step of the machine; at most one broadcast a call, of exactly these actions, and none when the error is terminal |
| AdapterFlusher.Flusher.Transmit | ledger-adapter/internal/chain/client.go:160-223 | With a nonce at hand the result, the nonce and the pending nonce after it are those of the client's send on some answers of an honest node |
| AdapterFlusher.Flusher.StepIsSend | ledger-adapter/internal/chain/client.go:160-223 | And the machine sends in no other way: each of its broadcasts, refusals and transient errors is the client's on some answers |
| AdapterFlusher.Flusher.SendPending | ledger-adapter/internal/consumer/flusher_actions.go:144-190 | The send loop terminates and cuts the pending list greedily and to its end; with no fault and no refusal the transactions are those of the greedy plan, one after another; the window is given back exactly when a call failed |
| AdapterFlusher.Flusher.SendChunk | ledger-adapter/internal/consumer/flusher_actions.go:162-187 | A chunk is broadcast and its hash in every row, unless the node refused it: then all of it is FAILED and in the DLQ |
| AdapterFlusher.Flusher.SendActions | ledger-adapter/internal/consumer/flusher_actions.go:124-190 | One segment, filtered and sent; when its contract is not configured nothing is broadcast, and all the filter left is FAILED and in the DLQ |
| AdapterFlusher.Flusher.Send | ledger-adapter/internal/consumer/flusher.go:104-123 | A drained window is broadcast segment by segment and offered with all its offsets, or given back whole, and that exactly when a call failed |
| AdapterConsumer.Batcher.Unshift | ledger-adapter/internal/consumer/batcher.go:67-75 | What comes back goes before what arrived meanwhile, and the timeout starts again |
| AdapterConsumer.Batcher.ShouldFlush | ledger-adapter/internal/consumer/batcher.go:38-48 | Full, or as old as the timeout, and never when empty |
| AdapterConsumer.Consumer.Submit | ledger-adapter/internal/consumer/pipeline.go:90-112 | Submitted after all others; or nothing changed, and the collector is gone or the window full |
| AdapterConsumer.Consumer.SendSubmit | ledger-adapter/internal/consumer/consumer.go:170-182 | Without a fault exactly these offsets are submitted, in order, or there is no way in; after a fault all messages are back in front with no error |
| AdapterConsumer.Consumer.OnParseFailure | ledger-adapter/internal/consumer/consumer.go:155-165 | One message taken; without a fault what waited is submitted, then the message is in the DLQ and its lone offset submitted behind |
| AdapterConsumer.Consumer.Tick | ledger-adapter/internal/consumer/consumer.go:112-118 | A batch that is due is submitted whole, unless a call failed or there is no way in; one that is not due stays, and no message is taken |
| AdapterConsumer.Consumer.OnMessage | ledger-adapter/internal/consumer/consumer.go:139-148 | One fetched message is taken and waits behind the others, or with them makes a batch that is due and handed over |
| AdapterConsumer.Consumer.Run | ledger-adapter/internal/consumer/consumer.go:72-137 | The loop, any number of turns and whatever is ready in each: every turn has its effect, every message turn takes exactly one message while there are any, every tick hands over a due batch; it ends only by a cancellation, the reader, the collector or a step that could not submit, and whatever is below the mark is closed or overtaken |
| AdapterCollector.Collector.Await | ledger-adapter/internal/consumer/flusher_confirm.go:43-58 | One turn of a confirmation: without a fault it fails every action of a reverted transaction at once, or knows all outcomes of a mined one; otherwise it stalls or errs |
| AdapterCollector.Collector.WriteGroup | ledger-adapter/internal/consumer/reconcile.go:131-167 | One justified statement for the actions of one outcome, until none is left |
| AdapterCollector.Collector.ConfirmAll | ledger-adapter/internal/consumer/pipeline.go:153-168 | The confirmations of a batch, their turns interleaved in any order, all return; one that succeeded has settled all its actions |
| AdapterCollector.Collector.ConfirmAndCommit | ledger-adapter/internal/consumer/pipeline.go:152-189 | Offsets are committed exactly when no call failed, and then every transaction was settled; any other end stops the collector without committing, a stall before other errors |
| AdapterCollector.Collector.Run | ledger-adapter/internal/consumer/pipeline.go:123-144 | One batch after another until one does not commit, which takes a failed call; every round that finds a batch commits one |
| Settling.LogOutcomes | ledger-adapter/internal/chain/warehouseactions.go:96-127 | An action is applied when this contract's last log of it is ActionApplied, rejected for a reason when it is ActionRejected with that reason; an error exactly for a malformed log |
| Settling.LogOutcomesUnique | ledger-adapter/internal/chain/warehouseactions.go:96-127 | That condition has one solution |
| Settling.ProcessIsBatch | ledger-adapter/contracts/SignedMappingWMS.sol:45-82 | Action after action the contract reaches the state and writes the logs that the delivery machine gives a batch |
| Settling.ReadsBack | ledger-adapter/internal/chain/warehouseactions.go:96-127 | From a receipt of the contract's own making exactly what it decided is read: applied for what it accepted, rejected with its reason for what it refused, nothing for what it passed over |
| Settling.ResolveActionOutcomes | ledger-adapter/internal/consumer/reconcile.go:93-124 | Logs beat states, earlier resolvers beat later ones; every id is resolved or nothing is returned |
| Settling.ResolvesUnique | ledger-adapter/internal/consumer/reconcile.go:93-124 | An action has one outcome however it is found |
| Settling.AsOneContract | ledger-adapter/internal/consumer/reconcile.go:93-124 | Seen together the resolvers answer as the delivery machine's chain does |
| SettlingRows.GroupByOutcome | ledger-adapter/internal/consumer/reconcile.go:144-156 | The applied list and the groups by reason share out the ids |
| SettlingRows.ApplyActionOutcomes | ledger-adapter/internal/consumer/reconcile.go:131-167 | Nothing is written before all is resolved; success settles every row whatever the order of the groups; a failure leaves each row as it was or settled |
| SettlingRows.EachIsBatch | ledger-adapter/internal/consumer/reconcile.go:131-167 | Settling in groups is settling action by action |
| SettlingRows.SettledMeans | ledger-adapter/internal/consumer/reconcile.go:131-167 | Applied is COMMITTED; rejected is FAILED with the reason and the transaction, unless it was COMMITTED |
| SettlingRows.RerunCompletes | ledger-adapter/internal/consumer/reconcile.go:131-167 | A run cut short is completed by the next, and a completed one is not changed by it |
| SettlingRows.ReconcileReceipt | ledger-adapter/internal/consumer/reconcile.go:49-84 | Not mined: nothing; reverted: FAILED; mined: settled; an error exactly when the lookup or a statement erred or an action has no outcome, and then each row is as it was or where it belongs |
| SettlingRows.ReconcileOnce | ledger-adapter/internal/consumer/reconcile.go:242-271 | Every listed row ends where its own transaction says, except that one of a transaction with a failed statement may be as it was; at most as many such transactions as failed statements; unlisted rows stay |
| SettlingRows.SweepIsDeterminate | ledger-adapter/internal/consumer/reconcile.go:252-264 | The order of the sweep does not matter |
| ChainClient.ApplyActionsGasFloor | ledger-adapter/internal/chain/warehouseactions.go:55-74 | The loop computes the floor, modulo the width of its integers |
| ChainClient.FloorIsAdditive | ledger-adapter/internal/chain/warehouseactions.go:63-74 | Splitting a list over two transactions costs one base fee more and nothing else |
| ChainClient.FloorsInNumbers | ledger-adapter/internal/chain/warehouseactions.go:52-74 | The floors of an empty transaction, of one that receives ten items and of one that moves ten |
| ChainClient.GasLimitIsEnough | ledger-adapter/internal/chain/client.go:183-188 | The limit is at least the floor and at least one and a half times the estimate, and not more than the larger |
| ChainClient.Client.Send | ledger-adapter/internal/chain/client.go:142-223 | One transaction at most, with a nonce not above the pending one, sent, reverted or fatal exactly by the answers; result, local nonce and pending nonce are a function of the answers; the nonce advances exactly when acceptance was seen; a nonce too low leaves it read again or unset |
| ChainClient.Client.ReseedLocked | ledger-adapter/internal/chain/client.go:234-242 | The nonce is read again or kept |
| ChainClient.Client.Meanwhile | ledger-adapter/internal/chain/client.go:197-222 | Other senders and blocks between two sends leave the local nonce at or behind the pending one |
| ConcurrentShips.ShipsNeverStrandAnOrder | wms/internal/shipping/repository.go:294-390 | With a lock statement of its own: in every state of every interleaving an order is SHIPPED exactly when all its products are, PARTIALLY_SHIPPED exactly when some are |
| ConcurrentShips.ShippedExactlyOnce | wms/internal/shipping/ship_signed.go:205-241 | A product is SHIPPED exactly when one committed ship contains it, and no two do |
| ConcurrentShipsWitness.OneStatementStrandsAnOrder | wms/internal/shipping/repository.go:302-310 | Without it, lock and decision in one statement, two ships strand an order |
| ConcurrentFlowResults.StatusesMoveForward | wms/internal/assembly/unload_signed_repository.go:77-106 | Over every interleaving a step moves a product one stage at most and never back, and every product has exactly the task its status calls for |
| ConcurrentFlowResults.SignedItemsAreLocked | wms/internal/assembly/unload_signed.go:169-209 | From its check to its commit, what a transaction has signed is what it has locked, alone, and each row is still as checked: place, pick, unload, ship, and the stock an allocation took |
| ConcurrentFlowResults.CommitsAreSerial | wms/internal/putaway/place_signed.go:188-268 | A commit leaves the rows the transaction would leave running alone at that moment; of an unload, all but the orders it promotes |
| ConcurrentFlowAlone.AcceptedGetsThrough | wms/internal/assembly/unload_signed.go:169-235 | Whatever is accepted running alone, a whole allocation included, has a run of the interleaved statements from any quiet state, with the same rows in the end |
| ConcurrentFlowResults.OrdersTellShipments | wms/internal/shipping/repository.go:311-390 | With all of them interleaved an order is SHIPPED, PARTIALLY_SHIPPED or earlier as its products are; an ASSEMBLED one has all of them ready |
| ConcurrentFlowResults.LeftBehindIff | wms/internal/assembly/repository.go:412-433 | An unload leaves an order complete but ALLOCATED exactly when all of it is ready and its snapshot showed another product not ready |
| ConcurrentFlowResults.LeftBehindOnlyByRace | wms/internal/assembly/repository.go:412-433 | Over every run an order stands so only after an unload that missed it while another unload of the order committed behind its snapshot |
| ConcurrentFlowWitness.NobodyPromotes | wms/internal/assembly/repository.go:412-433 | A run in which two unloads of one order leave it behind |
| KeyRevocation.RevocationIsSerialized | wms/internal/signedops/repository.go:151-187 | Once a revoke has committed, no warehouse row signed by the key commits unless that revoke failed in between |
| KeyRevocation.KeysAreFitAtCommit | wms/internal/passkeys/actions_repository.go:113-188 | Signers are ACTIVE when their transactions commit, a revoked target ACTIVE, a registered one PENDING, the draft not yet submitted |
| KeyActionsInFlight.TwoInFlightIff | wms/internal/passkeys/actions_repository.go:84-188 | In every state of every interleaving: two actions of a key are in flight exactly when the one was committed behind a check of its own transaction that passed over the other, a newer action that does not block hiding it, and neither has been settled since |
| KeyActionsInFlight.RejectedInFlightIff | wms/internal/passkeys/actions_repository.go:190-232 | A key is rejected with an action in flight exactly when this rejection's check passed over it and it has not been settled since |
| KeyActionsInFlight.HiddenByLateCommit | wms/internal/passkeys/actions_repository.go:88-108 | An action in flight has a newer one in front of it only after a submit for that same key committed with an older submitted_at than one already there |
| KeyActionsInFlight.AtMostOneInFlight | wms/internal/passkeys/actions_repository.go:88-108 | A key has at most one action in flight, or a submit for that same key committed late before |
| KeyActionsInFlight.RejectedIsIdle | wms/internal/passkeys/actions_repository.go:190-232 | A rejected key has no action in flight, or a submit for that same key committed late before |
| KeyActionsInFlight.CheckPassesIff | wms/internal/passkeys/actions_repository.go:148-158 | The submit's check passes with no submitted action of the key, behind a failed or refused one, and for a revoke behind an applied registration; never otherwise |
| KeyActionsInFlight.RejectPassesIff | wms/internal/passkeys/actions_repository.go:216-222 | The rejection's check passes with no submitted action of the key, or behind a failed or refused one |
| KeyActionsInFlight.RevokedIff | wms/internal/signedops/repository.go:171-187 | The warehouse's check passes exactly when every submitted revoke of the signer has failed |
| KeyActionsInFlight.Submits | wms/internal/passkeys/actions_repository.go:113-188 | A submit whose check passes and that meets no lock runs through |
| KeyActionsInFlight.WarehouseCommits | wms/internal/signedops/repository.go:151-187 | So does a warehouse submit whose signer is ACTIVE and not revoked |
| KeyActionsInFlight.Rejects | wms/internal/passkeys/actions_repository.go:190-232 | So does the rejection of a PENDING key without a live action |
| KeyActionsInFlight.RegisteredKeyIsRevoked | wms/internal/passkeys/actions_repository.go:113-188 | A run in which a key is registered, applied and activated, and a revoke of it commits |
| KeyActionsInFlight.CheckMissesIff | wms/internal/passkeys/actions_repository.go:88-108 | The check lets a submit pass an action in flight exactly when a newer one exists and does not block |
| KeyActionsInFlight.RejectMissesIff | wms/internal/passkeys/actions_repository.go:190-232 | A rejection passes an action in flight exactly when a newer one exists that is neither in flight nor applied |
| KeyActionsInFlight.TwoInFlight | wms/internal/passkeys/actions_repository.go:88-188 | A run with two registrations of one key in flight, the second behind a check that passed over the first |
| Allocation.OrderGetsItsQuantities | wms/internal/assembly/service.go:176-273 | An allocated order takes exactly what its lines ask for of every SKU, out of free stock, and nothing else changes |
| Allocation.AssignAllResult | wms/internal/assembly/repository.go:175-189 | The STORED guard fires exactly when a product was picked twice |
| Allocation.StockShrinksByDemand | wms/internal/assembly/service.go:260-270 | Free stock of every SKU shrinks by exactly the demand |
| Allocation.QueryIsFifo | wms/internal/assembly/repository.go:130-154 | The query finds free products of the SKU in the order of their arrival, as many as asked for or all, and what it leaves arrived later |
| Allocation.TasksSayWhere | wms/internal/assembly/service.go:227-256 | A task names the product taken, its SKU, its bin, the bin's section, the order and the shop |
| AllocationResults.MissingIsExact | wms/internal/assembly/service.go:180-203 | What is reported missing, for exactly the lines that ask for more than is free |
| AllocationResults.GuardFiresIff | wms/internal/assembly/service.go:222-232 | With enough stock the guard fires exactly when two lines name one SKU |
| AllocationResults.OrderFares | wms/internal/assembly/service.go:176-274 | When an order is done, short and of what, or failed, and why, all from the free stock, the lines and the order's own row |
| AllocationResults.TakesOldest | wms/internal/assembly/repository.go:130-154 | The products picked for a line are as many as it asks for, in the order of their arrival, and all free stock that is left arrived later |
| AllocationResults.OrderTakesOldest | wms/internal/assembly/repository.go:130-154 | On the rows: of two free products of a SKU the one the order got arrived before the one it left |
| AllocationResults.CallTakesOldest | wms/internal/assembly/service.go:81-171 | And over a whole call, whichever orders were served |
| AllocationResults.AllocationIsSound | wms/internal/assembly/service.go:81-171 | Over a whole call: no product to two orders, every order in full or not at all, counts add up, one task a product |
| AllocationService.Service.GatherLines | wms/internal/assembly/service.go:180-220 | Skipping lines known to be short gathers what asking every time gathers |
| AllocationService.Service.SpendFromCache | wms/internal/assembly/service.go:260-270 | The cached shortages follow the stock and the clamp at zero never acts |
| AllocationService.Service.AllocateOrderTx | wms/internal/assembly/service.go:176-273 | One order as the uncached allocator does it, errors included, the cache still true |
| AllocationService.Service.Allocate | wms/internal/assembly/service.go:81-171 | Over the 500 oldest NEW orders of the shop that nobody holds: rows and answer are those of the uncached allocator; an error leaves every row as it was |
| AllocationService.Repository.GetOrdersByDestinationForUpdate | wms/internal/assembly/repository.go:68-97 | The NEW orders of the shop that nobody holds, oldest first, at most the limit; any other of them came later and the limit is reached |
| ProductFlow.StatusesMoveForward | wms/internal/assembly/unload_signed_repository.go:77-106 | The serial reference: over every sequence of transactions, accepted or refused, one stage a transaction and the right tasks, and the rows stay in the order and shape the allocator relies on |
| ProductFlow.PlaceWrites | wms/internal/putaway/place_signed.go:188-268 | When placing is accepted, and that then exactly these products are STORED in that bin and nothing else changes |
| ProductFlow.PickWrites | wms/internal/assembly/service.go:293-333 | When picking is accepted, and that then the product is ASSEMBLED, its task done by this operator, and nothing else changes |
| ProductFlow.UnloadWrites | wms/internal/assembly/unload_signed.go:169-235 | When unloading is accepted, and that then exactly these products are READY_TO_SHIP in the buffer bin, their tasks stamped, and complete ALLOCATED orders ASSEMBLED |
| ProductFlow.ShipWrites | wms/internal/shipping/ship_signed.go:180-278 | When shipping is accepted, and that then exactly these products are SHIPPED and their orders SHIPPED or PARTIALLY_SHIPPED |
| ProductFlow.AssembledIsInOneBasket | wms/internal/assembly/unload_signed_repository.go:18-74 | A picked product lies in exactly one basket, so an unload can carry it |
| ProductFlow.StampedByItsPart | wms/internal/assembly/unload_signed_repository.go:89-106 | Each unloaded task is stamped with the action that signed its product |
| ProductFlowService.CountCheckIff | wms/internal/shipping/ship_signed.go:207-215 | As many rows as items means: the items are distinct and are the rows |
| ProductFlowService.BasketCheckIff | wms/internal/assembly/unload_signed.go:184-195 | The size and containment checks mean: the basket is the signed set |
| ProductFlowService.CompositionIsStale | wms/internal/receiving/repository.go:791-804 | The loop finds the draft stale exactly when the lists differ |
| ProductFlowService.Transactions.SubmitPlaceToStorageBin | wms/internal/putaway/place_signed.go:188-268 | Locked in id order, checked, then moved: placed exactly when every item is distinct and placeable, all or nothing, refused for the first obstacle in that order |
| ProductFlowService.Transactions.Pick | wms/internal/assembly/service.go:293-333 | Task done and product assembled, exactly when there is a pending task and the product is ALLOCATED |
| ProductFlowService.Transactions.OperatorBasket | wms/internal/assembly/unload_signed_repository.go:42-74 | The basket without duplicates |
| ProductFlowService.Transactions.SubmitUnloadToShippingBuffer | wms/internal/assembly/unload_signed.go:169-235 | Running alone: moved, stamped and promoted exactly when the basket is the signed set |
| ProductFlowService.Transactions.LockProductsForShip | wms/internal/shipping/ship_signed_repository.go:39-86 | The READY_TO_SHIP products of the bin among those named, or all of the bin |
| ProductFlowService.Transactions.UpdateOrdersToAssembled | wms/internal/assembly/repository.go:412-433 | Of the named orders exactly those ALLOCATED with every product READY_TO_SHIP become ASSEMBLED, nothing else of any row changes, and the answer is their number |
| ProductFlowService.Transactions.UpdateOrdersShippedConditional | wms/internal/shipping/repository.go:311-390 | Lock, then decide: a named order not yet decided with a product SHIPPED becomes SHIPPED when every product is and PARTIALLY_SHIPPED otherwise, every other row stays; the counts are those of full and partial ones |
| ProductFlowService.Transactions.SubmitShip | wms/internal/shipping/ship_signed.go:180-278 | Shipped exactly when the signed items are distinct and all still ready in the bin |
| Words.RefillsBytes | wms/internal/audit/audit_compare.go:225-235 | Bytes read as a number and filled back are the bytes |
| Words.LexIsNumeric | wms/internal/signedaction/challenge.go:150-152 | Byte order on equal lengths is the order of the numbers |
| HexText.HexRoundTrip | ledger-adapter/internal/consumer/message.go:235-258 | Hex text decodes to its bytes, and to a word exactly for 32 of them |
| HexText.EncodesDecoded | wms/internal/signedaction/envelope.go:39-42 | Decoding loses the text exactly when it has an upper-case digit |
| HexText.UuidRoundTrip | ledger-adapter/internal/consumer/message.go:187-194 | Canonical UUID text parses to its id |
| HexText.CanonicalParserExists | ledger-adapter/internal/consumer/message.go:187-194 | A parser that reads every canonical text right exists |
| SortedLists.AscendingUnique | wms/internal/signedaction/challenge.go:49-66 | Sorting has one result when keys are apart |
| ActionDetails.Deduplicate | wms/internal/signedaction/challenge.go:147-161 | The compaction over the aliased slice keeps each id once, in order |
| ActionDetails.SortedUniqueOrderIDs | wms/internal/signedaction/challenge.go:145-161 | Strictly ascending and the same set |
| ActionDetails.OrderedListDetailsHash | wms/internal/signedaction/challenge.go:114-143 | What is hashed reads, at its ABI positions, as the salt, the entities, the offset of the list, the operator, the time, the list's length and the distinct orders in byte order |
| ActionDetails.OffsetPointsAtLength | wms/internal/signedaction/challenge.go:120-142 | The offset word names the byte of the length word, and the list follows it |
| ActionDetails.WordsInjective | wms/internal/signedaction/challenge.go:114-143 | Equal words mean equal salt, entities, orders, operator and time, across different entity counts |
| ActionDetails.DetailsHashIsCanonical | wms/internal/signedaction/challenge.go:106-143 | Equal hashes exactly for equal salt, entities, operator, time and set of orders |
| ActionParts.ChallengeBinds | wms/internal/signedaction/challenge.go:33-41 | A challenge names its action, type, items and details |
| ActionParts.ChallengeReads | wms/internal/signedaction/challenge.go:33-41 | What is hashed is 160 bytes: the typehash, the action padded to the right, the type padded to the left, the items hash, the details hash |
| ActionParts.ItemsHash | wms/internal/signedaction/challenge.go:68-77 | What is hashed is one word for each item in order, the hash of its product's id as text |
| ActionParts.SortForgetsOrder | wms/internal/signedaction/challenge.go:49-66 | The sorted items do not depend on the order of the rows |
| ActionParts.SortByItemIDSorts | wms/internal/signedaction/challenge.go:49-66 | The same products, their item ids ascending as numbers |
| ActionParts.SortedStrictly | ledger-adapter/contracts/SignedMappingWMS.sol:84-97 | Strictly, as the contract asks, when distinct products do not share an id |
| ActionParts.NewOperation | wms/internal/signedops/operation.go:46-92 | As many parts as the length calls for, part i signing what the auditor cuts at i |
| ActionParts.PartsJoin | wms/internal/signedops/operation.go:57-70 | The parts follow each other, none empty and none over 2000, and joined are the sorted list |
| ActionParts.PartSizes | wms/internal/signedops/operation.go:57-70 | Every part has 2000 items but the last, which has the rest |
| ActionParts.AuditorCutsTheSamePart | wms/internal/audit/details_repository.go:86-95 | From rows in any order the auditor cuts out the signed part |
| ActionParts.NoFurtherParts | wms/internal/audit/details_repository.go:86-95 | Out of range, from either side, the part is empty |
| ActionEnvelopes.Parse | ledger-adapter/internal/consumer/message.go:76-204 | Exactly which messages parse to a warehouse action, which to a key action, and what they become |
| ActionEnvelopes.ParsesMeans | ledger-adapter/internal/consumer/message.go:76-204 | Spelled out which messages are read, of which types and versions |
| ActionEnvelopes.PartArrives | ledger-adapter/internal/consumer/message.go:178-232 | From a part's message the adapter reads the part, its key and its signature |
| ActionEnvelopes.ChallengeSurvives | wms/internal/audit/audit_compare.go:206-235 | From a part over message, numbers and words back to the challenge that was signed |
| ActionEnvelopes.ItemsAgree | wms/internal/audit/audit_compare.go:152-187 | The audit agrees exactly when the sets are equal and no product is repeated |
| ActionEnvelopes.AuditAgrees | wms/internal/audit/audit_compare.go:152-235 | End to end: for every part of an operation, audited from rows in any order, the challenge is the signed one and the items check succeeds exactly when the part repeats no product |
| Base64Url.EncodeInjective | wms/internal/signedaction/assertion.go:60-62 | A challenge text names its challenge |
| Base64Url.RoundTrip | wms/internal/signedaction/assertion.go:60-62 | A decoder over the same alphabet reads every text back |
| Base64Url.Alphabet | wms/internal/signedaction/assertion.go:60-62 | The digits are those of table 2 of RFC 4648, in its order |
| WebAuthnChecks.Verify | wms/internal/signedaction/assertion.go:51-137 | Accepted exactly when every condition holds; the emitted indices, r and low s; a rejection names a condition that fails |
| WebAuthnChecks.AcceptableMeans | wms/internal/signedaction/assertion.go:51-137 | The conditions spelled out, flag bits by number and the challenge by its decoding |
| WebAuthnChecks.LowSIsLower | wms/internal/signedaction/assertion.go:117-121 | Of the two valid values of s the lower one is passed on |
| WebAuthnChecks.AcceptedPassesOnChain | wms/internal/signedaction/onchain.go:16-56 | For canonically serialized client data every emitted tuple passes the contract's check |
| WebAuthnChecks.PassesOnChainIff | wms/internal/signedaction/onchain.go:16-56 | In general it passes exactly when the first challenge field carries the challenge |
| WebAuthnChecks.RepeatedFieldFails | wms/internal/signedaction/assertion.go:124-128 | An accepted assertion, its text decoded as the JSON decoder does, that fails on chain |

## Left out

- Kafka, Postgres, the node's RPC, the remote signer and the DLQ are steps that succeed, fail, or fail after taking effect; timeouts may strike at any step, polling and tickers have no cadence, and `error_message` and log text are not modelled.
- ListReconcilable: the age filter, the order and the LIMIT are not modelled; a sweep may list any subset of the rows it could list.
- AdapterCollector.Collector.ConfirmAll: the limit on confirmations running at once is not modelled; any number may.
- AdapterConsumer.Consumer.Submit: how long it waits is arbitrary; giving up stands for a shutdown.
- The consumer's shutdown (`drainAndWait`, `Close`) is a restart of the machine; the serial `Flush` wrapper is not used by the running consumer.
- Of gas the floor of warehouse actions and the limit derived from it are modelled; the floor of key actions, a constant apiece, and gas prices are not.
- Allocation.AllocateOrder: other transactions do not change the visible stock during the call; rows skipped because they are locked count as not there. SKU names, which only decorate the answer, are not modelled.
- ProductFlow.Perform: each transaction acts at once; interleavings are the subject of `ConcurrentFlow`. The order in which unload and ship lock their rows, the chain-status gates, dispatches and the audit rows are not modelled.
- ConcurrentFlow.Enabled: a basket row's task and product are locked in one step, what an allocation takes of each SKU is decided in `Allocation`, and deadlocks appear as aborts. Picks of the same operator that commit after the basket was locked stay out of the unload.
- ProductFlowService.Transactions.SubmitUnloadToShippingBuffer: promotes as it would running alone; `ConcurrentFlowResults.LeftBehindIff` says when it does not.
- ProductFlowService.Transactions.UpdateOrdersShippedConditional: nobody else acts between its two statements here; in `ConcurrentFlow` and `ConcurrentShips` others do.
- A product that returns to stock, or an order that is deleted, has no operation in the source and none here.
- HexText.ParseUuid: reads the canonical form only; the UUID library's parser is a parameter of `ActionEnvelopes`, assumed to read canonical text right.
- The contract's own reasons for a refusal (signer, type, items) are a verdict per action here.
- JSON syntax: an envelope and client data are records of what the decoder yields; the serialization of section 5.8.1.1 of Web Authentication Level 2 is text. DER is not modelled.
- The drafts of put-away, pick and ship only read and would add easy members; the scan flows of receiving, analytics, HTTP, deployment tools and the user interface are not modelled.
- Solidity beyond its observable rule for processing an action, and P-256, keccak and SHA-256 internals.
