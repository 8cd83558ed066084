# Verification of the raw-material trade ledger

A Dafny model of the trade ledger of this repository (verified lots, orders, reservations, trades, delivery,
inspection, price records) in both of its forms, and of the smaller algorithms beside it, with proofs about every
run. `dafny verify dfyconfig.toml` checks all of it.

- **PostgreSQL ledger.** `ReserveLot` is `reserve_lot` as one step; `ReserveProtocol` splits it into the steps of
  interleaved transactions (begin, advisory lock, lookup, update, insert, commit, abort) and proves them
  serializable. `DomainLedger` says what each adapter operation does to the tables, `DomainAdapter` is the class
  that does it row by row, `DomainInvariant`, `TradeBacking` and `PriceRecords` prove what every run of them keeps,
  and `DomainExamples` gives the runs from the empty ledger in which a limit shows.
- **In-memory ledger.** `InventoryLedger` is the evidence-locked inventory, `TradeEngine` the engine over it,
  `SpecAnswers` how a buyer's answers are validated, `SnapshotIntegrity` the seal of a trade and `CanonicalJson` the
  canonical text the seal is a digest of.
  `EngineInvariant` proves the ledger's invariant over every run, restores included; `CrashRecovery` exactly when
  a restart shows; `Quarantine` when a quarantine is final; `PersistenceStore` that many processes with stale engines
  write one history. `MarketBoard` proves which orders the engine takes, read off the public board.
- **Beside them.** `Evidence` (gate and registry), `Simulator`, `GreedyFill`, `SimulatorRuns` and `ShadowPilot`
  (optimal fill, whole runs, the pilot's verdict on them), `PriceIndex` and `PriceFeed`, `Supervisor` (restart
  limiter), `IncidentLedger` (append-only log), `Reconciliation` (two-way comparison). `Texts` and `Wrappers` are shared.

Operations are specified by functions on values; the classes and methods, in the form the sources have, are proved
to do what those functions say, and the theorems are about runs of the functions. A refused operation is a thrown
error or a rolled-back transaction. The one write that comes before a throw, the refresh of an order's answers in
`acceptOrder`, is in the model, and `EngineInvariant.ThrowingChangesNothing` proves it never shows.

Where the code does less than one might expect, the model follows the code; the exact condition is a theorem, and a
run that reaches the limit is a lemma:

| limit | exact condition | run |
|---|---|---|
| `reserve_lot` compares only the key | `TradeBacking.AcceptanceBacked`, `TradeBacking.BackedExactlyWhen` | `DomainExamples.ReusedKeyRun` |
| two lots at once under one key | `ReserveProtocol.RetryOnSameLotNeverCollides`, `ReserveProtocol.CrossLotKeyRace` | `ReserveProtocol.CrossLotKeyRaceRun` |
| a completed trade may lack its price record | `PriceRecords.CompletionLeavesRecord` | `DomainExamples.PlainInspectionRun`, `DomainExamples.BorrowedIdRun`, `DomainExamples.ForeignSpecRun` |
| a restore forgets idempotency keys | `CrashRecovery.RestartsAreInvisibleExactlyWhen` | `CrashRecovery.RepeatedKeyAfterRestart` |
| a passing inspection lifts a quarantine | `Quarantine.QuarantineIsFinal` | `Quarantine.LiftRun` |
| a listed lot may be too small to order | `MarketBoard.BoardShowsWhatSells` | `MarketBoard.LeftoverIsListedButUnsold` |
| the pilot fails a run without trades | `ShadowPilot.PilotVerdict` | `ShadowPilot.BlockedWithoutTradeFails` |
| the index ignores the source type | `PriceFeed.SourceIsNotChecked` | `PriceFeed.QuotesArePublished` |

## Model

| member | source | states |
|---|---|---|
| ReserveLot.LotLedger.ReserveLot | data/postgres-schema.sql:321-359 | the whole effect and answer of one call: known key returns the first id, else stock moves and one row is added, else nothing changes and an error is raised |
| ReserveLot.ReserveConserves | data/postgres-schema.sql:321-359 | any call keeps every lot's stock non-negative and conserved, only appends rows, and a returned id has its row |
| ReserveLot.RetryReturnsFirstId | data/postgres-schema.sql:335-340 | after a call returned and any other calls followed, any call under its key returns the same id and changes nothing |
| ReserveProtocol.Serializable | data/postgres-schema.sql:321-359 | for every interleaving of transactions, with aborts anywhere and colliding lock hashes, the committed tables are those of the committed calls run one after another |
| ReserveProtocol.CommittedStockIsConserved | data/postgres-schema.sql:94-107 | in every committed state available >= 0, available + reserved = total, reserved = the sum of the lot's reservations, keys unique |
| ReserveProtocol.OneIdPerKey | data/postgres-schema.sql:337-340 | all committed calls under one key returned one id, concurrent or not |
| ReserveProtocol.RetryOnSameLotNeverCollides | data/postgres-schema.sql:332-335 | an insert about to run finds its key, committed or pending, only on another lot with another lock |
| ReserveProtocol.CrossLotKeyRace | data/postgres-schema.sql:337-358 | two lots under one key at once: the later insert waits and then fails |
| ReserveProtocol.CrossLotKeyRaceRun | data/postgres-schema.sql:321-359 | from two full lots, eleven steps of two transactions lead there: both have subtracted, the second insert waits, fails once the first commits, and its lot keeps its stock |
| DomainAdapter.PostgresDomainAdapter.RegisterLotDraft | beta-app/postgres-domain-adapter.mjs:823-860 | a draft lot and its five documents are written together or, on any refusal or taken id, not at all |
| DomainAdapter.PostgresDomainAdapter.ReviewEvidence | beta-app/postgres-domain-adapter.mjs:500-536 | a pending document is decided once; the lot opens exactly when the review leaves five current valid documents; a different second decision is refused |
| DomainAdapter.PostgresDomainAdapter.SubmitOrder | beta-app/postgres-domain-adapter.mjs:556-600 | one order per buyer and key: the same form again is answered without a change, another form under the key is refused |
| DomainAdapter.PostgresDomainAdapter.ReserveInventory | beta-app/postgres-domain-adapter.mjs:602-624 | stock is reserved only for an order still tradable, as reserve_lot does it, else nothing changes |
| DomainAdapter.PostgresDomainAdapter.ConfirmTrade | beta-app/postgres-domain-adapter.mjs:626-681 | a trade is written and its order closed only on an active reservation large enough, with current evidence and matching parties, spec and papers |
| DomainAdapter.PostgresDomainAdapter.AcceptOrder | beta-app/postgres-domain-adapter.mjs:683-745 | reservation, trade at the bid and closed order in one transaction, undone together on a late refusal; the same acceptance again is answered without a change |
| DomainAdapter.PostgresDomainAdapter.CounterOrder | beta-app/postgres-domain-adapter.mjs:747-782 | the order carries exactly the offered terms, backed by stock at that moment; a retry with other terms is refused |
| DomainAdapter.PostgresDomainAdapter.RejectOrder | beta-app/postgres-domain-adapter.mjs:862-879 | only an open order is rejected; again is answered without a change |
| DomainAdapter.PostgresDomainAdapter.ExpireOrder | beta-app/postgres-domain-adapter.mjs:881-896 | only an open order past its date lapses; again is answered without a change |
| DomainAdapter.PostgresDomainAdapter.MarkDelivered | beta-app/postgres-domain-adapter.mjs:898-922 | a confirmed trade on an active reservation is handed over and its lot marked; again is answered without a change |
| DomainAdapter.PostgresDomainAdapter.InspectTrade | beta-app/postgres-domain-adapter.mjs:924-959 | trade, reservation, lot and inspection row follow one verdict together; a closed trade accepts only the recorded verdict |
| DomainAdapter.PostgresDomainAdapter.InspectTradeAndRecordPrice | beta-app/postgres-domain-adapter.mjs:961-1023 | the verdict and, if passed, the price record are written together or not at all; a retry must repeat verdict and price |
| DomainAdapter.PostgresDomainAdapter.RecordCompletedTradePrice | beta-app/postgres-domain-adapter.mjs:1025-1053 | a completed trade's own price is recorded once under an id; anything else is refused |
| DomainInvariant.LedgerIsConsistent | beta-app/postgres-domain-adapter.mjs:602-959 | in every reachable state, whatever keys are reused: stock is conserved; a trade closes its order, is its only one and is on a lot with five approved documents; an order reserves a lot at most once, and its trade and reservation are in step; inspections exist exactly for the closed trades, with their verdict, and those have their reservation |
| TradeBacking.BackedExactlyWhen | beta-app/postgres-domain-adapter.mjs:602-745 | over every run: a trade is backed at the end (one reservation, large enough, in the matching state) if and only if the request that made it was a confirmation, or an acceptance whose key was new or whose order already held enough on the lot |
| TradeBacking.AcceptanceBacked | beta-app/postgres-domain-adapter.mjs:683-745 | in every reachable state an acceptance trades on a sufficient reservation if and only if its key is new or the order already holds one |
| TradeBacking.TradesAreBacked | beta-app/postgres-domain-adapter.mjs:602-745 | if no key is reused for another order, lot or quantity: every reachable trade is its order's only trade and closes it, has exactly one reservation, large enough and in the matching state, on a lot with five approved documents |
| TradeBacking.ReusedKeyTradesUnbacked | data/postgres-schema.sql:337-340 | in every reachable state an acceptance under a key spent on something else, of an order holding nothing on the lot, trades with no reservation; through every continuation the trade never gets one and is never delivered or inspected |
| DomainExamples.ReusedKeyRun | data/postgres-schema.sql:337-340 | from the empty ledger: two orders accepted under one key are both traded, 60 sold on 30 reserved, and no reservation names the second, then or in any continuation |
| PriceRecords.CompletedExactlyWhenPriced | beta-app/postgres-domain-adapter.mjs:961-1053 | under default ids a trade is completed if and only if it has an observation, which is the only one and carries its price, quantity and spec |
| PriceRecords.RetryOnClosedTrade | beta-app/postgres-domain-adapter.mjs:59-65 | after every run under default ids, a default retry of the combined inspection with the recorded verdict changes nothing, one with another verdict is refused |
| PriceRecords.RetryAnsweredExactlyWhen | beta-app/postgres-domain-adapter.mjs:924-990 | after every run, any ids and specs: a retry on a closed trade changes nothing; another verdict is refused; with the recorded verdict the plain inspection answers, and the combined one if and only if the trade is disputed or the form repeats spec, price and quantity and names an observation of the trade |
| PriceRecords.CompletionLeavesRecord | beta-app/postgres-domain-adapter.mjs:961-1023 | at every reachable ledger the request that completes a trade leaves the trade's own correct record if and only if it is the combined inspection, its observation id is not taken, and its spec is absent or the order's |
| PriceRecords.RecordedExactlyWhenWritten | beta-app/postgres-domain-adapter.mjs:961-1053 | over every run, with any ids and specs: a trade has its own correct record at the end if and only if one of the requests wrote it under a free id with the order's spec |
| DomainExamples.PlainInspectionRun | beta-app/postgres-domain-adapter.mjs:924-959 | a run from the empty ledger in which the plain inspection completes a trade without a record |
| DomainExamples.ForeignSpecRun | beta-app/postgres-domain-adapter.mjs:961-1023 | a run in which the combined inspection, given another spec, completes a trade whose only record is of that spec |
| DomainExamples.BorrowedIdRun | beta-app/postgres-domain-adapter.mjs:1025-1053 | a run in which recording trade 1 under trade 2's id leaves trade 2 completed without a record and its retries refused |
| InventoryLedger.FindEligible | beta-app/inventory-ledger.mjs:89-96 | nothing found means no lot qualifies; a found lot is the cheapest that does, the earliest registered among equals |
| InventoryLedger.FirstFailed | beta-app/inventory-ledger.mjs:119-120 | no check is reported exactly when all six pass |
| InventoryLedger.EvidenceLockedInventory.Register | beta-app/inventory-ledger.mjs:49-73 | a new id with valid numbers is appended last with default terms filled in; otherwise refused and unchanged |
| InventoryLedger.EvidenceLockedInventory.Find | beta-app/inventory-ledger.mjs:89-96 | the cheapest and earliest qualifying lot, or none if none qualifies |
| InventoryLedger.EvidenceLockedInventory.Hold | beta-app/inventory-ledger.mjs:98-135 | a fresh id moves the quantity from available to reserved of exactly that lot if all six checks pass; a known id changes nothing and is refused if anything differs |
| InventoryLedger.EvidenceLockedInventory.Deliver | beta-app/inventory-ledger.mjs:137-145 | only a held reservation is shipped, and its lot marked; otherwise refused and unchanged |
| InventoryLedger.EvidenceLockedInventory.Examine | beta-app/inventory-ledger.mjs:147-174 | a held or shipped reservation gets its verdict and inspection; the lot reopens, is done or is quarantined; otherwise refused and unchanged |
| Quarantine.RunKeepsLots | beta-app/inventory-ledger.mjs:49-174 | over every run lots are only appended, each keeps its terms and its total, and no reserved stock ever comes back |
| Quarantine.QuarantineIsFinal | beta-app/inventory-ledger.mjs:164-172 | a lot stays quarantined through every continuation if and only if no reservation of it is still to be inspected |
| Quarantine.FailedInspectionIsFinal | beta-app/inventory-ledger.mjs:147-174 | a failed inspection quarantines the lot, for good if and only if no other reservation of it was held or shipped |
| Quarantine.QuietRun | beta-app/inventory-ledger.mjs:23-32 | while the quarantine is final no reservation is ever added to the lot |
| Quarantine.LiftRun | beta-app/inventory-ledger.mjs:147-174 | from the empty inventory: two reservations of one lot, the first fails and quarantines it, the second passes and reopens it |
| CanonicalJson.CanonicalForm | beta-app/snapshot-integrity.mjs:5-9 | two JSON values have the same text if and only if they are equal up to the order of object keys |
| CanonicalJson.QuoteReadsBack | beta-app/snapshot-integrity.mjs:7-8 | quoted texts are uniquely readable, escapes and lone surrogates included |
| CanonicalJson.SortSorts | beta-app/snapshot-integrity.mjs:7 | the fields come out in key order and are the same fields |
| SnapshotIntegrity.SealDetectsEveryChange | beta-app/snapshot-integrity.mjs:13-34 | for every digest: under the seal of a trade that verifies, another verifies if and only if no sealed field differs or the digest collides on the two canonical texts |
| SnapshotIntegrity.SomeDigestsCatch | beta-app/snapshot-integrity.mjs:28-34 | for any two trades that differ in a sealed field: a digest without a collision under which the change is caught, and one with a collision under which it passes |
| SpecAnswers.ApprovedAnswersItself | beta-app/trade-engine.mjs:138-160 | the approved specification, given back as answers, is accepted and normalizes to itself |
| TradeEngine.TradeEngine.constructor | beta-app/trade-engine.mjs:22-47 | the engine starts with the one initial lot and nothing else |
| TradeEngine.TradeEngine.SubmitOrder | beta-app/trade-engine.mjs:170-204 | a valid order is numbered next and names the cheapest eligible lot; a known key is answered as before; otherwise thrown and unchanged |
| TradeEngine.TradeEngine.AcceptOrder | beta-app/trade-engine.mjs:238-297 | after the first checks the order's answers are rewritten; then stock held, a sealed trade numbered next and the order closed in full or in part together, or thrown with only the rewrite done; a known key is answered as before |
| TradeEngine.TradeEngine.CounterOrder | beta-app/trade-engine.mjs:299-320 | a submitted order carries the offer on the cheapest lot that passes, whatever its price; a known key is answered as before; otherwise thrown and unchanged |
| TradeEngine.TradeEngine.RejectOrder | beta-app/trade-engine.mjs:322-336 | only an open order is rejected; a known key is answered as before; otherwise thrown and unchanged |
| TradeEngine.TradeEngine.ExpireOrder | beta-app/trade-engine.mjs:338-345 | only an open order whose date is not ahead lapses, a date that cannot be read counting as not ahead; otherwise thrown and unchanged |
| TradeEngine.TradeEngine.MarkTradeDelivered | beta-app/trade-engine.mjs:206-219 | only a confirmed trade whose seal verifies is delivered, with its reservation; otherwise thrown and unchanged |
| TradeEngine.TradeEngine.InspectTrade | beta-app/trade-engine.mjs:221-236 | only a confirmed or delivered trade whose seal verifies is judged, with its reservation and lot; otherwise thrown and unchanged |
| TradeEngine.TradeEngine.RegisterVerifiedLot | beta-app/trade-engine.mjs:94-125 | a lot enters only on admitted evidence and canonical terms, with the evidence's expiry; otherwise thrown and unchanged |
| TradeEngine.TradeEngine.RestoreFrom | beta-app/trade-engine.mjs:49-68 | the engine is the snapshot's, counters are the largest id suffixes, idempotency is empty |
| TradeEngine.MaxSuffix | beta-app/trade-engine.mjs:64-65 | the least number no id suffix exceeds, 0 for none |
| EngineInvariant.LedgerInvariant | beta-app/trade-engine.mjs:170-346 | after every sequence of operations and restores of any earlier snapshot: ids are 1..n, an order has exactly one trade if and only if accepted, trades and reservations are in bijection and in step, inspections exist exactly for inspected reservations, seals verify, each lot's reserved stock is the sum of its trades |
| EngineInvariant.NeverOversold | beta-app/trade-engine.mjs:257-276 | the sealed remainder of every trade is the lot's stock minus what the trades up to it took, never negative |
| EngineInvariant.StockIsFixed | beta-app/inventory-ledger.mjs:118-134 | no operation changes a lot's available + reserved, price or terms |
| EngineInvariant.StockWasRegistered | beta-app/trade-engine.mjs:94-125 | over every run, restores included, each lot is the initial one or was registered in the run on admitted evidence: available + reserved is the quantity registered, price, supplier, spec and expiry are those registered |
| EngineInvariant.ThrownChangesExactlyWhen | beta-app/trade-engine.mjs:244-245 | in any state an operation that throws changes the engine if and only if it is an acceptance past its first checks on an order whose answers are not normalized |
| EngineInvariant.ThrowingChangesNothing | beta-app/trade-engine.mjs:94-346 | so in no reachable state: an operation that throws leaves the engine as it was |
| EngineInvariant.RestoreForgets | beta-app/trade-engine.mjs:49-92 | restore(snapshot()) gives back the same lots, maps and counters and only empties the idempotency map |
| EngineInvariant.KeyIsFresh | beta-app/trade-engine.mjs:257-259 | the reservation id of an order still open is not in use |
| EngineInvariant.TamperingIsRefused | beta-app/trade-engine.mjs:206-236 | in every reachable engine, with any trade put in place of one under its stored seal: delivery and inspection are refused as tampered and change nothing if and only if a sealed field differs and the digest does not collide on the two texts |
| Texts.PaddedNumberReadsBack | beta-app/trade-engine.mjs:64-65 | the number at the end of an id is the number it was padded from |
| CrashRecovery.RestartsAreInvisibleExactlyWhen | beta-app/trade-engine.mjs:49-92 | restarts inserted anywhere in any run change no answer if and only if every key the uninterrupted run replays was remembered since the last restart; then they change no snapshot either |
| CrashRecovery.RestartIsSeenExactlyWhen | beta-app/trade-engine.mjs:49-92 | for every reachable engine and every operation: a restart just before it changes its answer if and only if it repeats a remembered key |
| CrashRecovery.RestartsAreInvisible | beta-app/trade-engine.mjs:49-92 | with no key used twice, restarts inserted anywhere in any run change no answer and no snapshot |
| CrashRecovery.RepeatedKeyAfterRestart | beta-app/trade-engine.mjs:66 | submit, restart, submit again under the same key, from the initial engine: two orders, where without the restart there is one |
| PersistenceStore.LogIsOneHistory | beta-app/persistence-store.mjs:150-170 | for every interleaving of calls over stale engines, each committed snapshot is its successful mutation applied to the snapshot before it, and every snapshot is of a sound ledger |
| PersistenceStore.FailedCallGivesBack | beta-app/persistence-store.mjs:163-167 | for every interleaving: a call that did not commit, once recovered, leaves the log alone and its process with the ledger it had when the call began |
| PersistenceStore.PostgresSnapshotStore.RunAtomic | beta-app/persistence-store.mjs:150-170 | on success the mutation on the latest snapshot is the new engine and the next entry; on failure the log is unchanged and the engine restored |
| MarketBoard.BoardShowsWhatSells | beta-app/market-board.mjs:67-93 | in every reachable engine state and for every quantity and price: some order of that quantity at that price is taken if and only if the quantity is in 20..1200 and an ask on the board has at least that stock at no more than that price |
| MarketBoard.LeftoverIsListedButUnsold | beta-app/market-board.mjs:15-25 | after one order of 1190 of the initial 1200 the remaining 10 stay on the board and no order whatever is taken |
| MarketBoard.BoardListsWhatPasses | beta-app/market-board.mjs:67-93 | in every reachable engine state a lot is on the board if and only if it passes verifyLot for some positive quantity on canonical terms, and the best ask is no dearer |
| MarketBoard.GatesAgree | beta-app/market-board.mjs:13-23 | board eligibility is passing verifyLot for every positive quantity up to the stock and every allowance from the lot's own |
| MarketBoard.BoardIsOrdered | beta-app/market-board.mjs:69-73 | asks are in order, the first is the best, the reported stock is the sum over the eligible lots |
| Evidence.VerifyEvidenceBundle | beta-app/evidence-verifier.mjs:16-53 | eligible if and only if no type repeats and each required type's record is valid, hashed, unexpired and about the lot; the check of each type is that of its last record |
| Evidence.EvidenceRegistry.Submit | beta-app/evidence-registry.mjs:27-57 | a pending record is kept only for a required type and a version of it not yet live; otherwise refused and unchanged |
| Evidence.EvidenceRegistry.Decide | beta-app/evidence-registry.mjs:59-70 | only a human role with an id decides, VALID or REJECTED; otherwise refused and unchanged |
| Evidence.EvidenceRegistry.Eligibility | beta-app/evidence-registry.mjs:82-84 | the gate's verdict on the lot's listed records |
| Evidence.EvidenceRegistry.Restore | beta-app/evidence-registry.mjs:90-93 | the records are the snapshot's, a repeated id keeping its first place and last value |
| Evidence.SnapshotRestores | beta-app/evidence-registry.mjs:86-93 | restoring a registry's snapshot gives the same records in the same order |
| Evidence.EligibleExactlyWhen | beta-app/evidence-registry.mjs:27-84 | in every reachable registry a lot is eligible if and only if each required type has exactly one record about it and that one is current |
| Evidence.TwoRecordsForGood | beta-app/evidence-verifier.mjs:20-23 | once two records of a type exist, no submission, review or reload of any snapshot saved since, or of an older one that has two itself, makes the lot eligible again |
| Evidence.DoubledIsFreedExactlyWhen | beta-app/evidence-registry.mjs:27-93 | in every reachable registry a lot with two records of a type is eligible after one more step if and only if the step is a kept submission for another lot under the id of one of its records, or a reload, that leaves one current record of each type |
| Evidence.LotExpiryIsSound | beta-app/trade-engine.mjs:99-100 | while the registered expiry has not passed every dated record of the bundle is unexpired and the bundle is admitted; it passes less than a day before the first of them |
| Simulator.GabaBetaSimulator.ApplyScenarioToLots | simulator/gaba_beta_simulator.py:214-231 | every flag is reset and then only the lots, days and scenarios named lose one, or their stock |
| Simulator.GabaBetaSimulator.EligibleLots | simulator/gaba_beta_simulator.py:249-259 | the passing lots in sorted order and one event for every other lot |
| Simulator.GabaBetaSimulator.Execute | simulator/gaba_beta_simulator.py:261-295 | the loop that stops when nothing remains does what filling the whole queue does, and reports what is left |
| Simulator.GabaBetaSimulator.Run | simulator/gaba_beta_simulator.py:317-334 | the nested loops over days and orders give the run the theorems are about |
| GreedyFill.EligibleIsSorted | simulator/gaba_beta_simulator.py:249-259 | the queue holds exactly the lots that pass, each once, by rising ask |
| GreedyFill.GreedyIsOptimal | simulator/gaba_beta_simulator.py:261-295 | an order takes exactly min(requested, sum of caps) over the eligible lots, at the least total ask cost of any feasible allocation of that amount; filled + remaining = requested |
| GreedyFill.PricedIsCheapest | simulator/gaba_beta_simulator.py:261-295 | a threshold price between used and unused stock certifies that no allocation costs less |
| SimulatorRuns.RunsAreSound | simulator/gaba_beta_simulator.py:317-378 | for every scenario and all daily samples of distinct buyers: duplicate count 0, no trade of a lot on a day it was blocked for documents, inventory or supplier, no lot trades more than it started with |
| SimulatorRuns.RunOutcomes | simulator/gaba_beta_simulator.py:297-315 | over every run trades are numbered 1..n, all verified beforehand, and a trade is disputed or held exactly under the scenario, days, seller, lot or number that say so |
| ShadowPilot.PilotVerdict | simulator/shadow_pilot_runner.py:93-142 | for every scenario, expectation and run: the pilot passes it if and only if it shows what was expected and has at least one trade, the verification rate of no trades being 0 |
| ShadowPilot.BlockingVerdict | simulator/shadow_pilot_runner.py:93-142 | a blocking scenario passes if and only if, read off the initial lots and the orders alone, some order meets a lot flagged that day and some order can trade |
| ShadowPilot.TradesExactlyWhen | simulator/gaba_beta_simulator.py:233-295 | a run trades at all if and only if some order of some day passes the gate of some lot as it would stand that day untouched |
| ShadowPilot.BlockedWithoutTradeFails | simulator/gaba_beta_simulator.py:364 | a run that is blocked as expected, trades nothing and therefore fails |
| PriceIndex.IndexBetween | beta-app/price-index.mjs:58-64 | a published value lies between any bounds on the sample's prices |
| PriceIndex.ConfidenceGrows | beta-app/price-index.mjs:60 | confidence grows with sample and suppliers and is in 80..99 when published |
| PriceIndex.ConfidenceInIntegers | beta-app/price-index.mjs:60 | the confidence equals an integer formula over the common denominator, rounded half up and capped at 99 |
| PriceIndex.SplitTradesCountAlike | beta-app/price-index.mjs:58-59 | a trade weighs exactly as any two trades of its price it could be split into |
| PriceFeed.Feed.Ingest | beta-app/price-feed.mjs:51-65 | the store after a batch, up to the first refused observation, and how many were new |
| PriceFeed.ReingestChangesNothing | beta-app/price-feed.mjs:56-62 | ingesting a batch again, whatever came between and whatever it now says, changes nothing |
| PriceFeed.Refusal | beta-app/price-feed.mjs:18-30 | an accepted observation has an identity |
| PriceFeed.TrendSampleIsIndexSample | beta-app/price-feed.mjs:78-80 | the trend is computed on exactly the observations of the index |
| PriceFeed.ByDateSortsStably | beta-app/price-feed.mjs:78-80 | the trend's sample is in date order, and observations of one date keep their stored order |
| PriceFeed.MonotonePricesMonotoneTrend | beta-app/price-feed.mjs:67-87 | for every store of ingested batches: when calculate publishes and the eligible prices never fall with time it never shows DOWNWARD, when they never rise never UPWARD |
| PriceFeed.SourceIsNotChecked | beta-app/price-feed.mjs:67-87 | what calculate shows is the same whatever the source type of any stored observation |
| PriceFeed.QuotesArePublished | beta-app/price-feed.mjs:51-87 | three ingested supplier quotes, and nothing else, make a published index |
| Supervisor.RestartsAreLimited | ops/company-supervisor.mjs:171-184 | with a non-decreasing clock any maxRestarts + 1 consecutive grants span more than the window, and grants = respawns + kills |
| Supervisor.HaltIsFinal | ops/company-supervisor.mjs:232-239 | after HALTED_REQUIRES_H01 nothing is ever spawned |
| Supervisor.StoppedForGood | ops/company-supervisor.mjs:264-269 | once stopping nothing is spawned, killed or granted |
| Supervisor.CompanySupervisor.PruneRestartHistory | ops/company-supervisor.mjs:171-174 | exactly the leading entries before the cutoff are dropped |
| Supervisor.CompanySupervisor.ReserveRestart | ops/company-supervisor.mjs:176-184 | granted if and only if fewer than maxRestarts are left in the window, and then recorded |
| Supervisor.CompanySupervisor.HaltForHuman | ops/company-supervisor.mjs:232-239 | both children are gone and the supervisor is stopping |
| Supervisor.CompanySupervisor.CheckServer | ops/company-supervisor.mjs:241-251 | a first start, a granted respawn, a halt, or nothing |
| Supervisor.CompanySupervisor.CheckDaemon | ops/company-supervisor.mjs:253-262 | a first start, a granted respawn, a halt, or nothing |
| Supervisor.CompanySupervisor.AfterHealthCheck | ops/company-supervisor.mjs:271-277 | failures are reset and a stale daemon is terminated |
| Supervisor.CompanySupervisor.AfterHealthFailure | ops/company-supervisor.mjs:296-309 | a failure counts unless the server is within its startup grace |
| Supervisor.CompanySupervisor.KillUnhealthyServer | ops/company-supervisor.mjs:312-315 | from the second failure a live server is terminated on a grant, else the supervisor halts |
| IncidentLedger.LogIsOrderly | ops/incident-ledger.mjs:28-93 | in every log each fingerprint reads (OPENED REOBSERVED* RECOVERED)* with at most one open tail, and between two escalations it recovered |
| IncidentLedger.OkCloses | ops/incident-ledger.mjs:59-86 | after an OK nothing is open at that base URL and no other fingerprint moved |
| IncidentLedger.Ledger.RecordMonitorObservation | ops/incident-ledger.mjs:28-93 | the fold into latest records appends the record each open failure calls for, and a human is called exactly for a new opening |
| Reconciliation.IndexById | beta-app/domain-reconciliation.mjs:7-19 | the last record of every id, and exactly the missing and duplicate ids as issues |
| Reconciliation.CompareCollection | beta-app/domain-reconciliation.mjs:23-41 | the issues added are exactly the missing, duplicate, one-sided and differing ids |
| Reconciliation.CheckDomainInvariants | beta-app/domain-reconciliation.mjs:43-57 | the issues added are exactly the domain's own violations |
| Reconciliation.ReconcileDomainState | beta-app/domain-reconciliation.mjs:59-75 | MATCH if and only if both sides agree; the issues are exactly what is due |
| Reconciliation.AgreeExactlyWhen | beta-app/domain-reconciliation.mjs:59-75 | nothing is due if and only if in every collection ids are present and unique on both sides, the id sets are equal, the compared fields agree and the domain's checks hold |

## Left out

- HTTP server, event streams, UI, document storage, authorization, notifications, approval records, readiness and reports: plumbing around the ledger.
- `operation-lock.mjs`: its dead-owner recovery does not give mutual exclusion, so nothing is claimed of it.
- Events, timestamps, message strings: dropped from the state; a trade's `confirmedAt` is an input text because it is sealed.
- Clock, UUIDs and digests: inputs. Within one engine operation the clock is read once. Ids the database generates are fresh inputs; the digest is any function of the text, collisions included, except in `IncidentLedger`, whose fingerprints are the hashed fields.
- Fractional quantities and prices: quantities and prices are integers, and the rounding of `numeric(18, 3)` and of floating point is not modelled; the price index and trend use exact rationals.
- Membership, supplier verification and, in the PostgreSQL ledger, specification answers and trade papers: their verdicts are inputs of the requests.
- Adapter operations `submitEvidence` and `registerVerifiedLot`, and supplier verification: they would repeat `registerLotDraft` and `reviewEvidence`.
- Other writers of `lots` during the reservation protocol: transactions of `ReserveProtocol` call `reserve_lot` only.
- Insertion order of the engine's order, trade and reservation maps: maps are unordered, only lots keep their order, because only it decides an outcome.
- `restore` of a snapshot whose arrays repeat an id, or with fields missing: snapshots are those the engine took.
- TradeEngine.TradeEngine.RegisterVerifiedLot: expiry dates after the year 9999, where the ten-character date is cut short, are not treated specially.
- SnapshotIntegrity.SealDetectsEveryChange: the evidence expiry is written in the payload as its instant rather than as a date text.
- Evidence.TwoRecordsForGood: excludes reused evidence ids and reloads of an older snapshot with fewer such records, either of which can take a record away; when such a step makes the lot eligible again is `Evidence.DoubledIsFreedExactlyWhen`.
- DomainExamples.ForeignSpecRun: foreign keys to tables outside the ledger (specifications, organisations, users) are not modelled, so the other spec it names has to be a registered one.
- PersistenceStore.LogIsOneHistory: the first entry is of the process's own in-memory engine, so it has no predecessor to be compared with.
- MarketBoard.BoardIsOrdered: the list of recent completed trades is not modelled, and the locale's collation is any strict total order.
- PriceFeed.Feed.Ingest: `restore` and `status` of the feed are not modelled.
- Simulator.GabaBetaSimulator.Run: random draws are replaced by arbitrary lots and daily orders; orders allow partial fill, as every generated order does; price series and the ratio metrics other than the verification rate are skipped.
- Supervisor.RestartsAreLimited: status files, logs and health probes are reduced to their outcomes; `maxRestarts` is a natural number.
- IncidentLedger.LogIsOrderly: a status other than OK or INCIDENT is refused before anything is read; one writer at a time: two monitors reading the same log before either appends could both open an incident.
- Reconciliation.ReconcileDomainState: how text reads as a number is a parameter; compared values are null, integers and text.
