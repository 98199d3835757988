# Verified models of the payment protocol and the crash-prone jobs

This project models, in Dafny, the parts of the platform where money or records can be lost when
several workers interleave or a process dies half-way:

- **Prepaid credit** (`TransferIds`, `PrepaidLedger`, `PrepaidInvariants`, `PrepaidPreservation`,
  `PrepaidTheorems`, `PrepaidDebits`, `PrepaidAdmission`, `PrepaidBalances`, `PrepaidOverdraft`, `PrepaidDeadEnds`,
  `PrepaidWebhooks`, `PrepaidOutcomes`, `PrepaidService`): payment intents, the webhook queue, debit claims and the
  double-entry ledger. Every database transaction and
  every remote call is one step of a state machine in which any number of calls interleave, meet
  faults and crash. A request that was sent to the ledger may be applied at any later time, even after
  its caller timed out, failed or died, or never. `PrepaidOutcomes` says
  what each step of a call means for its caller in every state the protocol can be in, and
  `PrepaidService` is the protocol as a class whose methods update the tables: each takes its step of
  the machine, keeps the protocol sound and ensures its outcome.
- **Commercial entitlements** (`EarliestExpiry`, `Commercial`, `CommercialOptimality`, `CommercialLocks`,
  `CommercialService`): reservations, consumption, assessments, contract activation; conservation of
  units, the optimality of reserving from the entitlement that expires first, and what skipping locked
  rows costs.
- **Schema migrations** (`Migrations`, `ConcurrentScripts`, `MigrationRunner`): crash-restart refinement.
- **Forensic export** (`ForensicExport`, `RecordGuard`): the streaming verifier equals a grammar, what
  edits it detects, and the byte guard.
- **Ledger export** (`CsvExport`): the printer against an independent parser of section 2 of RFC 4180.
- **Archivers and backfill** (`Chunks`, `Reruns`, `BiometricArchiver`, `WarmArchival`, `Backfill`): batch loops
  against remote calls of which each can work, throw without effect or throw after taking effect, in a
  process that can die after any call.
- **Status changes by compare-and-set** (`StatusTables`, `BankingStatus`, `Custody`): letters of
  credit, regulatory reports and chain-of-custody transfers under concurrent callers.

`Common` holds sums, sequences without duplicates and optional values.

## Assumptions

- The ledger applies a transfer identifier at most once (`server/billingSettlement.ts:79-83` relies on
  it), and an account's posted totals are the sums of the applied transfers.
- The truncated hash of a transfer preimage is injective. With `TransferIds.IdentifiersAgree` the
  protocol model then uses the tuple a preimage is built from as the identifier.
- What the provider confirmed for a reference stays confirmed, with the same amount and currency.
- A transaction is atomic, an advisory lock serialises migration runs, and the unique indexes the code
  relies on exist: payment reference, webhook payload hash, claim transfer identifier, (tenant,
  idempotency key), (tenant, investigation), the authority reference of a contract, migration index and
  tag, active envelope key, and the two on blind indexes. Blind-index keys are not rotated meanwhile.
- Time is an integer that never decreases. Amounts are whole kobo and the safe-integer limit is not
  reached. Identifiers drawn at random are fresh.

## Where the code differs from its comments, or from what one might expect

- `server/billing.ts:192-195` says that releasing the claim lets a retry claim the key again. That
  holds if and only if the rejected caller is tenant-scoped; a platform administrator's tenant is null
  and its DELETE matches no row (`PrepaidDebits.ReclaimableIffScoped`; a debit that gets there is
  `PrepaidDeadEnds.AdminKeyStuck`). A claim that is neither reconciled nor debited can never be debited or
  freed if and only if its owner's request was lost, or its owner has sent none and has ended or is about
  to make such a release (`PrepaidDeadEnds.WedgedIff`).
- The available-balance "precondition" (`server/billingSettlement.ts:240-244`) is not atomic with the
  transfer. With at most n debits between check and ledger, each at most m, the balance never falls below
  -(n-1)*m (`PrepaidBalances.BoundedOverdraft`); for every n >= 1 and every m that can be topped up some
  run reaches that bound (`PrepaidOverdraft.BoundAttained`), so limiting a tenant to n debits in flight
  keeps the balance from becoming negative if and only if n is at most one
  (`PrepaidOverdraft.NeverNegativeIff`).
- A settlement whose ledger transfer was applied but whose intent then expired can never be completed
  (`PrepaidTheorems.RecoverableIffNotExpired`); a run into that state is `PrepaidDeadEnds.TopupStranded`.
- A processed webhook can fall back to a retryable failure (`PrepaidWebhooks.ProcessedCanBeOverwritten`);
  it stays processed over every run if and only if no worker that began it is still open
  (`PrepaidWebhooks.ProcessedIsFinalIff`).
- Two error branches read differently once the protocol is known: "payment settlement state requires
  reconciliation" (`server/billingSettlement.ts:435`) only means that another worker credited the intent
  first (`PrepaidOutcomes.CompleteOutcome`), and "reconciliation state requires operator recovery"
  (`server/billing.ts:214`) cannot occur (`PrepaidOutcomes.ReconcileOutcome`).
- A reservation that skips a row locked by a concurrent transaction can cost the tenant a later request
  (`CommercialLocks.LockedServesLess`). It costs none, however the run goes on, if and only if no locked row
  that could have been given expires before the row it got (`CommercialLocks.HarmlessIff`), and every
  other one costs at most one request (`CommercialOptimality.StoreServesMost`).
- `server/biometricSessionLogArchiver.ts:85` says that deletion is skipped for this batch. The errors
  are kept for the whole run: after any failed upload nothing is deleted any more, and as long as the
  process lives and its queries work the run then ends if and only if fewer old rows than a full batch
  are left (`BiometricArchiver.Archiver.Archive`).
- Warm archival sets its file key before the write (`server/archival.ts:202-208`), so the report of a run
  that finishes names a file that was not written if and only if the write call did not take effect
  (`WarmArchival.Archiver.ArchiveToWarm`, `WarmArchival.NamedNotWritten`). Rows stay written exactly once if
  and only if a run does not get to write, or every call up to the write works and every marking call is
  made and takes effect (`WarmArchival.Archiver.ArchiveToWarm`, through `WarmArchival.OnceIffAllMarked`);
  otherwise a later run that selects an unmarked row writes it again (`WarmArchival.WrittenTwice`,
  `WarmArchival.BackedUpTwice`).
- Blind indexes are unique for each attribute value of a tenant. A subject can be found by its own
  attribute if and only if it was indexed before, or nothing stored is in the way and no earlier subject
  takes the value (`Backfill.FoundIff`); everybody can be if and only if no two subjects share a value and
  nothing stored is in the way (`Backfill.AllFoundIff`). Of two subjects with one value only the first
  can (`Backfill.SecondNotFound`).
- Deleting a report answers success even if the guarded delete matched no row (`server/banking.ts:635-636`):
  the row is gone if and only if it still had the status that was checked (`StatusTables.CommitOutcome`); a
  run in which it is not is `BankingStatus.DeleteAnsweredNotDone`.
- A custody transfer appends to the chain it read, and its guard compares the status only. The status
  always matches the last entry, but entries of the chain can be lost (`Custody.ChainKeptIffUnchanged`,
  `Custody.EntryLost`).
- A migration with a CONCURRENTLY statement runs outside a transaction, and its restart commits the same
  statements as an uninterrupted run if and only if none had been executed
  (`Migrations.ConcurrentRestart`). The restart succeeds, with the indexes of an uninterrupted run, if and
  only if each statement executed before that is the first on its index is guarded by IF (NOT) EXISTS or was
  undone by a later one (`ConcurrentScripts.RestartIff`).
- The forensic export's record structure detects every removal and insertion, but accepts its events in
  any order (`ForensicExport.ReorderingAcceptedIff`).

## Model

| member | source | states |
|---|---|---|
| `TransferIds.DebitPreimageInjective` | server/billing.ts:46-51 | Distinct (tenant, investigation, tier, amount) tuples have distinct preimages, although the investigation may itself contain colons. |
| `TransferIds.DebitPreimageNeedsCanonicalTenant` | server/billing.ts:145-145 | Why the tenant pattern matters: without it two different pairs share one preimage. |
| `TransferIds.FamiliesDisjoint` | server/billingSettlement.ts:71-77 | Top-up, assessment and investigation-debit preimages never meet. |
| `TransferIds.IdentifiersAgree` | server/billing.ts:42-51 | Across the three families two transfers have the same preimage exactly when they have the same key. |
| `TransferIds.AccountNamesAgree` | server/billing.ts:22-23 | No two ledger accounts share a name. |
| `PrepaidPreservation.StepKeeps` | server/billingSettlement.ts:380-444 | Every step of every call, with faults, crashes and late ledger applications, preserves the invariant of the whole protocol. |
| `PrepaidInvariants.StepExtends` | server/billingSettlement.ts:428-442 | No step removes an intent, changes its tenant or amount, un-credits it, or takes anything from the ledger. |
| `PrepaidTheorems.CreditsAreSettledAmounts` | server/billingSettlement.ts:415-426 | Posted credits of a tenant are the sum of the amounts of its settled intents, each once. |
| `PrepaidTheorems.ExactlyOnceCredit` | server/billingSettlement.ts:380-444 | In every reachable state a reference has at most one ledger credit, and the posted credits are the settled amounts. |
| `PrepaidTheorems.BalanceExplained` | server/billing.ts:26-30 | In every reachable state what was debited from a tenant is the price of the tier of each of its investigation debits and its charges for assessments, and its balance is its settled amounts less those. |
| `PrepaidTheorems.EvidenceChain` | server/billingSettlement.ts:369-443 | Top-up row implies credited intent, which implies a ledger transfer of its tenant and amount, which implies a provider confirmation of that amount and currency. |
| `PrepaidTheorems.SettlementIsPermanent` | server/billingSettlement.ts:287-315 | Over any run credited is permanent, an intent's tenant and amount never change, and the ledger only grows. |
| `PrepaidTheorems.RetryCompletes` | server/billingSettlement.ts:394-443 | After a crash behind the ledger post, a retry before expiry reaches credited and adds no second transfer. |
| `PrepaidTheorems.RecoverableIffNotExpired` | server/billingSettlement.ts:399-400 | With the money in the ledger and no call past its read, the intent can still be credited if and only if it has not expired. |
| `PrepaidDebits.DebitAtMostOnce` | server/billing.ts:157-212 | For one (tenant, investigation, tier) at most one call ever sends a transfer, whatever the ledger does with repeated identifiers, and the ledger holds at most one. |
| `PrepaidDebits.ClaimsMatchLedger` | server/billing.ts:161-215 | Every investigation debit in the ledger has a claim row, and a reconciled claim's own debit is in the ledger. |
| `PrepaidDebits.NothingPosted` | server/billing.ts:182-202 | Until a debit call posts, its key is claimed by it alone and the ledger holds nothing under that key. |
| `PrepaidDebits.ReleaseFreesOwnKey` | server/billing.ts:190-199 | A release touches no other claim and no posted debit, and frees the key exactly for tenant-scoped callers. |
| `PrepaidDebits.WedgedForever` | server/billing.ts:173-179 | An unreconciled claim whose owner's request was lost, or who has sent none and is at its end, stays claimed, unreconciled and undebited over every run. |
| `PrepaidDeadEnds.WedgedIff` | server/billing.ts:157-215 | In every reachable state these are exactly the open claims that no run can debit or free: for all others some run does. |
| `PrepaidDeadEnds.AdminKeyStuck` | server/billing.ts:190-200 | The input on which a rejected debit cannot be retried: a platform administrator's debit of a tenant without credit, run from the start. |
| `PrepaidDeadEnds.TopupStranded` | server/billingSettlement.ts:394-436 | The input on which a settlement can never be completed: a run from the start to a state with the top-up in the ledger and the intent pending, expired and never to be credited. |
| `PrepaidDebits.ReclaimableIffScoped` | server/billing.ts:191-200 | After a release the key can be claimed again in some run if and only if the caller was tenant-scoped. |
| `PrepaidDebits.CrashAfterClaimWedges` | server/billing.ts:161-202 | A crash between winning the claim and posting leaves the key stuck for good. |
| `PrepaidAdmission.TurnedAwayIff` | server/billing.ts:52-59 | A debit request is turned away before anything is written exactly if its tenant is not canonical (bad request) or its caller belongs to another tenant or names another price (forbidden). |
| `PrepaidAdmission.AssessmentTurnedAwayIff` | server/billingSettlement.ts:84-87 | The charge for an assessment is tried exactly if it is positive and its tenant canonical. |
| `PrepaidAdmission.ClaimsAreOwn` | server/billing.ts:161-171 | In every reachable state a claim made by a tenant's user is on that tenant's account. |
| `PrepaidAdmission.DebitsAreAdmitted` | server/billing.ts:145-156 | In every reachable state each investigation debit in the ledger was requested by its own tenant or a platform administrator, at the server's price. |
| `PrepaidBalances.BoundedOverdraft` | server/billingSettlement.ts:224-258 | With at most n debits of at most m in flight the balance never falls below -(n-1)*m; with n = 1 it is never negative. |
| `PrepaidOverdraft.BoundAttained` | server/billing.ts:188-212 | For every n >= 1 and every m that can be topped up, a run within those limits reaches the balance -(n-1)*m. |
| `PrepaidOverdraft.NeverNegativeIff` | server/billingSettlement.ts:240-258 | At most n debits in flight keep the balance from ever becoming negative if and only if n is at most one. |
| `PrepaidBalances.DoubleEntry` | server/billingSettlement.ts:93-102 | Total debits equal total credits, and the revenue balance is the negation of the sum of the tenant balances. |
| `PrepaidWebhooks.AttemptsBounded` | server/billingSettlement.ts:464-469 | Under concurrent workers a stored event starts at most ten attempts, and its counter is exact. |
| `PrepaidWebhooks.ProcessedMeansCredited` | server/billingSettlement.ts:480-482 | A processed charge.success event with a non-empty reference has a credited intent with its top-up in the ledger. |
| `PrepaidWebhooks.StoredOnce` | server/billingSettlement.ts:338-348 | An identical payload is stored once, and the stored content never changes. |
| `PrepaidWebhooks.ProcessedIsFinalIff` | server/billingSettlement.ts:480-495 | A processed event stays processed over every run if and only if no worker that began it is still open. |
| `PrepaidWebhooks.ProcessedCanBeOverwritten` | server/billingSettlement.ts:482-494 | The input on which it does not: a reachable state in which a second worker turns a processed event into a retryable failure. |
| `PrepaidService.Service.AvailableBalance` | server/billingSettlement.ts:224-238 | The balance read is credits minus debits of the account, and refuses exactly the negative ones. |
| `PrepaidService.Service.CheckBalance` | server/billing.ts:188-201 | An investigation debit is posted exactly if the balance covers the price of its tier and its claim given up exactly if it falls short; an assessment likewise by its charge; a negative balance is an error. |
| `PrepaidService.Service.SettlePayment` | server/billingSettlement.ts:380-444 | A whole settlement that nothing disturbs (no fault, no lost request, no other worker in between) succeeds exactly if the intent is credited, or payable, unexpired and confirmed by the provider; then the intent is credited with its money in the ledger and, if newly, its top-up row written. |
| `PrepaidService.Service.RecordDebit` | server/billing.ts:144-217 | A whole debit that nothing disturbs: what it answers in every case; that it takes exactly the price of its tier, once, and only if the tenant has it; and what becomes of its claim. |
| `PrepaidService.Service.ProcessEvent` | server/billingSettlement.ts:446-500 | A whole delivery that nothing disturbs: a charge.success event with a reference is processed exactly if its payment settles, and then the money is in the ledger; any other event is processed at once; a refusal is final. |
| `PrepaidOutcomes.SoundStep` | server/billingSettlement.ts:386-442 | Every step keeps the protocol invariant, the claims of all senders, and what the locked read established although its lock is gone. |
| `PrepaidOutcomes.ReachableSound` | server/billing.ts:157-215 | All of that holds in every reachable state, so the outcomes below do too. |
| `PrepaidOutcomes.StartOutcome` | server/billingSettlement.ts:284-292 | A new intent is its tenant's for its amount and lasts thirty minutes; no money is in the ledger for it, it has no top-up row, and it is not settleable yet. |
| `PrepaidOutcomes.InitializationOutcome` | server/billingSettlement.ts:307-322 | The provider's answer, however late, never disturbs a payable or credited intent. |
| `PrepaidOutcomes.InitializedOutcome` | server/billingSettlement.ts:307-322 | The provider's positive answer makes an initializing intent payable, and nothing else does. |
| `PrepaidOutcomes.ReadOutcome` | server/billingSettlement.ts:386-401 | An idempotent answer means the money is in the ledger, and is given exactly for credited intents; a settlement proceeds exactly for a payable, unexpired one. |
| `PrepaidOutcomes.VerifyOutcome` | server/billingSettlement.ts:409-413 | The call posts exactly if the provider confirmed the terms the intent has now, although it holds an older snapshot, and posts the intent's own top-up. |
| `PrepaidOutcomes.PostOutcome` | server/billingSettlement.ts:415-426 | Every request that leaves for the ledger rests on a confirmed payment, or on the caller's own claim of a key nobody has sent and the ledger does not hold. |
| `PrepaidOutcomes.CompleteOutcome` | server/billingSettlement.ts:428-436 | After the compare-and-set the intent is credited with its money in the ledger; the error means exactly that another worker was first. |
| `PrepaidOutcomes.RecordOutcome` | server/billingSettlement.ts:437-443 | The recorded row is that of the credited intent, with the transfer that is in the ledger. |
| `PrepaidOutcomes.BeginOutcome` | server/billingSettlement.ts:452-482 | A delivery is started exactly if the event is stored, not processed and has one of ten attempts left; it then settles the reference exactly if the event is charge.success with a non-empty one, and nothing otherwise. |
| `PrepaidOutcomes.TurnedAwayOutcome` | server/billingSettlement.ts:456-466 | A processed event is left alone, and one that has used up its attempts fails for good. |
| `PrepaidOutcomes.StoreOutcome` | server/billingSettlement.ts:338-348 | A new payload is stored with its own type and reference, due for a first attempt, and disturbs no other. |
| `PrepaidOutcomes.FinishOutcome` | server/billingSettlement.ts:480-495 | An event is marked processed exactly if its call returned, and a charge.success event then has its intent credited and the money in the ledger; it is to be tried again, after five minutes, exactly if a service was unavailable, and any other failure is final. |
| `PrepaidOutcomes.ClaimOutcome` | server/billing.ts:161-173 | A call wins the claim exactly if nobody holds it, and then nobody has ever sent the debit; otherwise no claim changes. |
| `PrepaidOutcomes.LookUpOutcome` | server/billing.ts:173-180 | An idempotent answer says "recorded" exactly if the claim is reconciled, and then the debit is in the ledger. |
| `PrepaidOutcomes.CheckOutcome` | server/billing.ts:188-201 | An investigation debit goes on exactly if the tenant has the price of the tier, gives its claim up exactly if it has less, and fails on a negative balance. |
| `PrepaidOutcomes.AssessmentOutcome` | server/billingSettlement.ts:89-102 | An assessment is charged exactly if the tenant has its charge. |
| `PrepaidOutcomes.AcknowledgeOutcome` | server/billing.ts:202-213 | An acknowledged transfer is in the ledger; a top-up goes on to complete its intent, a debit to reconcile its claim. |
| `PrepaidOutcomes.ReconcileOutcome` | server/billing.ts:213-215 | Reconciliation always finds the claim, and the debit it confirms is in the ledger. |
| `EarliestExpiry.Exchange` | server/billingCommercial.ts:138-143 | Giving the first request the earliest-expiring entitlement costs any other assignment at most one later request. |
| `EarliestExpiry.EarliestFirstServesMost` | server/billingCommercial.ts:138-147 | Taking in-period entitlements one request after the other serves at least as many requests as any valid assignment, less one for each choice that left out an earlier-expiring one; so always taking the one that expires first serves the most. |
| `EarliestExpiry.ChosenIsValid` | server/billingCommercial.ts:138-147 | Those choices are themselves a valid assignment. |
| `EarliestExpiry.CostsNothingIffEarliest` | server/billingCommercial.ts:138-143 | A choice costs no request, whatever requests follow, if and only if it is an entitlement that expires first: no other policy has this. |
| `Commercial.ReserveConserves` | server/billingCommercial.ts:145-153 | A reservation keeps counters, uniqueness and usage exact. |
| `Commercial.ConsumeConserves` | server/billingCommercial.ts:177-185 | A consumption keeps them too, and adds exactly its own usage event. |
| `Commercial.ActivateConserves` | server/billingCommercial.ts:98-106 | Activating a contract keeps them too. |
| `Commercial.AssessConserves` | server/intelligenceAssessmentBillingWorker.ts:55-75 | Reserving and consuming a unit in one transaction keeps them too. |
| `Commercial.RunConserves` | server/billingCommercial.ts:128-186 | In every reachable store, whatever rows were locked at any time, reserved and consumed units are the numbers of such reservations and never exceed the total, and usage events correspond one to one to consumed reservations. |
| `CommercialOptimality.RunIsChosen` | server/billingCommercial.ts:138-154 | What a run hands to a tenant is chosen one request after the other from all the units it ever had, each usable from its activation on, and a choice is late exactly if a lock hid a row. |
| `CommercialOptimality.StoreServesMost` | server/billingCommercial.ts:138-186 | Whatever rows are locked and whatever contracts are activated at any point, no other way of handing out the tenant's entitlements would have served more of its requests, but for one for each request from which a lock hid a row; and what the store did was a feasible way. |
| `CommercialLocks.HarmlessIff` | server/billingCommercial.ts:138-143 | A reservation costs its tenant no request, however the run goes on and whatever is locked later, if and only if no locked row that could have been given expires before its pick. |
| `CommercialLocks.LockedServesLess` | server/billingCommercial.ts:142-142 | A run in which a skipped locked row costs the tenant a request. |
| `CommercialService.Service.EarliestAvailable` | server/billingCommercial.ts:138-143 | The query returns an available, unlocked entitlement with the smallest period end, or none if there is none. |
| `CommercialService.Service.ReserveCompletedCheck` | server/billingCommercial.ts:117-162 | The whole transaction: every refusal, every replay and every reservation, and the whole new store. |
| `CommercialService.Service.ConsumeReservedCheck` | server/billingCommercial.ts:164-192 | The whole transaction: every refusal, the replay, and the consumption. |
| `CommercialService.Service.ReserveAndConsume` | server/intelligenceAssessmentBillingWorker.ts:46-83 | The whole transaction: the replay, every refusal, and the unit reserved and consumed at once. |
| `CommercialService.Service.ActivateManualContract` | server/billingCommercial.ts:71-115 | Refused exactly for an empty period, a plan that is missing or inactive, or a used authority reference; otherwise exactly the tenant's own live subscriptions are cancelled and nothing else about any subscription changes, the new one runs, and the plan's units are granted. |
| `CommercialService.ReplayedReserve` | server/billingCommercial.ts:128-137 | Replaying a key, however much later and whatever was locked in between, changes nothing. |
| `CommercialService.ReplayedConsume` | server/billingCommercial.ts:176-177 | Consuming a consumed reservation again, however much later and whatever was locked in between, changes nothing. |
| `CommercialService.ReservedMeans` | server/billingCommercial.ts:138-153 | A reservation takes one unit of an active, unlocked entitlement of the tenant that is in its period and has one left, the first of those to expire, and lasts twenty minutes. |
| `CommercialService.AssessedMeans` | server/intelligenceAssessmentBillingWorker.ts:55-75 | A billed assessment takes such a unit, consumes it at once and records its use. |
| `CommercialService.RefusedMeans` | server/billingCommercial.ts:138-152 | A request with a new key is refused exactly for want of such an entitlement, or because the tenant's investigation has a reservation already. |
| `CommercialService.ReplayAnswers` | server/billingCommercial.ts:128-137 | Replaying a key answers its reservation while it lasts, and is refused afterwards. |
| `CommercialService.LastsTwentyMinutes` | server/billingCommercial.ts:133-176 | Whatever else is done, a reservation that was not consumed is answered to its key and can be consumed until twenty minutes are over, and no longer. |
| `CommercialService.ReserveCommits` | server/billingCommercial.ts:126-155 | Every reservation made, with any locks, is a step of the runs reasoned about. |
| `Migrations.CrashRestart` | scripts/migrate-postgres.ts:168-193 | Any number of interrupted runs and then a full one give the database of one uninterrupted run. |
| `Migrations.AlwaysPrefix` | scripts/migrate-postgres.ts:189-193 | The recorded set is a prefix of the journal after every interrupted run and never shrinks. |
| `Migrations.CommittedExactlyOnce` | scripts/migrate-postgres.ts:71-98 | Every missing migration is committed exactly once, in journal order, and every entry ends up recorded. |
| `Migrations.ConcurrentRestart` | scripts/migrate-postgres.ts:85-88 | A crashed concurrent script restarts to the same committed statements if and only if none had been executed. |
| `ConcurrentScripts.RestartIff` | scripts/migrate-postgres.ts:85-88 | A concurrent script that stopped after any of its statements restarts successfully, to the indexes of one uninterrupted run, if and only if each executed statement that is the first on its index is guarded or was undone. |
| `MigrationRunner.Connection.ApplyMigration` | scripts/migrate-postgres.ts:71-98 | A transactional migration applies as a whole or not at all, even when the commit is not acknowledged; it fails exactly if its record clashes or its queries cannot be made. |
| `MigrationRunner.Connection.AdoptLegacySchema` | scripts/migrate-postgres.ts:109-151 | Adoption succeeds exactly with the flag, a backup, a baseline with tables that all exist, and its queries made; it records the baseline without executing it. |
| `MigrationRunner.Connection.ApplyPending` | scripts/migrate-postgres.ts:189-193 | For any journal the loop gets through exactly if no pending migration clashes and its queries can be made; otherwise a prefix of the pending migrations is applied, or it stops inside one concurrent script. |
| `MigrationRunner.Connection.Run` | scripts/migrate-postgres.ts:153-198 | For any journal a run succeeds if and only if the checks accept the database, no pending migration clashes with a record and all its queries can be made, and then ends in the specified database; any other leaves one an interrupted run can leave, or stops inside a concurrent script. |
| `MigrationRunner.SucceedsIf` | scripts/migrate-postgres.ts:168-193 | A run must succeed if no recorded migration has changed, the database is new, was migrated before or may be adopted, indexes and tags are unique, and there are queries left. |
| `ForensicExport.Verify` | scripts/verify-forensic-export.ts:57-97 | The streaming verifier accepts exactly the grammar and reports the manifest and the event count. |
| `ForensicExport.RemovalDetected` | scripts/verify-forensic-export.ts:75-95 | Removing any set of records from an accepted export is detected: the rest is accepted if and only if nothing was removed; equally, no accepted export has records inserted into another one. |
| `ForensicExport.DeletionDetected` | scripts/verify-forensic-export.ts:90-95 | Deleting any one record is detected. |
| `ForensicExport.InsertionDetected` | scripts/verify-forensic-export.ts:65-92 | Inserting any one record anywhere, duplicates and appended records included, is detected. |
| `ForensicExport.TruncationDetected` | scripts/verify-forensic-export.ts:95-95 | Every proper prefix is rejected. |
| `ForensicExport.ReorderingAcceptedIff` | scripts/verify-forensic-export.ts:75-92 | A reordering is accepted if and only if the manifest stays first and the completion last. |
| `RecordGuard.Guard.Transform` | scripts/verify-forensic-export.ts:36-50 | After any earlier chunks, a chunk passes if and only if every newline-free run so far is within the limit. |
| `RecordGuard.GuardStream` | scripts/verify-forensic-export.ts:33-55 | The verdict on a stream depends on its bytes only, however it is chunked. |
| `CsvExport.CsvRoundTrip` | server/billing.ts:281-282 | Parsing the printed file gives the header and exactly the original rows, whatever characters they hold. |
| `CsvExport.PrintInjective` | server/billing.ts:281-282 | Different rows never print to the same file. |
| `BiometricArchiver.Archiver.GroupByMonth` | server/biometricSessionLogArchiver.ts:64-71 | The groups are exactly the rows of each month, in order, none empty and no row left out. |
| `BiometricArchiver.Archiver.Upload` | server/biometricSessionLogArchiver.ts:73-89 | If no upload has failed the new objects hold each row of the batch exactly once, under its month; every failure blocks deletion. Whatever fails, the new objects are exactly those whose upload took effect, and the report counts exactly those calls. |
| `BiometricArchiver.Archiver.DeleteChunks` | server/biometricSessionLogArchiver.ts:96-113 | Every call carries a chunk of at most 200 ids, and one after the other the chunks sent are the ids, also when some fail; the table is what those calls made of it. |
| `BiometricArchiver.Archiver.ChunksDeleted` | server/biometricSessionLogArchiver.ts:96-113 | Only the given rows disappear, and the reported number never exceeds the number that did. |
| `BiometricArchiver.Archiver.SafeStep` | server/biometricSessionLogArchiver.ts:73-113 | One batch keeps the run safe: what is missing from the table was old and is in cold storage. |
| `BiometricArchiver.Archiver.Archive` | server/biometricSessionLogArchiver.ts:49-124 | In every run deleted rows are from before the cutoff and archived; a run ends only because the process died, because its last query threw, or because fewer old rows than a batch are left; a failure-free run ends and archives exactly the old rows, once each; after any failed upload, in any batch, the table stays as it was and a living run ends if and only if fewer old rows than a batch are left; cold storage gains exactly the objects whose upload took effect, and the report counts exactly the rows of the uploads and deletions that worked or failed. |
| `WarmArchival.RunKeepsBacked` | server/archival.ts:201-221 | However a run ends, marked rows are in a backup file and will never be selected again. |
| `WarmArchival.BatchMeans` | server/archival.ts:126-149 | A batch is of completed, failed, reversed or blocked rows that are from before the cutoff and not archived, and holds all of them unless it is full. |
| `WarmArchival.OnceIffAllMarked` | server/archival.ts:201-221 | Rows stay written exactly once if and only if a run wrote nothing or marked its whole batch. |
| `WarmArchival.WrittenTwice` | server/archival.ts:201-221 | A row written without being marked is written a second time by any later run that selects it and writes. |
| `WarmArchival.Archiver.MarkChunks` | server/archival.ts:211-221 | Every call carries a chunk of at most 1000 ids, and one after the other the chunks sent are the selected ids, also when some fail; the table is what those calls made of it, and without an error all ids are marked. |
| `WarmArchival.Archiver.ArchiveToWarm` | server/archival.ts:111-232 | A run marks rows only after every copy was written, a dry run changes nothing, and a run without errors marks its whole batch. The file is written if and only if the write call is made and takes effect; the whole batch is marked if and only if every call up to the write works and every marking call is made and takes effect; rows stay written exactly once if and only if neither or both happen. The warehouse gains the batch exactly if the insert is made and takes effect. |
| `WarmArchival.NamedNotWritten` | server/archival.ts:202-208 | The input on which a report names a file that was not written: the write call fails without effect. |
| `WarmArchival.BackedUpTwice` | server/archival.ts:201-221 | The input on which a row is written twice: the process dies between the write and the marking, and the job runs again. |
| `WarmArchival.Schedule` | server/archival.ts:111-232 | Over any number of runs, each cut short anywhere, every marked row is in a backup file. |
| `Backfill.CursorMoves` | scripts/backfill-pii-envelopes.ts:60-82 | Moving the cursor to a row found leaves exactly the rows found after it. |
| `Backfill.AfterExact` | scripts/backfill-pii-envelopes.ts:61-67 | A pass finds every row past the cursor once, in id order; of the criminal records only those with a tenant. |
| `Backfill.CrashesAndRerun` | scripts/backfill-pii-envelopes.ts:59-113 | Any number of interrupted runs followed by a complete one leave the store of one complete run. |
| `Backfill.ExactlyOneActive` | scripts/backfill-pii-envelopes.ts:28-38 | After a complete run a subject has exactly one active envelope for every purpose with a payload, and nothing stored before is lost. |
| `Backfill.NewEnvelope` | scripts/backfill-pii-envelopes.ts:19-38 | An envelope stored by a run is some subject's for some purpose, and its payload has a name with a value exactly if the field is listed and neither null nor empty. |
| `Backfill.NormalizeConcat` | scripts/backfill-pii-envelopes.ts:22-26 | Normalization works character by character. |
| `Backfill.NormalizeOne` | scripts/backfill-pii-envelopes.ts:22-26 | Letters become upper case, digits and four signs stay, everything else goes. |
| `Backfill.IndexedOnce` | scripts/backfill-pii-envelopes.ts:41-53 | After a complete run an attribute is indexed under its subject or under another one with the same value, and no value is indexed twice. |
| `Backfill.FoundIff` | scripts/backfill-pii-envelopes.ts:41-53 | After a complete run a subject can be found by its own attribute if and only if it was indexed before, or nothing stored is in the way and no earlier subject with nothing in its way has the value. |
| `Backfill.AllFoundIff` | scripts/backfill-pii-envelopes.ts:41-53 | Everybody can be found by every attribute with a value if and only if no two subjects of a tenant share one and nothing stored is in the way. |
| `Backfill.SecondNotFound` | scripts/backfill-pii-envelopes.ts:47-53 | The input on which somebody cannot: two subjects of a tenant with one nin. |
| `Backfill.WorkIdentified` | scripts/backfill-pii-envelopes.ts:60-104 | A run finds no subject twice, so both hold of every run. |
| `Backfill.InsertAllAdds` | scripts/backfill-pii-envelopes.ts:28-53 | Every new row is one that some subject asked for. |
| `Backfill.Script.FillSubject` | scripts/backfill-pii-envelopes.ts:71-80 | One subject's transaction stores all of its envelopes and blind indexes or none. |
| `Backfill.Script.Pass` | scripts/backfill-pii-envelopes.ts:60-83 | A pass completes subjects in the order found and, unless a call fails, stops early only at an invalid tenant. |
| `Backfill.Script.Run` | scripts/backfill-pii-envelopes.ts:55-113 | Unless a call fails the script succeeds if and only if every subject found has a valid tenant; otherwise it leaves an interrupted store. |
| `StatusTables.HistoriesArePaths` | server/banking.ts:137-159 | Under any interleaving every status history, of deleted rows too, is a path in the transition table, and rows are deleted only in deletable statuses. |
| `StatusTables.Service.Read` | server/banking.ts:141-153 | The read lets exactly the legal requests for existing rows go on, and keeps the invariant. |
| `StatusTables.Service.Commit` | server/banking.ts:154-158 | An update answers with a row exactly if the row still has the status that was read, and then the row has the target as its status and at the end of its history; a delete removes the row on that condition, but always answers success; otherwise nothing changes. |
| `StatusTables.Service.Update` | server/banking.ts:137-159 | A whole update that nothing disturbs succeeds exactly for an existing row and a legal target. |
| `StatusTables.Service.Delete` | server/banking.ts:625-637 | A whole delete that nothing disturbs succeeds exactly for an existing row in a deletable status. |
| `StatusTables.CommitOutcome` | server/banking.ts:614-637 | What a guarded write does and answers, in every state. |
| `StatusTables.OccursIff` | server/banking.ts:137-159 | The histories rows have in the runs are exactly the paths of the transition table: no other happens, and each does. |
| `StatusTables.OccursDeletedIff` | server/banking.ts:625-637 | The histories of deleted rows are exactly the paths that end in a deletable status. |
| `BankingStatus.PaidPassedEveryStage` | server/banking.ts:144-157 | A paid letter of credit was issued, advised, presented and accepted, in that order. |
| `BankingStatus.LcReachedIff` | server/banking.ts:144-150 | Some run brings a letter of credit into a status if and only if it is not amended: letters get paid, and none is ever amended. |
| `BankingStatus.LcMoves` | server/banking.ts:144-150 | In the runs letters are cancelled until presented, expire once issued until presented, are presented once advised or confirmed or again after a discrepancy, and are rejected from presentation until paid. |
| `BankingStatus.RetainedWhileFiled` | server/banking.ts:624-637 | No report is deleted while submitted or acknowledged, and none that was ever acknowledged. |
| `BankingStatus.SubmittedThenRejected` | server/banking.ts:597-613 | A deleted report that was submitted had been rejected right after that submission. |
| `BankingStatus.ReportDeletedIff` | server/banking.ts:632-635 | Every status of a report is reached, and a report in it can be deleted if and only if it is neither submitted nor acknowledged. |
| `BankingStatus.ReportMoves` | server/banking.ts:597-600 | In the runs only a rejected report starts over and only a submitted one is decided on. |
| `BankingStatus.DeleteAnsweredNotDone` | server/banking.ts:635-636 | The input on which a delete answers success without deleting: the report moves on between the check and the guarded delete. |
| `Custody.StatusIsLastEntry` | server/banking.ts:432-448 | In every interleaving an item's status is the action of its last custody entry. |
| `Custody.CommitOutcome` | server/banking.ts:441-449 | A transfer answers with the item exactly if the item still has the status that was read, and then has the target status and the chain that was read with one more entry; otherwise nothing changes. |
| `Custody.Undisturbed` | server/banking.ts:432-449 | A transfer with none in between its read and its commit succeeds and keeps the chain. |
| `Custody.ChainKeptIffUnchanged` | server/banking.ts:432-448 | A committed transfer keeps the chain it found if and only if nothing was committed since its read. |
| `Custody.EntryLost` | server/banking.ts:440-447 | A run of two concurrent transfers in which a committed entry is missing from the chain. |
| `Custody.Desk.CommitTransfer` | server/banking.ts:441-449 | The guarded update answers and changes the item exactly so, and keeps the invariant. |

## Left out

- HTTP, circuit breakers, JSON and schema parsing, hashing, encryption, row-level security and SQL text: remote calls are given an outcome, and rows and records are taken as parsed.
- Two-phase transfers and pending debits: nothing in the modelled files creates one, so pending debits are zero in the balance. Account creation is left out too; only its failure is kept.
- The choice of due webhooks (`processDuePaystackWebhooks`): any stored event may be processed at any time and by any number of workers, which includes every choice that function makes.
- Malformed webhook bodies: an event reaches the model only after its type and reference were read from it.
- Self-service subscriptions (`server/selfServiceBilling.ts`), plan editing and refunds, which would add single-update members.
- Migration files: splitting a script into statements, sorting the journal and finding the tables a baseline creates are inputs of the model.
- Migrations.ConcurrentRestart: compares the texts of committed statements; whether repeating them succeeds is ConcurrentScripts.RestartIff. A statement takes effect or not; an invalid index left by an interrupted concurrent build is not modelled.
- PrepaidService.Service.SettlePayment: one call that nothing disturbs; calls that interleave, meet faults or crash are the steps of PrepaidLedger.
- Migrations.CommittedExactlyOnce: counts committed statements through the statement log and takes tables to be created only; DROP TABLE is not modelled.
- CSV export: the row filter and the formatting of numbers, dates and tiers; the model starts from the rows of strings.
- BiometricArchiver: rows inserted by other processes during a run are not modelled (they are newer than the cutoff), and neither are object names or the "database unavailable" answer.
- WarmArchival: status changes of a transaction between selection and marking, and cold archival, which runs outside this process, are not modelled.
- Backfill: the ciphertext, and changes to the legacy tables or retirements of envelopes during a run are not modelled; a row stands for its cleartext. Letters outside ASCII are not upper-cased.
- Custody: tenant filters, notes and the integrity check; an entry is identified by the call that wrote it.
- Tenant filters of the status handlers, which only narrow which rows are found.
- Everything that is ordinary row editing, notification, scoring or scheduling elsewhere in the repository.
