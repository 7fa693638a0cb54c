# Software factory control state: model and proofs

The factory runs coding work in *Cells*, submits it to a scheduler, pays for model calls, hands credentials to
sandboxes, merges contributors' patches and keeps evidence. This project models the state that decides what may happen
there, and proves what that state guarantees through interleavings, crashes and retries. Objects whose methods update
state are classes; each method is proved against a function on values (its transaction), and the invariants and
theorems are about those functions and the runs they make up.

| file | models |
|---|---|
| `Cells.dfy` | the Cell store: epochs, activations, fenced and uniquely keyed events (`cells.py`) |
| `CredentialLease.dfy` | the credential broker's transactions (`credential_lease.py`) |
| `FenceProtocol.dfy` | both together: half-finished mints and redeems against epoch advances and their callback |
| `FenceLimits.dfy` | how far that fence reaches, stated exactly |
| `Dispatch.dfy` | the durable delivery inbox: enqueue, claim, complete, fail, retry (`dispatch.py`) |
| `DispatchRuns.dfy` | any number of workers on that inbox, with crashes, expiry, redelivery and operator retry |
| `Admission.dfy` | the priority queue and its drain loop under four limits (`admission.py`) |
| `CallLedger.dfy`, `SpendRuns.dfy` | the spend journal, its fold, and a provider that bills (`call_accounting.py`) |
| `CallObservations.dfy` | importing call observations: archive, then ledger row, with replay (`call_observations.py`) |
| `Fusion.dfy` | merging contributors' tree edits and the evidence ledger beside them (`campaign_fusion.py`) |
| `OperationJournal.dfy` | one call of the journal of external operations, with a crash point at each transaction (`idempotency.py`) |
| `JournalRuns.dfy` | one key of that journal under any number of callers at once, every transaction a step of its own |
| `JournalAlone.dfy` | the call in one piece is a path of those steps |
| `CoreCapabilities.dfy` | activation, binding and external effects over three stores (`core_capabilities.py`) |
| `Boat.dfy` | hosted VMs: create, reconnect, close, fork, reap, poll (`boat.py`) |
| `Approvals.dfy` | accepted inputs, gate answers, recording and re-checking (`accepted_inputs.py`, `approval_policy.py`) |
| `AdaptiveBudget.dfy`, `AdaptiveLanes.dfy` | measuring lanes, their values and counts, and the next budget (`adaptive_information.py`) |
| `Retention.dfy` | retention leases, pins and the sweep, one call at a time and in processes side by side (`candidate_retention.py`) |
| `Paging.dfy`, `Closure.dfy`, `SnapshotDiff.dfy` | paged reads, job closure, snapshot diff |
| `Prelude.dfy` | options and results, runs and invariants, sequences as multisets, blank text |

## How the model is set up

- A SQLite `with self.db` block is one atomic step; one that raises changes nothing.
- Hashes and digests are injective, so a digest stands for what it was computed from. Lease tokens, lease ids, bearers
  and call ids are fresh. Case folding is any map of characters to strings in `Approvals.dfy`, and lowers the ASCII
  letters in `Dispatch.dfy`.
- Time is chosen by the environment; nothing assumes that it runs forward except where a lemma says so.
- Money is counted in micro-dollars (the code rounds to six places). Budgets are computed over the reals.
- Provider answers, HTTP outcomes and crash points are parameters over which every theorem quantifies.
- For the credential theorem the callback is `revoke_epoch` and the epoch reader is `CellStore.get`, as wired in
  `src/swfactory/backend/service.py:239-247`; a read of the epoch waits for a running `activate`,
  `take_epoch` or ending patch.
- `heapq` is used through its contract: its list may be in any order, and a pop removes the smallest item.

## Where the code and its words differ

- `src/swfactory/cells.py:185-187` says a take-over never returns while a prior lease remains live. It can return beside
  one exactly when a mint for that Cell and epoch has passed its epoch check and not yet inserted its lease when the
  take-over begins (`FenceLimits.TakeOverLeavesALeaseExactlyWhenAMintIsUnderWay`; a run that does so is
  `FenceProtocol.TakeOverCanReturnBesideALiveLease`). No redeem can use such a lease.
- `src/swfactory/cells.py:328-331` says that ending a Cell revokes its epoch's credential authority and that raw
  credential leases do not remain available. The patch returns with none of them live, provided no mint was under way
  (`FenceLimits.EndingPatchWithdraws`). But an ended Cell keeps its epoch, and a credential can be drawn exactly while
  the epoch is current, whatever the lifecycle state (`FenceLimits.CredentialsFollowTheEpochAlone`,
  `ACancelledCellCanStillDrawACredential`).
- `src/swfactory/idempotency.py:392-398` promises one provider effect across processes, and reconciliation before any
  retry. Two callers that both found no row can both take effect without a look (`JournalRuns.TwoFirstCallersCanBothTakeEffect`),
  and so can a claim that outlives its lease and the caller after it (`JournalRuns.ASlowCallCanBeDoubled`).
  `JournalRuns.SecondEffectExactlyAfterOverlap` says exactly when: at a claim made while another caller is past its look
  and can still claim, or at an absence observed while another caller's provider call is still to come.
  `JournalRuns.NoOverlapNoSecondEffect` is the promise for all runs without that.
- `src/swfactory/candidate_retention.py:3-5` says pinned bundles remain retained. Nothing orders the calls of several
  processes: a sweep that read the lease before a pin removes the pinned object (`Retention.PinnedEvidenceCanBeSwept`).
  `Retention.GrantsAreBrokenExactlyWhenUnsafe` says exactly which pins and retentions can be broken, by what is in
  progress when they are granted.
- `src/swfactory/accepted_inputs.py:523-525` says every gate must be answered again after a re-acceptance. Approvals
  are void exactly when the inputs admitted next differ (`Approvals.ReopeningVoidsOnlyChangedInputs`; a case where they
  do not is `Approvals.UnchangedInputsKeepTheirApproval`).
- `src/swfactory/control.py:453-459` describes `truncated` as a walk that gave up on unread rows. A server that reports
  no total is also marked when its last row is on the last page allowed: `Paging.Paged` states exactly when, and
  `Paging.ACompleteWalkCanBeMarked` shows it happen.
- `src/swfactory/adaptive_information.py:596-634` and `:133-134`: without a manifest, a report of no task at all asks for
  one task and its decision is then refused as a widening, and only then (`AdaptiveBudget.EvaluateReport`,
  `AdaptiveBudget.AnEmptyReportIsRefused`).
- `src/swfactory/boat.py:286-297`: with a polling interval of zero the timeout never passes, and polling ends exactly if
  some observation is final (`Boat.PollingEndsExactlyThen`).

## Model

| member | source | states |
|---|---|---|
| Cells.LogIsFencedInEveryRun | src/swfactory/cells.py:270-380 | In every state of every interleaving of store connections a Cell's event epochs never fall and never exceed its current epoch, its operation keys are unique, and its committed activations have strictly increasing epochs |
| Cells.EveryEventHadAuthority | src/swfactory/cells.py:351-380 | Every event of the log was appended by a step in whose result its epoch was the Cell's current one |
| Cells.HistoryOnlyGrows | src/swfactory/cells.py:166-380 | Between any two moments no epoch falls and nothing logged changes |
| Cells.TransactKeepsLog | src/swfactory/cells.py:157-380 | Each single transaction keeps the log fenced and appends at most events of the epoch it leaves current |
| Cells.ActivationIsNew | src/swfactory/cells.py:166-207 | A committed activation puts a key into the log that was not there, at the Cell's new epoch, and leaves it dispatching |
| Cells.ActivatedExactlyWhenStartable | src/swfactory/cells.py:166-207 | A Cell is busy exactly when it is neither new, unused nor ended; otherwise only an event under the activation's own key refuses it. The Cell then stands at the next epoch, dispatching, without run, policy, compute and cleanup, and every other column and Cell is as before |
| Cells.TakenOverExactlyWhenCurrent | src/swfactory/cells.py:270-292 | A take-over succeeds exactly at the current epoch, moves it by one, drops the policy and leaves the rest of the Cell |
| Cells.PatchedExactlyWhenCurrent | src/swfactory/cells.py:294-344 | A patch succeeds exactly at the current epoch under an unused key, sets every column it names and no other |
| Cells.EnrolmentIsOnceAndForAll | src/swfactory/cells.py:157-223 | Enrolling twice is enrolling once, touches no other Cell and no event, and makes no difference to a later activation; a new identity's first activation succeeds at epoch 1 |
| Cells.CellStore.AppendEvent | src/swfactory/cells.py:351-380 | The event is added only at the current epoch and under an unused key; which of the two failed is reported |
| Cells.CellStore.ActivateCell | src/swfactory/cells.py:166-207 | The whole effect of an activation, rolled back on refusal, and exactly which revocation callback is made before it |
| Cells.CellStore.TakeCellEpoch | src/swfactory/cells.py:270-292 | The whole effect of a take-over; the callback for the expected epoch is made even when the take-over is refused |
| Cells.CellStore.PatchCell | src/swfactory/cells.py:294-344 | The whole effect of a patch on every column it may set, and the callback made when the patch ends the Cell |
| CredentialLease.CredentialOnlyForALiveLease | src/swfactory/credential_lease.py:247-303 | A credential comes out if and only if binding and nonce are well formed, the lease exists, bearer and binding match, it is neither revoked nor expired, the epoch is current, it is unbound or bound to this process, and its provider has a credential; and it is the credential of the lease's own capability |
| CredentialLease.EveryRefusalNamesTheFirstFault | src/swfactory/credential_lease.py:247-303 | Each other answer, and exactly when it is given, in terms of the lease, the binding, the epoch and the time |
| CredentialLease.MintedLeaseRedeems | src/swfactory/credential_lease.py:194-303 | From mint to credential: until it expires a minted lease gives its capability's credential to the first process that redeems it, and again; to no other process, and to nobody once it expired or was revoked |
| CredentialLease.MintableExactlyWhen | src/swfactory/credential_lease.py:194-215 | What may be minted: a named capability with a provider, for a bounded purpose and time, under a well-formed binding to the current epoch |
| CredentialLease.WellFormedExactlyWhen | src/swfactory/credential_lease.py:49-70 | A binding is well formed exactly if every part of it says something in at most 512 characters, epoch and attempt count from 1 within 64 bits, and it names a policy |
| CredentialLease.RedeemLeavesBehind | src/swfactory/credential_lease.py:247-303 | A credential binds exactly this lease to this process; a denial is recorded, and only a missing provider leaves the process bound; a missing credential rolls everything back; no other lease changes |
| CredentialLease.RevocationIsExact | src/swfactory/credential_lease.py:305-349 | A revocation gives its reason to whatever is live inside its scope, changes nothing else of it and nothing outside, and never undoes an earlier one |
| CredentialLease.WhatEachRevocationWithdraws | src/swfactory/credential_lease.py:305-339 | Of the live leases, one call withdraws exactly the named one, one exactly those of a Cell's epoch, one exactly those of earlier attempts at it |
| CredentialLease.CredentialLeaseBroker.Mint | src/swfactory/credential_lease.py:194-245 | Each check of a mint in its order, the binding's format first, and the one lease a successful mint inserts |
| CredentialLease.CredentialLeaseBroker.Redeem | src/swfactory/credential_lease.py:247-303 | The locked body, branch by branch, is the transaction the theorems are about |
| CredentialLease.DenialIsOnlyAudit | src/swfactory/credential_lease.py:373-407 | A denial adds one entry naming lease and reason, and every later redeem is answered as if it had not been recorded |
| CredentialLease.CredentialLeaseBroker.Revoke | src/swfactory/credential_lease.py:305-349 | Revokes exactly the live leases in scope and returns how many they were |
| FenceProtocol.NoCredentialForASupersededEpoch | src/swfactory/credential_lease.py:194-349 | In every interleaving, a redeem body that hands out a credential does so for the epoch then committed, and not for one whose withdrawal has been announced |
| FenceProtocol.EveryGrantWasCurrent | src/swfactory/credential_lease.py:247-303 | Every credential ever handed out was for the epoch committed at that time, and all credentials of one lease went to one process and one binding |
| FenceProtocol.NoLeaseForAFutureEpoch | src/swfactory/credential_lease.py:194-245 | In every interleaving each lease is for an epoch its Cell has reached |
| FenceLimits.TakeOverLeavesALeaseExactlyWhenAMintIsUnderWay | src/swfactory/cells.py:166-344 | From any state, an activation, a take-over or an ending patch that commits can return beside a live lease of the epoch it withdraws if and only if a mint for that Cell and epoch has passed its epoch check and not inserted its lease when it begins |
| FenceLimits.NoMintNoLease | src/swfactory/cells.py:166-292 | Without such a mint every advance, however it interleaves, returns with no live lease of the epoch it withdrew |
| FenceLimits.EndingPatchWithdraws | src/swfactory/cells.py:315-344 | A patch that ends its Cell, with its callback and its commit apart and anything in between, returns with no live lease of the Cell's epoch, provided no mint was under way |
| FenceLimits.CredentialsFollowTheEpochAlone | src/swfactory/credential_lease.py:194-303 | In every reachable state with no advance running, a credential can be minted and redeemed for a well-formed binding if and only if its epoch is the Cell's current one, whatever the Cell's lifecycle state |
| FenceLimits.ACancelledCellCanStillDrawACredential | src/swfactory/cells.py:326-333 | A run in which a Cell is cancelled and a credential is then handed out for it |
| FenceProtocol.OnlyLateLeasesOutliveTheCallback | src/swfactory/cells.py:182-190 | While an advance is between its callback and its commit, every live lease of the epoch it withdraws was inserted after the callback |
| FenceProtocol.TakeOverCanReturnBesideALiveLease | src/swfactory/cells.py:182-192 | A concrete run in which a take-over returns beside a live lease of the epoch it withdrew |
| FenceProtocol.OnlyTheSupersededEpochRises | src/swfactory/cells.py:166-292 | An advance raises only the epoch it withdraws, by one; no other transaction raises any |
| FenceProtocol.StepKeepsInv | src/swfactory/credential_lease.py:194-349 | Every step of a mint, redeem, revocation or advance keeps the invariant over half-finished redeems |
| Dispatch.RunIdsAreDistinct | src/swfactory/dispatch.py:174-226 | One run id belongs to one delivery id and one repository, letter by letter up to case: different deliveries never share one |
| Dispatch.ContentDigestSeparates | src/swfactory/dispatch.py:174-226 | The content digest separates deliveries of different event or payload, so a conflict is noticed exactly when content differs |
| Dispatch.RetryDelayBounds | src/swfactory/dispatch.py:278-301 | Every failure waits between 5 and 3600 seconds, respects a Retry-After of up to an hour, and waits at most 360 seconds without one |
| Dispatch.RetryDelayDoubles | src/swfactory/dispatch.py:278-292 | The delays double from five seconds up to five minutes, each with a fifth more at most, and never shrink from one attempt to the next |
| Dispatch.EnqueueAnswers | src/swfactory/dispatch.py:174-226 | An invalid id, a full inbox, a duplicate and a conflict are refused exactly as such; a new delivery keeps what was sent and can be handed out at once |
| Dispatch.RedeliveryIsRecognised | src/swfactory/dispatch.py:174-226 | A delivery sent again is the stored duplicate exactly if event, body and repository are the same, and a conflict otherwise |
| Dispatch.ClaimLeasesTheFirstReadyRow | src/swfactory/dispatch.py:228-257 | A claim leases a row exactly when one is ready: below its attempt limit, and pending past its delay or dispatching past its lease. It leases the first of these, buries the spent ones, and touches no other |
| Dispatch.EveryReadyRowIsHandedOut | src/swfactory/dispatch.py:228-257 | As many claims as there are ready rows hand out every one of them |
| Dispatch.FailureWaitsItsDelay | src/swfactory/dispatch.py:278-301 | A failure of the lease's holder that may be tried again is ready exactly from its delay on; any other is dead |
| Dispatch.CompletionIsFinal | src/swfactory/dispatch.py:259-276 | A completion by the lease's holder keeps the work order and admission it was given, and the delivery is never handed out again |
| Dispatch.RetryBringsBack | src/swfactory/dispatch.py:303-318 | A dead delivery, and only a dead one, is brought back with all its attempts, ready at once, under the same run id |
| Dispatch.DeliveryInbox.Enqueue | src/swfactory/dispatch.py:174-226 | A new delivery, the stored duplicate, a conflict or a full inbox, and the whole table afterwards |
| Dispatch.DeliveryInbox.Claim | src/swfactory/dispatch.py:228-257 | A row is handed out exactly when one is ready, and it was ready; exhausted rows are buried, and the first due row in order, and no other, is leased under the drawn token |
| Dispatch.DeliveryInbox.Complete | src/swfactory/dispatch.py:259-276 | Only the holder of the lease finishes the row; anyone else changes nothing |
| Dispatch.DeliveryInbox.Fail | src/swfactory/dispatch.py:278-301 | Only the holder of the lease sends the row back or buries it, with the delay until its next attempt |
| Dispatch.DeliveryInbox.Retry | src/swfactory/dispatch.py:303-318 | Only a dead delivery is revived, with its attempts reset |
| Dispatch.BeforeChains | src/swfactory/dispatch.py:228-257 | The claim order is transitive, so the row the scan keeps is the first of all due rows |
| DispatchRuns.SubmissionsCarryTheFixedRunId | src/swfactory/dispatch.py:433-495 | For any workers, crashes, expiries and retries: every submission carries the run id fixed at enqueue, no two deliveries share one, and every dispatched row's run id was accepted by the far side |
| DispatchRuns.ClaimsAreCountedAndBounded | src/swfactory/dispatch.py:228-318 | The claims of a delivery are exactly its total attempts and at most the maximum times one plus its operator retries |
| DispatchRuns.NothingLastingIsUndone | src/swfactory/dispatch.py:174-318 | Identity fields never change, dispatched is never left, a lost lease is never regained, and the open rows never exceed the inbox limit |
| DispatchRuns.StaleWorkersAreFenced | src/swfactory/dispatch.py:259-301 | A row has a token exactly while it is dispatching, and a worker whose token it no longer carries changes nothing by completing or failing |
| DispatchRuns.ReadyWorkIsHandedOut | src/swfactory/dispatch.py:228-257 | At any point of a run a claim made while a row is ready leases a ready row, and the claiming worker holds it under its token |
| DispatchRuns.ACrashedWorkersDeliveryIsTakenAgain | src/swfactory/dispatch.py:228-257 | After a worker's crash its row is ready from the end of the lease on: the next claim leases some row, and as many claims as there are ready rows lease this one |
| DispatchRuns.HeldWorkCanBeDispatched | src/swfactory/dispatch.py:433-495 | A worker that holds its lease can submit and complete: the row then says dispatched, and its run is accepted |
| DispatchRuns.StepKeepsInv | src/swfactory/dispatch.py:174-495 | Every inbox transaction and every worker step keeps the invariant over rows, workers and past submissions |
| Admission.GreedyKeepsLimits | src/swfactory/admission.py:73-107 | A pass over the queue never exceeds the global, repository, actor or blueprint limit |
| Admission.GreedyLeavesNothingThatFits | src/swfactory/admission.py:73-107 | After a pass no item left in the queue has capacity |
| Admission.GreedyConserves | src/swfactory/admission.py:73-85 | The admitted and the remaining items are together exactly the queue, and the active set grows by the admitted ones |
| Admission.GreedyNeverOvertakes | src/swfactory/admission.py:73-85 | A pass never admits an item while an earlier one of the same repository, actor and blueprint stays behind |
| Admission.QueuePositionIsExact | src/swfactory/admission.py:56-67 | A queued submission is told its exact place: everything before it is smaller, everything after it larger, and nothing else changed |
| Admission.SubmitAnswers | src/swfactory/admission.py:56-67 | Which of the four answers a submission gets, exactly, and what it changes |
| Admission.OrderOfUrgency | src/swfactory/admission.py:11-36 | Hotfixes go before manual, normal and background work in this order, and within one priority the earlier submission |
| Admission.CapacityIsRoomUnderEveryLimit | src/swfactory/admission.py:100-107 | There is capacity exactly while the active work as a whole, of the repository, of the actor and of the blueprint are below their limits |
| Admission.SubmitKeepsInv | src/swfactory/admission.py:56-67 | After a submit all four limits hold, ids are unique and no queued item has capacity |
| Admission.CompleteKeepsInv | src/swfactory/admission.py:69-85 | After a completion, and the drain inside it, the same holds |
| Admission.CompletionFreesItsPlace | src/swfactory/admission.py:69-85 | After a completion the completed work is not active, all other active work is, and beside it exactly the items reported, which come from the queue; completing what was not active changes nothing |
| Admission.CompletionAdmitsTheFirstThatFits | src/swfactory/admission.py:69-85 | The first waiting item for which the completion makes room is the first one admitted |
| Admission.EveryWaitingItemIsAdmitted | src/swfactory/admission.py:56-107 | Once all work there was has completed, in whatever order, every item that waited has been admitted |
| Admission.SomethingCanComplete | src/swfactory/admission.py:56-107 | With positive limits, whenever something is left something is active: waiting work never blocks itself |
| Admission.AdmissionIsFairInEveryRun | src/swfactory/admission.py:56-107 | In every run of submits, completions and drains: limits, unique ids, at least one limit reached for every waiting item, and never an admission past a waiting item of the same kind with smaller priority and sequence |
| Admission.StepNeverOvertakes | src/swfactory/admission.py:56-107 | One operation, by submit or drain, admits nothing past a waiting item of the same kind that comes first |
| Admission.AdmissionController.SubmitWork | src/swfactory/admission.py:56-67 | The heap's submit is the submit on the sorted queue, with the same answer |
| Admission.AdmissionController.HeapPop | src/swfactory/admission.py:73-85 | The item taken is the head of the sorted queue and the rest stays; nothing left behind is more urgent, or equally urgent and earlier |
| Admission.AdmissionController.DrainQueue | src/swfactory/admission.py:73-85 | The pop, defer and early-exit loop admits exactly what the greedy pass over the sorted queue admits, and keeps the rest |
| Admission.AdmissionController.CompleteWork | src/swfactory/admission.py:69-71 | The method is the completion that frees the item's place and drains |
| CallLedger.ChargedAfter | src/swfactory/call_accounting.py:202-233 | One more row changes the total charge by the change of its own call's charge and by nothing else |
| CallLedger.OnlySettlementLowersTheCharge | src/swfactory/call_accounting.py:202-233 | The total falls only on a row that settles a call for less, or that withdraws an earlier settlement above the reservation |
| CallLedger.ReconcileSettlesOnlyOnProof | src/swfactory/call_accounting.py:176-199 | A reconciliation settles exactly on proof of absence, at zero, or on a charge, at the first number that is not negative, the result's before the evidence's; it refuses exactly unknown and settled calls and charges without a number; otherwise the total stays |
| CallLedger.RecordFollowsTheLastRow | src/swfactory/call_accounting.py:202-223 | A call's record has the state, reservation and cost of its last row, and its last receipt and observation |
| CallLedger.FloorIsAdoptedOnce | src/swfactory/call_accounting.py:235-264 | The first adopted floor stays the floor whatever is appended later |
| CallLedger.Ledger.Reserve | src/swfactory/call_accounting.py:113-139 | Appends exactly the reservation row, or refuses a negative one |
| CallLedger.Ledger.Settle | src/swfactory/call_accounting.py:141-152 | Appends exactly the settlement row, or refuses a negative cost |
| CallLedger.UnknownKeepsTheReservationCharged | src/swfactory/call_accounting.py:154-174 | An unknown outcome leaves the total of an open call's ledger as it was, and puts a settled call back to its whole reservation |
| CallLedger.Ledger.MarkUnknown | src/swfactory/call_accounting.py:154-174 | The row is appended, and if the call is open the total charge does not change |
| CallLedger.Ledger.Records | src/swfactory/call_accounting.py:202-223 | The loop computes the fold: one record per call, latest row last, earlier receipts and observations carried on |
| CallLedger.Ledger.ChargedUsd | src/swfactory/call_accounting.py:231-233 | The sum of all charges of the fold |
| CallLedger.Ledger.FloorUsd | src/swfactory/call_accounting.py:259-264 | The first floor row, if there is one |
| CallLedger.Ledger.AdoptFloor | src/swfactory/call_accounting.py:235-257 | Writes a floor only if there is none and returns the one that holds |
| CallLedger.Ledger.Reconcile | src/swfactory/call_accounting.py:176-199 | Appends exactly the reconciliation row, or refuses without writing, and returns the call's new record |
| SpendRuns.NeverUnderCharged | src/swfactory/call_accounting.py:113-233 | At every moment, so after any crash, the journal charges at least what the provider has billed, if no call bills above its reservation |
| SpendRuns.ExactOnceEverythingIsSettled | src/swfactory/call_accounting.py:141-233 | Once every call is settled the charge equals the bill |
| SpendRuns.ChargeFallsOnlyBySettling | src/swfactory/call_accounting.py:113-233 | A step that lowers the charge appended one row, and that row settles a call |
| SpendRuns.EveryReservationCanBeSettled | src/swfactory/call_accounting.py:113-233 | From every moment of a run some continuation settles every open call, and then the charge is the bill |
| CallObservations.Importer.ReconcileCall | src/swfactory/call_observations.py:261-343 | The import's checks, its archive write and its ledger row, with replay of an archived file |
| CallObservations.ImportSettlesOnce | src/swfactory/call_observations.py:261-343 | For any order of imports, repeats and crashes: a settled call keeps one final file's value for ever, importing that file again answers it, and importing any other file is refused |
| CallObservations.ReplayAnswers | src/swfactory/call_observations.py:261-343 | A repeated import of the settling file answers the settled value and appends nothing |
| CallObservations.RepeatedImportCompletes | src/swfactory/call_observations.py:300-343 | After a crash between archive and ledger, repeating the import settles with the archived evidence |
| CallObservations.ImportGoesThroughExactlyWhen | src/swfactory/call_observations.py:261-343 | An import goes through if and only if the call is recorded and not settled, the file matches it, and a final file observes it at or after its cleanup; each refusal for time says exactly that, the archive never conflicts, and a settled call answers exactly its own file |
| CallObservations.DocumentsThatCount | src/swfactory/call_observations.py:113-124 | A final document states a charge or an absence; one that cannot tell is not final and states nothing |
| CallObservations.ImportShape | src/swfactory/call_observations.py:261-343 | An import writes at most one archive entry, never changing an old one, and at most one ledger row, of an unsettled call, whose cost is the file's final value, observed after the call's cleanup |
| Fusion.Changes | src/swfactory/campaign_fusion.py:157-174 | Succeeds exactly for 1 to 512 canonical, regular records, and then lists exactly the paths on which base and output differ, each with the output's entry; otherwise reports the refusal of the first bad record |
| Fusion.ParsedIsDiff | src/swfactory/campaign_fusion.py:157-169 | Reading what git prints for two trees gives the difference of the trees: removals, additions and changes of mode or content |
| Fusion.ReadableExactlyWhen | src/swfactory/campaign_fusion.py:157-174 | Records can be read exactly if there are 1 to 512, on canonical paths, of regular files on both sides |
| Fusion.OverlapIsAncestry | src/swfactory/campaign_fusion.py:203-204 | Two paths overlap exactly if they are equal or one is a directory on the way to the other |
| Fusion.MergeContributor | src/swfactory/campaign_fusion.py:199-205 | One contributor's changes are taken exactly when none is protected or overlaps anything taken before or among them |
| Fusion.Merge | src/swfactory/campaign_fusion.py:194-213 | Contributor by contributor: succeeds if and only if all records can be read, no path is protected and no two changes overlap; it then holds each change once, and otherwise reports the refusal of the first contributor that is refused |
| Fusion.AcceptableIsCompatible | src/swfactory/campaign_fusion.py:194-205 | Changes that pass are of outputs that change no protected path and meet nowhere |
| Fusion.CompatibleIsAcceptable | src/swfactory/campaign_fusion.py:194-205 | The changes of outputs that change no protected path and meet nowhere pass |
| Fusion.PartIsWellFormed | src/swfactory/campaign_fusion.py:214-221 | After any part of an accepted fusion has been applied no file is an ancestor of another, so git's replacement of files and directories never strikes |
| Fusion.FusedTreeIsEveryContributorsOutput | src/swfactory/campaign_fusion.py:194-221 | The written tree equals each contributor's output on its changed paths and the base elsewhere, is well formed, and changes no protected path |
| Fusion.RecordsAreTheChanges | src/swfactory/campaign_fusion.py:217-220 | The records given to the index are a permutation of all changes |
| Fusion.WriteIndex | src/swfactory/campaign_fusion.py:214-221 | The index after all records, in the order they are given |
| Fusion.Propose | src/swfactory/campaign_fusion.py:157-221 | From what git prints to the tree: one comes out if and only if all records can be read and the outputs meet nowhere and change no protected path; it is every output where that output changed, and the base elsewhere |
| Fusion.VerdictAndEditsIgnoreTheOrder | src/swfactory/campaign_fusion.py:194-221 | Every order of the contributors gives the same verdict and the same edits |
| Fusion.TreeIgnoresTheOrder | src/swfactory/campaign_fusion.py:214-221 | Every order of the contributors, with its edits written in whatever order, gives the same tree |
| Fusion.BuildLedger | src/swfactory/campaign_fusion.py:111-133 | Succeeds exactly when all subjects are known and no evidence id has two payloads; each id then has its one payload and exactly its producers |
| Fusion.LedgerIgnoresTheOrder | src/swfactory/campaign_fusion.py:111-133 | Order and repetition of observations change neither verdict nor ledger |
| JournalRuns.SecondEffectExactlyAfterOverlap | src/swfactory/idempotency.py:225-466 | For any number of callers of a key and truthful absences, from any state in which nothing is endangered: after a step some continuation leads to a second effect if and only if the step is a claim made while another caller is past its look and can still claim, or an absence observed while another caller's provider call is still to come |
| JournalRuns.NoOverlapNoSecondEffect | src/swfactory/idempotency.py:225-466 | In every run of any number of callers without such a step the key takes effect at most once |
| JournalRuns.DangerArisesExactlyByOverlap | src/swfactory/idempotency.py:225-466 | A caller's look is overtaken, or can be, exactly from such a step on |
| JournalRuns.CallsAreCovered | src/swfactory/idempotency.py:225-287 | However callers interleave, the provider is called at most as often as the budget allows, and at most once for every absence observed and every claim by a caller that found no row |
| JournalRuns.CallsFollowAbsences | src/swfactory/idempotency.py:381-466 | In every run without overlap the provider is called at most once more than it was observed to hold nothing |
| JournalRuns.CommittedReceiptIsFinal | src/swfactory/idempotency.py:289-359 | However callers interleave, a committed receipt is never replaced |
| JournalRuns.TwoFirstCallersCanBothTakeEffect | src/swfactory/idempotency.py:399-412 | A run in which two callers both find no row and both take effect |
| JournalRuns.ASlowCallCanBeDoubled | src/swfactory/idempotency.py:434-458 | A run in which a claim outlives its lease, the next caller truthfully observes an absence, and both take effect |
| JournalAlone.ExecuteIsAPath | src/swfactory/idempotency.py:381-466 | A call that nobody joins, cut short anywhere, is a path of those steps, and none of them overlaps |
| OperationJournal.ResultsAreCommitted | src/swfactory/idempotency.py:381-466 | A result is returned only from a committed row of the same identity and intent |
| OperationJournal.CommittedKeyReplays | src/swfactory/idempotency.py:420-440 | A committed key answers from its row without a provider call |
| OperationJournal.KnownReceiptIsReturned | src/swfactory/idempotency.py:381-466 | If the receipt is stored, given on a first call, found by observing, or given when the provider is called again after a definite absence, a call that meets no conflict, no live attempt and no crash returns it |
| OperationJournal.FirstCallCallsOnce | src/swfactory/idempotency.py:381-466 | A first call, not cut short, calls the provider once, counts one attempt, and commits the receipt or is left in doubt |
| OperationJournal.LookDecides | src/swfactory/idempotency.py:381-466 | A further call, not cut short, adopts a committed outcome; calls the provider once more exactly after a definite absence, if the effect may be repeated and an attempt is left; says so when the budget is spent; and stays in doubt in every other case, without a call |
| OperationJournal.OpposedCallsAreRefused | src/swfactory/idempotency.py:164-223 | A call conflicts exactly if Cell, epoch, kind, intent, replay policy or budget disagree, and then writes nothing; one that meets a live attempt is in doubt |
| OperationJournal.RowBelongsToItsCaller | src/swfactory/idempotency.py:164-223 | A call leaves its key's row with its own identity and intent |
| CoreCapabilities.BindingsNeverChange | src/swfactory/core_capabilities.py:126-199 | For each Cell and epoch the bound Airflow run and the policy digest never change once set, through any crashes and re-runs and beside the backend's own bindings; and the refusal for a reused policy key never occurs |
| CoreCapabilities.RepeatedCallsConverge | src/swfactory/core_capabilities.py:201-322 | After any number of attempts that died anywhere, an admissible and unopposed call whose receipt is stored, observed, given, or given on a retry after a definite absence, and that lives for six transactions, or eight with a retry, succeeds with that receipt and leaves exactly one Cell event and one evidence record for its key |
| CoreCapabilities.SuccessLeavesExactlyOneOfEach | src/swfactory/core_capabilities.py:201-322 | Every success leaves exactly one Cell event and one evidence record under its key, both for the committed receipt |
| CoreCapabilities.SuccessInRun | src/swfactory/core_capabilities.py:201-322 | The same for a success anywhere in a run |
| CoreCapabilities.OneReceiptForEver | src/swfactory/core_capabilities.py:253-322 | Once a key is committed, every later success for it, by any request, returns that one receipt |
| CoreCapabilities.OnlyAuthorisedCallsReachTheProvider | src/swfactory/core_capabilities.py:218-265 | Only the bound run, at the current epoch and policy and with permission, reaches the provider, and on a terminal Cell only for cleanup or evidence |
| CoreCapabilities.AdmittedExactlyWhenAuthorised | src/swfactory/core_capabilities.py:218-265 | Exactly the authorised requests get as far as the journal; on an ended Cell also those whose receipt is committed |
| CoreCapabilities.KeysAreDistinct | src/swfactory/core_capabilities.py:150-236 | One binding key stands for one Cell, epoch and run, one policy key for one Cell, epoch and policy, one derived key for one Cell, epoch, kind and parts |
| CoreCapabilities.EventsTellReceiptsApart | src/swfactory/core_capabilities.py:288-304 | Another receipt under the same key makes another event, so it is noticed |
| CoreCapabilities.ActivationSetsThePolicy | src/swfactory/core_capabilities.py:126-158 | A successful activation leaves the Cell under the given policy, with the policy on record for its epoch |
| CoreCapabilities.ActivationSucceedsExactlyWhen | src/swfactory/core_capabilities.py:126-158 | An activation that is not cut short succeeds exactly if the policy names the Cell and the Cell can be started or is at work under this policy or none; each refusal says which failed |
| CoreCapabilities.PolicyIsRecordedOnce | src/swfactory/core_capabilities.py:402-423 | A policy that is on record for the epoch is not recorded again, however often the activation is repeated |
| CoreCapabilities.BindingBindsTheRun | src/swfactory/core_capabilities.py:160-199 | A successful binding leaves the Cell bound to this run at this epoch, running if it was bound now, with exactly one record of it |
| CoreCapabilities.BindingSucceedsExactlyWhen | src/swfactory/core_capabilities.py:160-199 | A binding that is not cut short succeeds exactly if the Cell is at this epoch and not ended, has a policy, is bound to no run or to this one, and no other record stands under the binding's key |
| CoreCapabilities.SetPolicyKeeps | src/swfactory/core_capabilities.py:150-157 | Setting the policy never meets its own key under another policy |
| CoreCapabilities.CallConverges | src/swfactory/core_capabilities.py:201-322 | The same for one call on a world in which only this request has used its key |
| CoreCapabilities.BackendPolicyKeeps | src/swfactory/backend/service.py:901-927 | The backend's policy binding, cut short anywhere, keeps the invariant and everything bound |
| CoreCapabilities.BackendPolicySucceedsExactlyWhen | src/swfactory/backend/service.py:901-927 | The backend sets a policy exactly on a live Cell that has no other one, under a key that is new or has set it |
| CoreCapabilities.BackendRunKeeps | src/swfactory/backend/service.py:976-1020 | The backend's run binding and its evidence record, cut short anywhere, keep the invariant, everything bound, and at most one record per key |
| CoreCapabilities.BackendRunSucceedsExactlyWhen | src/swfactory/backend/service.py:976-1020 | The backend binds a dispatching Cell at its epoch once, records that, and refuses another run id on a Cell that has moved on |
| CoreCapabilities.StepKeeps | src/swfactory/core_capabilities.py:126-322 | Every call, cut short anywhere, keeps the invariant of the three stores and everything already recorded |
| CoreCapabilities.CoreCapabilityRuntime.RecordEffectOnce | src/swfactory/core_capabilities.py:388-400 | One event under the key; a second attempt is compared with the latest event that has it |
| CoreCapabilities.CoreCapabilityRuntime.RecordEvidenceOnce | src/swfactory/core_capabilities.py:447-464 | One record under the key; a second attempt is compared with the latest record that has it |
| CoreCapabilities.CoreCapabilityRuntime.RecordPolicyOnce | src/swfactory/core_capabilities.py:402-423 | At most one policy record per epoch and digest |
| CoreCapabilities.CoreCapabilityRuntime.ActivateWithPolicy | src/swfactory/core_capabilities.py:126-158 | The method is the activation the theorems are about, transaction by transaction |
| CoreCapabilities.CoreCapabilityRuntime.BindRun | src/swfactory/core_capabilities.py:160-199 | The method is the binding the theorems are about |
| CoreCapabilities.CoreCapabilityRuntime.BindRunEvidence | src/swfactory/core_capabilities.py:425-445 | The binding's evidence, once, under the Cell's policy |
| CoreCapabilities.CoreCapabilityRuntime.ExecuteMutation | src/swfactory/core_capabilities.py:201-322 | The method is the external effect the theorems are about |
| Boat.BoatSandbox.Ensure | src/swfactory/boat.py:453-480 | Success leaves one running VM, the handle; failure keeps an old handle, and a VM this call created is confirmed archived or has become the handle |
| Boat.BoatSandbox.Close | src/swfactory/boat.py:543-559 | A confirmed stop leaves nothing running and no handle; anything else keeps the handle |
| Boat.BoatSandbox.ForkChild | src/swfactory/boat.py:575-611 | The child's id is recorded before any later call, whatever fails afterwards; a key stands for one child, even if the answer that named it was lost |
| Boat.BoatSandbox.ReclaimFork | src/swfactory/boat.py:613-621 | A fork asked for again under its key brings back the child the lost call made |
| Boat.BoatSandbox.BecomeReady | src/swfactory/boat.py:600-611 | A child that never becomes usable is stopped, or its recorded id is what is left |
| Boat.BoatSandbox.ForkParent | src/swfactory/boat.py:563-573 | The parent is given out only after its archive is confirmed, and stays the handle |
| Boat.BoatSandbox.Reap | src/swfactory/boat.py:627-637 | The observed state, not the stop's answer, decides |
| Boat.BoatSandbox.ResumeParent | src/swfactory/boat.py:639-646 | The handle survives whatever the resume answers |
| Boat.BoatSandbox.Restart | src/swfactory/boat.py:661-669 | A new object over the same run state works on the same VM |
| Boat.LiveMeansNotArchivedSince | src/swfactory/boat.py:453-559 | A VM counts as possibly running exactly when it was started and no archive was confirmed since |
| Boat.Poll | src/swfactory/boat.py:286-297 | Polling ends at the first observation that is final, raises, or comes after the timeout has been slept, provided time passes between polls, there is no time to wait, or some observation is final |
| Boat.PollingEndsExactlyThen | src/swfactory/boat.py:286-297 | That proviso is exactly when polling ends at all |
| Closure.Reachable | scripts/promotion_policy.py:505-519 | For every order of the job map the loop ends with exactly the start and the jobs that have a chain of needs to it |
| Closure.Pass | scripts/promotion_policy.py:509-518 | A pass adds only jobs with a chain, reports whether it added any, and one that adds none has closed the set |
| Closure.LeastClosure | scripts/promotion_policy.py:505-519 | The jobs with a chain are contained in every closed set that holds the start |
| Paging.Paged | src/swfactory/control.py:425-482 | Against a stable server with any clamp the walk ends with an ordered prefix of the rows, of the length asked for unless marked truncated; and it is marked exactly when the pages run out first |
| Paging.PageRead | src/swfactory/control.py:464-477 | One page brings the walk one page further, or shows that it is done |
| Paging.ACompleteWalkCanBeMarked | src/swfactory/control.py:461-482 | A server of 100 full pages and no total: nothing is missing and the walk is marked |
| AdaptiveBudget.CountNeverFallsWithValue | src/swfactory/adaptive_information.py:637-658 | A lane's kept count never falls as its marginal value rises |
| AdaptiveBudget.StoppedExactlyWhenWorthless | src/swfactory/adaptive_information.py:637-658 | A lane is cut to zero if and only if it has no task, or is worth too little and is not a verifier under high disagreement |
| AdaptiveBudget.HowManyAreKept | src/swfactory/adaptive_information.py:637-658 | At four times the least value a lane keeps all its tasks, from the least value on at least the retained fraction and one, and after a collapse of its answers exactly one |
| AdaptiveBudget.ValueFollowsItsParts | src/swfactory/adaptive_information.py:497-503 | Marginal value falls as correlation and cost rise and rises with the information expected |
| AdaptiveBudget.ExpectedInformationIsTheWeightedSum | src/swfactory/adaptive_information.py:532-552 | On measured counts the five weighted parts are a fraction already, so the clamp never acts |
| AdaptiveBudget.MoreFindingsTellMore | src/swfactory/adaptive_information.py:532-552 | More different candidates, more evidence or a better answer rate never lower what a lane is expected to tell |
| AdaptiveBudget.CountNeverWidens | src/swfactory/adaptive_information.py:637-658 | The kept count lies between zero and the measured number of tasks |
| AdaptiveBudget.MeasuredLaneIsValid | src/swfactory/adaptive_information.py:506-593 | Every consistent measurement gives a lane that validates |
| AdaptiveLanes.MeasuringIsConsistent | src/swfactory/adaptive_information.py:511-541 | Whatever tasks and receipts a lane has, its counts fit together and its correlation is a fraction |
| AdaptiveLanes.MeasureCounts | src/swfactory/adaptive_information.py:511-541 | The counts of a lane are those of its tasks with a receipt, answered, and answered with evidence, and of the different candidates proposed; the correlation is that of the answered receipts |
| AdaptiveLanes.SimilarityEnds | src/swfactory/swarm_dynamics.py:388-398 | Signatures are fully alike exactly when they are equal, and not at all exactly when they differ and share nothing |
| AdaptiveLanes.AlikeAnswersCountOnce | src/swfactory/swarm_dynamics.py:379-404 | Answers that are all alike are worth one, and answers that share nothing are worth their number |
| AdaptiveLanes.WorthIsTheParticipationRatio | src/swfactory/swarm_dynamics.py:379-404 | What answers are worth together is the square of their number over the sum of all their similarities, each to itself included |
| AdaptiveLanes.WorthFallsWithCorrelation | src/swfactory/swarm_dynamics.py:379-404 | The more the answers correlate, the less they are worth together |
| AdaptiveLanes.GroupByLane | src/swfactory/adaptive_information.py:512-514 | Each lane gets exactly its own tasks, in the manifest's order |
| AdaptiveLanes.MeasureLanes | src/swfactory/adaptive_information.py:516-593 | Unless some lane mixes roles or tiers, every lane is measured from its own tasks, in ascending order |
| AdaptiveLanes.MeanPairwise | src/swfactory/swarm_dynamics.py:407-420 | The loops over all pairs compute the mean similarity |
| AdaptiveLanes.MeanIsFraction | src/swfactory/swarm_dynamics.py:407-420 | The mean similarity of any signatures lies between 0 and 1 |
| AdaptiveLanes.EffectiveSearchBounds | src/swfactory/swarm_dynamics.py:379-404 | Some answers are worth at least one independent answer and at most their number |
| AdaptiveLanes.EvaluateManifest | src/swfactory/adaptive_information.py:321-440 | From tasks and receipts alone: unless a lane mixes roles or tiers there is a decision, it validates, and it has one lane for each lane of the manifest, none wider than its tasks |
| AdaptiveBudget.ShrunkIsWithin | src/swfactory/adaptive_information.py:389-421 | Whatever the lanes ask for, the budget made of it is valid and no field exceeds the base |
| AdaptiveBudget.KeptNeverWidens | src/swfactory/adaptive_information.py:389-400 | Any sum of kept counts is at most the number of measured tasks |
| AdaptiveBudget.RoleCaps | src/swfactory/adaptive_information.py:718-722 | Each role's cap is the sum over its lanes; roles without a lane have none, and nothing of theirs is kept |
| AdaptiveBudget.Totals | src/swfactory/adaptive_information.py:389-400 | The running totals are the sums over all lanes, the deep lanes and the exact-replay lanes |
| AdaptiveBudget.SettledExactlyWhenNothingIsKept | src/swfactory/adaptive_information.py:346-368 | Below high disagreement, search is settled exactly if there are answers, they agree, and no lane keeps a task |
| AdaptiveBudget.Evaluate | src/swfactory/adaptive_information.py:321-440 | Every decision validates: no budget field or lane widens, work stops exactly when cancelled or settled, and a needed verifier keeps a deep place, a role cap and compute |
| AdaptiveBudget.GlobalLaneWidensOnlyWhenEmpty | src/swfactory/adaptive_information.py:596-685 | Without a manifest the one lane of a consistent report validates if and only if some task ran |
| AdaptiveBudget.HowMuchAReportRetains | src/swfactory/adaptive_information.py:661-685 | Without a manifest: one task if settled and collapsed, else at least the retained fraction and the independent part of its tasks, up to the limit |
| AdaptiveBudget.EvaluateReport | src/swfactory/adaptive_information.py:321-440 | Without a manifest there is a decision if and only if the report is cancelled or some task ran; it validates, widens nothing and retains the global count |
| AdaptiveBudget.AnEmptyReportIsRefused | src/swfactory/adaptive_information.py:661-668 | With the default thresholds, a report of no task asks for one and its lane is refused |
| Approvals.LoadFixture | src/swfactory/approval_policy.py:83-104 | A fixture loads exactly when every entry has a decision and an actor, and then holds exactly its entries |
| Approvals.EveryBuiltApprovalPasses | src/swfactory/approval_policy.py:131-283 | Every approval built from a response or a replay, once stamped, passes the re-check for the same gate mode |
| Approvals.PassingNamesItsAuthority | src/swfactory/approval_policy.py:234-283 | An approval passes if and only if it names this gate, these inputs and this Cell epoch and whoever decided may decide; on managed work a human gate takes a person |
| Approvals.WhoMayAnswer | src/swfactory/approval_policy.py:131-213 | An answer becomes an approval if and only if it is a named, unreserved, dated person's, the declared default of an automatic gate, or a replay on local unmanaged work where nobody answered; the decision is the one given |
| Approvals.AnAnswerOpensItsGate | src/swfactory/stages.py:2398-2464 | An answer that becomes an approval is recorded exactly if it did not come before the admission of the inputs, and what is recorded passes the check before publication while these inputs stay pinned |
| Approvals.RecordedExactlyWhenConsistent | src/swfactory/stages.py:2398-2464 | An answer is recorded exactly if it contradicts neither Cell, artifact, inputs nor time of admission; what is recorded is the answer given, stamped with them |
| Approvals.ReservedNamesAreThese | src/swfactory/approval_policy.py:190-197 | Where case makes no difference, the names no person may answer under are exactly the automatic actor's, a replay's and a policy's |
| Approvals.OneDigestBetweenReacceptances | src/swfactory/accepted_inputs.py:473-551 | All tasks let in between two re-acceptances ran on one digest |
| Approvals.AdmittedExactlyWhenUnchanged | src/swfactory/accepted_inputs.py:473-512 | The first inputs are pinned with their digest and time; later ones are let in exactly if they are the same, and each refusal says what differs |
| Approvals.ReopenedExactlyWhen | src/swfactory/accepted_inputs.py:515-551 | A pin is retired exactly by a named actor with a reason on unmanaged work that has one, and the record keeps who and which |
| Approvals.PublishedAnswersWereGivenForTheseInputs | src/swfactory/stages.py:2398-2464 | A dated approval that passes before publication was answered after the inputs now pinned had been admitted |
| Approvals.ReopeningVoidsOnlyChangedInputs | src/swfactory/accepted_inputs.py:515-551 | After a re-acceptance an approval passes again if and only if the next inputs have the digest it was given for |
| Approvals.UnchangedInputsKeepTheirApproval | src/swfactory/accepted_inputs.py:515-551 | A case in which inputs are re-accepted unchanged and the earlier approval passes without being answered again |
| Approvals.RecordKeepsInv | src/swfactory/stages.py:2398-2464 | Recording, with its checks and stamps, keeps every recorded approval dated to an admission of its inputs |
| Approvals.RunControl.AdmitInputs | src/swfactory/accepted_inputs.py:473-512 | Pins the first inputs, returns them while they match, and refuses drift or another schema |
| Approvals.RunControl.ReacceptInputs | src/swfactory/accepted_inputs.py:515-551 | Retires the pin on the record, or refuses without change |
| Retention.GrantsAreBrokenExactlyWhenUnsafe | src/swfactory/candidate_retention.py:55-172 | With every call split into its read and its write and any interleaving: a retention or pin can be broken while in force if and only if, when it was granted, its object was gone or another call on it was a sweep or was about to write back a lease that falls short of it |
| Retention.PromisesAreKept | src/swfactory/candidate_retention.py:55-172 | In every run whose grants are safe when made, every promise and pin in force has its object and a lease that holds it |
| Retention.PromisesEndOnlyAfterTheirTime | src/swfactory/candidate_retention.py:130-172 | A promise ends only in a sweep that reads the lease at or after the promised time |
| Retention.ExpiryFallsOnlyByAStaleWrite | src/swfactory/candidate_retention.py:75-101 | A lease's expiry moves earlier only when a call writes back a lease that is no longer the one it read |
| Retention.PinnedEvidenceCanBeSwept | src/swfactory/candidate_retention.py:104-172 | A run in which a pin succeeds between a sweep's read and its removal, and the pinned object is gone |
| Retention.RetainAlone | src/swfactory/candidate_retention.py:55-101 | A retention that nothing interrupts is its copy, its read and its write |
| Retention.PinAlone | src/swfactory/candidate_retention.py:104-127 | A pin that nothing interrupts is its read and its write |
| Retention.SweepAlone | src/swfactory/candidate_retention.py:130-172 | The removal of one object that nothing interrupts is its read, the removal of the object and that of the lease |
| Retention.ReadsDecideAsTheCalls | src/swfactory/candidate_retention.py:55-172 | A call gets past its read exactly where the whole call would succeed |
| Retention.RetainedExactlyWhen | src/swfactory/candidate_retention.py:55-101 | A retention succeeds exactly for a positive time over no lease or a readable one of the same candidate; the lease then lasts that long and no shorter than before, and keeps its pin and first time |
| Retention.PinnedExactlyWhen | src/swfactory/candidate_retention.py:104-127 | A pin or unpin succeeds exactly on a readable lease with its object, and changes nothing else |
| Retention.RetainedIsSweptOnlyWhenUnheld | src/swfactory/candidate_retention.py:55-172 | What was retained can be swept exactly from the end of its lease on, never while it is pinned, and again once it is unpinned |
| Retention.PinsHold | src/swfactory/candidate_retention.py:104-172 | In such a run pinned evidence is there and pinned, until an unpin of its own |
| Retention.RetentionStore.Retain | src/swfactory/candidate_retention.py:55-101 | The object and the extended or new lease, or the refusal |
| Retention.RetentionStore.SetPin | src/swfactory/candidate_retention.py:104-127 | Only the pin changes, and only on a readable lease whose object is there |
| Retention.RetentionStore.Sweep | src/swfactory/candidate_retention.py:130-172 | Every lease file is reported in exactly one list, exactly the sound, unpinned, expired ones are removed, and one whose place is redirected is reported and kept |
| SnapshotDiff.Walk | scripts/snapshot_diff.py:105-123 | Nothing is reported if and only if the two documents are equal, and every report names a difference that is there |
| SnapshotDiff.WalkFields | scripts/snapshot_diff.py:109-116 | The same for two objects, key by key |
| SnapshotDiff.WalkItems | scripts/snapshot_diff.py:117-121 | The same for two lists, with their lengths |

## Left out

- Cells.CellStore.InsertIdentity: initial fields given to `ensure` are not modelled; they are one patch at epoch 1.
- Cells.CellStore.PatchCell: the three Airflow columns are set as one.
- Dispatch.RunIdsAreDistinct: of JSON's escapes only those of quotes and backslashes are modelled, not those of control
  and non-ASCII characters.
- Dispatch.DeliveryInbox.Enqueue: the canonical JSON of payloads and the binding of the inbox to one far side.
- DispatchRuns.SubmissionsCarryTheFixedRunId: whether a submission failure is retryable is arbitrary, so the reading of
  HTTP status codes and of the Retry-After header is not modelled.
- Admission.AdmissionController.HeapPop: the heap's array layout is not modelled, only that the smallest item is taken.
- CallLedger.Ledger.Records: stage, iteration, reason, owner, lease, observation texts and what the host itself observed
  are not modelled.
- CallObservations.Importer.ReconcileCall: parsing, file-system checks and the cleanup journal are one input, the
  parsed file and the time the call's sandbox was cleaned up.
- Fusion.Merge: protection is any set of paths; the glob rules that define it (`_is_protected`) are not modelled.
- Fusion.Propose: the choice of two to four distinct contributors and the limits on patch size are not modelled.
- Fusion.BuildLedger: the result is a map; sorting it by evidence id and hashing it are not modelled.
- Fusion.Changes: reading git's raw output is not modelled; the path rule is any predicate.
- OperationJournal.ExecuteKeeps: rows always carry an intent and a budget; the delay before a retry and the text of the
  last error are not modelled, nor the migration of old rows without an intent or budget.
- OperationJournal.ExecuteTakesEffectOnce: one call at a time; the same for overlapping calls is in `JournalRuns.dfy`.
- OperationJournal.FirstCallCallsOnce: the default budgets of the kinds of operation are data.
- JournalRuns.SecondEffectExactlyAfterOverlap: callers whose request conflicts with the row, which are refused without a
  write, are left out, and so is an effect that a provider completes after the call has returned.
- CoreCapabilities.BindingsNeverChange: code other than the runtime and the backend's two bindings is assumed to set
  neither a run nor a policy, to use keys of its own, and to leave the states `created` and `dispatching` to enrolment
  and activation. The backend's read of `dispatching` and its patch are one step: in the code nothing guards the state
  in between, so a binding made there at the same epoch is overwritten.
- CoreCapabilities.NoKeyTakesEffectTwice: of the runtime's calls one after another, as is
  `CoreCapabilities.ProviderIsNeverCalledBlindly`; for overlapping calls the journal's own theorems say what holds.
- CredentialLease.CredentialLeaseBroker.Revoke: the refusal of attempt number 0, which would cover no lease.
- CoreCapabilities.RepeatedCallsConverge: calls run one at a time, with crashes between their transactions; two calls
  at the same moment in two processes are not modelled.
- Boat.BoatSandbox.Ensure: a process killed between `create` and the saved handle is not modelled, only failing calls;
  nor is a VM that exists although `create` raised.
- Approvals.OneDigestBetweenReacceptances: `admit` and `reaccept` are single steps; a crash between their file writes is
  not modelled.
- AdaptiveBudget.Evaluate: floating-point rounding, each lane's action label, the reason text and the digests are not
  modelled.
- AdaptiveBudget.EvaluateReport: a report whose telemetry contradicts itself is not modelled.
- Boat.Poll: a negative interval is refused by the sleep itself and is not modelled.
- Boat.BoatSandbox.ForkChild: a callback that fails to record the child's id is not modelled.
- Retention.GrantsAreBrokenExactlyWhenUnsafe: lease files that cannot be read stop a call and are not written by any.
- SnapshotDiff.Walk: keys are visited in any order, the wording of a line is not modelled, and numbers are reals: a NaN,
  which is not equal to itself, is not among them.
- Approvals.RunControl.AdmitInputs: a pin that cannot be read is not modelled; the code refuses it.
- HTTP, subprocess, SQLite and file-system plumbing, redaction, the user interface and the DAGs.
- `norm` and `failed_sources` of the snapshot diff: projections of one snapshot, field by field.
- `group_jobs`, `job_state`, `evaluate_gate` and `diff_live_protection`: case tables that one branch settles.
- Stored evidence hash chains and the verification of retained manifests, which rest on files not modelled here.
