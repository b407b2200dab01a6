# Stark Bank trial: verified model

A Dafny model of the protocol that the repository keeps in its database tables, with proofs of what it
guarantees. Signed credit events become durable transfer jobs; leased workers turn each job into one
payout at a provider that may lose replies; a scheduler issues batches of invoices with retry and
reconciliation; a smoke batch finds or creates invoices by reference; a review store pages through the
tables. `dafny verify dfyconfig.toml` verifies everything.

## How the model is built

**Tables and stores.** `Tables` holds the six tables twice: as the value `Db` that specifications speak
about, and as the class `Database` that the stores update in place. Every block that the source runs in
one transaction is one method of a store class (`EventStore`, `InvoiceStore`, `TransferStore`,
`TrialStore`). Its contract equates the new tables with a specification function of the old ones, or with
the old ones when a key, a check or a refusal rolls it back. `TransferWorker`, `TrialService`,
`SmokeBatchService` and `StarkBankClient` are classes over these stores and over a provider object. What
the clock and the provider answer is a parameter of each call.

**Three machines.** The guarantees hold at different granularities.

1. `Interleaving` and `TagPayouts`: any store transactions, in any order, with any arguments. The ownership
   mirror, the correspondence of events and jobs, and the invariants of runs and batches hold here. So does one
   payout per owned tag, under its exact condition: no draft write overwrites a binding that was paid.
2. `Payout`: workers move one store transaction or one provider call at a time, next to any other
   transactions; replies get lost and workers die anywhere. Exactly-once payout, fencing, and the bounds on
   claims hold here. `ProcessIsRun` shows that the service's pass is such a run. `TagTransfers` runs the payouts of
   the first machine beside it: at most one transfer of the provider for each owned tag.
3. `ServiceMoves`: the trial, webhook, worker and smoke services move one draft, one transaction or one
   provider call at a time, and a process may die after any move. One restriction is added: a draft is
   issued only while it is pending as its page listed it, and looked up by the reconciler only while it is
   unknown as listed. `ServicePayouts` shows that such moves overwrite nothing. The bounds on drafts, the
   provider's invoices per tag, truthful completion, and smoke idempotence hold here. `StepIsMoves` shows that
   indivisible ticks, passes, deliveries, starts and smoke runs, also those that end part-way, are such runs,
   so `ServiceRuns` restates the results for them.

**Outcomes.** Beside the invariants, six modules say what each operation makes of its input, in terms of the rows and
the provider's answers only: `Attribution` (credits), `PassOutcomes` and `JobProgress` (transfer jobs),
`DraftOutcomes` and `TickOutcomes` (drafts and passes), `Settlement` (batches and runs). They state when a job or a
draft is given up, when it waits and for how long, when a job or a batch can be claimed again, and what a pass leaves
behind; over runs, nothing is failed or degraded without its cause.

**Assumptions, stated where they are used.**

- A payload hash stands for one event (`Authentic`): for the correspondence of events and jobs, and what rests
  on it.
- A provider rejects a repeated external id of a transfer and lists only transfers that exist
  (`TruthfulCreate`, `TruthfulLookup`): for exactly-once payout.
- An event id stands for one event of one workspace, and a transfer id belongs to one external id, also in the
  stored jobs and in what is recorded for other jobs; no result is recorded and no status refreshed for the job
  in question (`Coherent`): for the convergence of lifecycle statuses. Reordering leaves the same status when the
  events' timestamps are distinct.
- The number of remote invoices of a draft's tag: the lookup that lets an attempted draft be created again sees
  past creates, and a create takes effect under a fresh id or not at all (`SeeingMove`). For at most one invoice
  without deaths, and for smoke tags: every lookup sees past creates, replies tell what happened, and credits
  carry the tag their invoice was created with (`HonestMove`).
- Lease lengths and retry bases are positive and the limits at least 1, as the settings require. Identifiers
  derived by uuid5 or by a format string are free constructors. Instants are whole seconds.

## What the proofs turned up

- The README of the repository (lines 85-91) says that leases, locks and deterministic tags tolerate
  scheduler overlap. `_transition` is not guarded by what it replaces: a draft write stored after the draft's
  tag was bound and paid, and that writes no invoice or another one, overwrites the binding. Exactly then the
  payouts leave their order (`InOrderExactly`), and some credit pays the tag a second time
  (`OverwritePaysTwice`). A late write of the same invoice is harmless.
- A create whose process dies before any attempt is counted is repeated (`RecreatedAfterDeath`). The provider
  holds at most one invoice for a draft's tag if and only if at most one create took effect while no attempt
  was counted (`OneInvoicePerDraft`).
- A created draft may have one attempt more than the maximum, when the reconciler finds its invoice after
  the last attempt (`LastAttemptFound`); no other draft has.
- A failed draft becomes created when its credit arrives later, so a degraded batch and run can still
  complete (`DegradedBatchCompletes`); they are then complete in truth.
- A lifecycle event stored as unmatched, before its job existed, is ignored when it comes again, even if it
  is newer than the job's status (`StoredIsIgnored`): convergence is among the events that were not stored at the start.
- A reconciliation pass does not catch a permanent provider error: it ends there, without settling the
  batches it already has answers for. A worker's final lookup does not catch one either: its claim ends
  without a result, and the lease has to run out.
- A page limit of 0 collects nothing and yet passes over every row, because the last visible row's index
  is then -1. Paging equals one scan if and only if the limit is at least 1 or nothing matches. The HTTP
  layer admits only 1 to 100.

## Model

| member | source | states |
|---|---|---|
| `Payout.ExactlyOncePayout` | src/starkbank_trial/infrastructure/starkbank_client.py:153-183 | In every reachable state of the machine of workers (claims, provider calls with lost replies, finishes, crashes, deliveries, other transactions, one at a time) no two transfers of the provider share an external id, each transfer pays the net amount, positive and equal to amount minus fee, of the one job of its invoice, and every succeeded job has its transfer. |
| `Payout.MoneyNext` | src/starkbank_trial/application/transfers.py:62-80 | Every single action keeps the ledger: transfers have distinct external ids and pay jobs, a worker's claim still names its job's invoice and net amount, and a worker about to record success has the transfer behind it. |
| `Payout.PassIsRun` | src/starkbank_trial/application/transfers.py:62-170 | The provider calls of one uninterrupted worker pass are a run of that machine. |
| `Payout.ProcessIsRun` | src/starkbank_trial/application/transfers.py:48-80 | The whole pass of a worker that finds a job, as the contract of ProcessOne describes it, is a run of that machine: claim, second clock reading, provider calls, record. |
| `Payout.StoreKeepsDispatch` | src/starkbank_trial/persistence/transfer_store.py:116-132 | Transactions other than claims and finishes only add pending jobs and change provider columns; status, attempts, lease and due time of a job stay. |
| `Client.StarkBankClient.EnsureTransfer` | src/starkbank_trial/infrastructure/starkbank_client.py:153-183 | Looks up, creates only when the lookup found nothing, and looks up again when the create is refused as a duplicate; the provider's transfers and the result are exactly those of that policy, error by error. |
| `Client.StarkBankClient.FindTransfer` | src/starkbank_trial/infrastructure/starkbank_client.py:331-344 | The first listed transfer with the command's external id, nothing when none has it, or the classified error. |
| `Client.FirstMatch` | src/starkbank_trial/infrastructure/starkbank_client.py:338-344 | Finds a transfer if and only if one in the list has the external id, and then one that has it. |
| `Client.Provider.CreateTransfer` | src/starkbank_trial/infrastructure/starkbank_client.py:171-183 | A create takes effect only under an external id the provider does not hold. |
| `TransferWorker.TransferWorker.ProcessOne` | src/starkbank_trial/application/transfers.py:48-60 | One pass: nothing when live operations are off or no job is due; otherwise the due job is leased and processed to the result the machine reaches, with the second clock reading. |
| `TransferWorker.TransferWorker.ProcessClaimed` | src/starkbank_trial/application/transfers.py:62-80 | From a claim to a recorded result: exactly the machine's provider calls and the fenced write of its result, or an error without a write. |
| `TransferWorker.TransferWorker.ReconcileUnknown` | src/starkbank_trial/application/transfers.py:146-170 | A job claimed from an unknown outcome is only looked up, never created again; found, retried, awaited or given up by the attempts left. |
| `TransferWorker.TransferWorker.FinalizeAfterLookup` | src/starkbank_trial/application/transfers.py:130-144 | The last attempt ends in success when a final lookup finds the transfer and in failure otherwise; a permanent lookup error leaves the claim without a result. |
| `TransferWorker.SoloEnsures` | src/starkbank_trial/infrastructure/starkbank_client.py:153-183 | The machine's lookup, create and second lookup add up to the client's find-or-create. |
| `PassOutcomes.PassLeaves` | src/starkbank_trial/application/transfers.py:62-170 | What one pass makes of a job, from the job's row and the provider's answers in SDK errors. It is given up for good if and only if the lookup or create that decides was rejected for good, or a refused create was then not found, or its attempts are used up and the final lookup neither found the transfer nor was rejected. Otherwise it is paid with a transfer the provider handed back, or unknown or pending and due after the backoff; it stays under its lease only when the final lookup was rejected or another job has the transfer. A create is called only after a lookup that showed nothing, and never for a job whose outcome was unknown. |
| `PassOutcomes.AcceptedCreatePays` | src/starkbank_trial/application/transfers.py:62-80 | A pass over a job never paid, when the provider accepts, makes exactly one new transfer, of the net amount, and the job succeeds, unless another job has a transfer with its id. |
| `PassOutcomes.LostReplyIsUnknown` | src/starkbank_trial/application/transfers.py:82-97 | A create that took effect and whose reply was lost, as an empty reply or as any error that leaves the outcome open, leaves the job unknown and due after the backoff. |
| `PassOutcomes.LostReplyIsRecovered` | src/starkbank_trial/application/transfers.py:146-165 | From that row, whatever happened to other jobs and transfers since, the next pass whose lookup lists the transfer ends in success with it and creates nothing. |
| `PassOutcomes.FencedIsReported` | src/starkbank_trial/persistence/transfer_store.py:201-222 | A result recorded without the lease changes nothing, and the worker reports it all the same. |
| `JobProgress.ClaimExactly` | src/starkbank_trial/persistence/transfer_store.py:42-94 | In every reachable state, from the history of claims: a job that is not final can be claimed if and only if its next attempt is due and its last claim, if any, recorded a result, or its last claim recorded none and that claim's lease has run out. |
| `JobProgress.FailedForCause` | src/starkbank_trial/application/transfers.py:82-170 | In every reachable state a job marked as a permanent failure was refused for good by the provider during the run, or used up its attempts. |
| `JobProgress.UnknownIsOnlyLookedUp` | src/starkbank_trial/persistence/transfer_store.py:171-187 | Once the holder of a job's latest claim reports its outcome unknown, the job is unknown until its next claim, and the worker with that claim reaches no create, over any interleaving. |
| `TransferStore.TransferStore.ClaimJob` | src/starkbank_trial/persistence/transfer_store.py:42-94 | Leases the claimable job that is due first, counts the attempt, and hands back its columns with the lease and the status it was claimed from; None exactly when nothing is claimable. |
| `TransferStore.TransferStore.FinishClaim` | src/starkbank_trial/persistence/transfer_store.py:201-222 | Writes a result exactly when the job is still processed under the claim's lease; otherwise reports false and changes nothing. |
| `TransferStore.TransferStore.RefreshProviderStatus` | src/starkbank_trial/persistence/transfer_store.py:116-132 | The unguarded refresh writes the provider columns of one job, unless its transfer id belongs to another. |
| `Fencing.TokensIncrease` | src/starkbank_trial/persistence/transfer_store.py:42-94 | Over any run, the lease tokens of a job strictly increase from claim to claim; workers' clocks need not agree. |
| `Fencing.Fenced` | src/starkbank_trial/persistence/transfer_store.py:201-222 | A finish under the i-th claim of a job is fenced if and only if a later claim exists or that claim already recorded a result, and a fenced finish changes nothing. |
| `Fencing.TerminalForever` | src/starkbank_trial/persistence/transfer_store.py:201-222 | Over any run, jobs are never lost, keep their event, invoice and amounts, and keep a terminal status. |
| `Fencing.ClaimsBounded` | src/starkbank_trial/application/transfers.py:82-114 | A job is claimed at most M times more than it has claims whose holder recorded no result, and its attempts count its claims. |
| `Fencing.ClaimsBackOff` | src/starkbank_trial/application/transfers.py:172-174 | When every earlier claim recorded its result, the n-th claim comes at least base * (2^(n-1) - 1) seconds after the first for n up to 10, and base * (511 + 256 (n - 10)) beyond. |
| `EventStore.EventStore.RecordEvent` | src/starkbank_trial/persistence/event_store.py:31-47 | One delivery does exactly what the specification function says to all six tables, or rolls back. |
| `EventStore.EventStore.OwnsInvoice` | src/starkbank_trial/persistence/event_store.py:203-269 | Attributes a credit to the row bound to its invoice unless another owned row carries one of its tags, or else to the only owned row with one of its tags if that is unbound; binds the row and marks its draft created. |
| `EventStore.EventStore.QueueTransfer` | src/starkbank_trial/persistence/event_store.py:130-168 | Queues a pending job unless the invoice has one or a key or check refuses it, and then marks the event a duplicate. |
| `EventStore.EventStore.RecoverDuplicate` | src/starkbank_trial/persistence/event_store.py:170-192 | A redelivered event queues its job only when it is stored as unknown under the same hash and is now attributable. |
| `EventStore.EventStore.AttributeNew` | src/starkbank_trial/persistence/event_store.py:40-47 | The rest of a delivery once its credit is stored: unknown, duplicate, or queued. |
| `EventStore.EventStore.RecordTransferEvent` | src/starkbank_trial/persistence/event_store.py:63-100 | A lifecycle event is stored once as unmatched, stale or updating, and updates the job it is about only when it is newer. |
| `EventStore.EventStore.InsertEvent` | src/starkbank_trial/persistence/event_store.py:102-128 | An event row is stored exactly when its id is new. |
| `EventStore.EventStore.RecordIgnoredWorkspace` | src/starkbank_trial/persistence/event_store.py:57-61 | An event of another workspace is stored once and has no other effect. |
| `EventStore.AttributableUnique` | src/starkbank_trial/persistence/event_store.py:203-269 | Under the schema's keys at most one owned row can be attributed a credit. |
| `EventStore.UnboundAttribution` | src/starkbank_trial/persistence/event_store.py:218-229 | A credit whose invoice no row is bound to goes to a row if and only if that row alone carries one of its tags and is unbound. |
| `Attribution.BoundCredit` | src/starkbank_trial/persistence/event_store.py:203-269 | A valid credit that is new, or waits under the same hash, and whose invoice some row is bound to: it goes to that row if and only if no other owned row carries one of its tags; otherwise it is stored as unknown and owned rows, drafts and jobs stay. Attributed, the row's draft is created and one pending job for amount less fee is queued, due at once, unless the invoice has one. |
| `Attribution.UnboundCredit` | src/starkbank_trial/persistence/event_store.py:203-240 | The same for an invoice no row is bound to: it goes to the one owned row that carries one of its tags, if there is exactly one and it is unbound. |
| `Attribution.OtherDelivery` | src/starkbank_trial/persistence/event_store.py:31-55 | Every other delivery but a lifecycle event is stored once as ignored or rejected, and a stored event that does not wait changes nothing. |
| `Attribution.ForeignDelivery` | src/starkbank_trial/persistence/event_store.py:57-61 | An event of another workspace is stored once under that outcome, with no other effect. |
| `Attribution.MatchedTransfer` | src/starkbank_trial/persistence/event_store.py:63-100 | A new lifecycle event whose job exists is stored as stale if the job's status is not older; otherwise the job shows it and keeps its dispatch, unless another job has the transfer, and then nothing is stored. |
| `Attribution.UnmatchedTransfer` | src/starkbank_trial/persistence/event_store.py:63-100 | Without a job of its external id it is stored as unmatched; a stored one changes nothing. |
| `EventStore.RecordEffect` | src/starkbank_trial/persistence/event_store.py:31-47 | What a delivery can do: an eligible credit that is attributed queues one job or is a duplicate, a new event is stored, and anything else changes nothing. |
| `Correspondence.CorrespondenceStep` | src/starkbank_trial/persistence/event_store.py:130-192 | Every transaction keeps queued events and jobs in one-to-one correspondence through the event id with matching invoices, and every job's amount equal to fee plus net. |
| `Correspondence.HistoryStep` | src/starkbank_trial/persistence/event_store.py:31-47 | No transaction deletes an event or a job; an outcome changes only from unknown to queued or duplicate; a job keeps its identity, amounts and terminal status. |
| `Redelivery.RecordTwice` | src/starkbank_trial/persistence/event_store.py:170-192 | Recording the same record again at any time leaves every table as after the first time. |
| `Redelivery.CreditQueuesOneJob` | src/starkbank_trial/persistence/event_store.py:130-168 | In a reachable database a valid credit that is new or waits for its invoice ends with exactly one job for the invoice if and only if it is attributable or the invoice has a job; the reported outcome says which. |
| `Lifecycle.NewestWins` | src/starkbank_trial/persistence/event_store.py:63-100 | Whatever transactions run, from a coherent provider (an event id stands for one event, a transfer id belongs to one job's external id) and with no result recorded and no status refreshed for this job, the job ends showing the newest event about it that was not stored at the start and is later than its stored timestamp, or unchanged if there is none, and the timestamp never goes back; an event stored before is ignored, as the code ignores it. |
| `Lifecycle.OrderIrrelevant` | src/starkbank_trial/persistence/event_store.py:63-100 | Two such sequences of transactions with the same lifecycle events about a job, apart from those stored at the start, with distinct timestamps, in any order, with any repetition and received at any times, leave the same provider status, transfer, log type and timestamp. |
| `Lifecycle.RefreshShows` | src/starkbank_trial/persistence/transfer_store.py:116-132 | A refresh shows its transfer and status whatever the job's status was, unless another job has the transfer, and changes nothing else. |
| `Domain.NetAmount` | src/starkbank_trial/domain/money.py:5-8 | A net amount exists exactly when 0 <= fee < amount; it is positive, and amount is fee plus net. |
| `OwnershipMirror.MirrorStep` | src/starkbank_trial/persistence/invoice_store.py:321-346 | Every transaction, with any arguments, keeps the mirror: a draft with an invoice has a linked owned row bound to the same invoice, a created draft has an invoice, and no two owned rows share one. |
| `OwnershipMirror.MirrorAttributeTo` | src/starkbank_trial/persistence/event_store.py:203-269 | Attribution keeps the mirror, binds exactly the attributed row, leaves its draft created with the invoice, and never breaks a unique key. |
| `Interleaving.ReachableInvariant` | src/starkbank_trial/persistence/invoice_store.py:321-346 | Every database reachable by any interleaving of store transactions satisfies the mirror, the event and job correspondence, and the run and batch invariants. |
| `Interleaving.RunKeepsHistory` | src/starkbank_trial/persistence/event_store.py:31-47 | Over any interleaving outcomes, jobs, targets and inactive runs are kept as each step keeps them. |
| `Interleaving.DraftInvoicesDistinct` | src/starkbank_trial/persistence/schema.py:72 | In every such database no two drafts share a provider invoice, so all unique keys of the schema hold. |
| `InvoiceStore.InvoiceStore.SaveDrafts` | src/starkbank_trial/persistence/invoice_store.py:71-112 | Stores the missing drafts of a batch with their unbound owned rows, all or none; stored drafts stay as they are. |
| `InvoiceStore.InvoiceStore.Register` | src/starkbank_trial/persistence/invoice_store.py:114-126 | A smoke tag is registered unbound unless it is owned already. |
| `InvoiceStore.InvoiceStore.BindProviderInvoice` | src/starkbank_trial/persistence/invoice_store.py:128-150 | A tag is bound to an invoice once; another invoice, a taken invoice or an unknown tag is a conflict that changes nothing. |
| `InvoiceStore.InvoiceStore.RecordSmoke` | src/starkbank_trial/persistence/invoice_store.py:152-154 | Registers, then binds. |
| `InvoiceStore.InvoiceStore.Pending` | src/starkbank_trial/persistence/invoice_store.py:156-168 | All due pending drafts of a batch, each once, by ordinal. |
| `InvoiceStore.InvoiceStore.Unknown` | src/starkbank_trial/persistence/invoice_store.py:170-182 | Up to the limit, the due unknown drafts that were updated longest ago. |
| `InvoiceStore.InvoiceStore.MoveDraft` | src/starkbank_trial/persistence/invoice_store.py:321-346 | Moves a draft and the binding of its owned row together and counts the attempt; a taken invoice rolls both back. |
| `InvoiceStore.InvoiceStore.RetryDraft` | src/starkbank_trial/persistence/invoice_store.py:209-234 | Counts a failed attempt: pending with a delay, or failed when the attempts are used up. |
| `InvoiceStore.InvoiceStore.ReconcileDraft` | src/starkbank_trial/persistence/invoice_store.py:248-284 | A found invoice creates the draft; a fruitless lookup is counted, and the last one sends the draft back to pending or fails it by the attempts it was listed with. |
| `InvoiceStore.InvoiceStore.SettleBatch` | src/starkbank_trial/persistence/invoice_store.py:286-319 | Sets the batch's status from the counts of its drafts, clears its lease, and degrades or completes its run. |
| `InvoiceStore.AddDraftsAt` | src/starkbank_trial/persistence/invoice_store.py:78-98 | Exactly the missing ordinals are added as pending drafts without attempts; every other draft is as before. |
| `TagPayouts.OnePayoutExactly` | src/starkbank_trial/persistence/event_store.py:203-269 | From any state with the mirror and payouts in order, and over any run of transactions in any order and with any arguments: jobs and payouts correspond one to one, no two share an owned tag, and paid tags stay bound to what they paid, throughout, if and only if no transaction overwrites a paid binding. |
| `TagPayouts.OnePayoutPerTag` | src/starkbank_trial/persistence/event_store.py:203-269 | From the empty tables, no run of transactions without such an overwrite pays a tag twice. |
| `TagPayouts.KeepsBindingsExactly` | src/starkbank_trial/persistence/invoice_store.py:321-346 | A transaction keeps all bindings if and only if it is not a draft write whose tag is bound to another invoice than the one written, the written one, if any, being free. |
| `TagPayouts.InOrderExactly` | src/starkbank_trial/persistence/invoice_store.py:321-346 | One transaction keeps the payouts in order if and only if it does not overwrite a paid binding. |
| `TagPayouts.OverwrittenTagPaysAgain` | src/starkbank_trial/persistence/invoice_store.py:321-346 | After any overwrite of a paid binding, by an unknown or a failed result or by another invoice, every fresh credit of the tag queues a second job for it. |
| `TagPayouts.OverwritePaysTwice` | src/starkbank_trial/persistence/invoice_store.py:321-346 | And there always is such a credit, so the guard is exact. |
| `TagPayouts.OverwritesPaidIsCheckable` | src/starkbank_trial/persistence/invoice_store.py:321-346 | While the payouts are in order, whether a write overwrites a paid binding can be read from the tables: it overwrites a binding whose invoice has a job. |
| `TagTransfers.OneTransferForEachTag` | src/starkbank_trial/infrastructure/starkbank_client.py:153-183 | Over any interleaving of workers, provider calls with lost replies, crashes, deliveries and other transactions in which no draft write overwrites a paid binding, every transfer of the provider pays an owned tag, and no two pay the same one. |
| `ServicePayouts.ServicesPayOnce` | src/starkbank_trial/application/trials.py:70-144 | Over any run of the services' moves, whatever the provider answers, jobs and payouts correspond one to one and no tag is paid twice. |
| `ServicePayouts.RunIsGuarded` | src/starkbank_trial/application/trials.py:70-144 | Every run of moves is a run of transactions none of which overwrites a binding. |
| `TagPayouts.PayoutAdded` | src/starkbank_trial/persistence/event_store.py:130-168 | A job queued for a new invoice comes with a tag that paid nothing before. |
| `TagPayouts.StaleWritePaysTwice` | src/starkbank_trial/persistence/invoice_store.py:321-346 | For example: a credit of a draft's tag, a late timed-out create stored after it, and some second credit queue two jobs for the tag. |
| `ServiceMoves.KeptRun` | src/starkbank_trial/persistence/invoice_store.py:321-346 | Over any run of moves an owned row keeps the invoice it is bound to and a created draft stays created, and a draft is created exactly when it and its owned row are bound. |
| `DraftProtocol.IssueEffect` | src/starkbank_trial/application/trials.py:88-122 | Issuing a listed pending draft writes its row and binding together, or leaves the database alone; the latter only when the process dies after the create or the invoice belongs to another tag. |
| `DraftProtocol.ReconcileEffect` | src/starkbank_trial/application/trials.py:128-141 | Reconciling a listed unknown draft writes its row and binding; only a permanent lookup error or an invoice of another tag ends the pass. |
| `TrialService.TrialService.Start` | src/starkbank_trial/application/trials.py:63-68 | A run is created exactly when live operations are on, the eight counts are in range and no run is active. |
| `TrialService.TrialService.Tick` | src/starkbank_trial/application/trials.py:70-86 | Claims the first claimable batch, saves its drafts, issues each due draft of the page in order, settles, and reports the batch's status; without one, degrades exhausted batches. |
| `TrialService.TrialService.IssueDrafts` | src/starkbank_trial/application/trials.py:84-85 | The drafts of a page are issued in order until an error ends the tick. |
| `TrialService.TrialService.IssueDraft` | src/starkbank_trial/application/trials.py:88-104 | An attempted draft is looked up first and created only when nothing is found; each answer is stored as the source stores it, and a conflict ends the tick after the create took effect. |
| `TrialService.TrialService.SettleAttemptedDraft` | src/starkbank_trial/application/trials.py:106-122 | Found, transient and permanent answers settle the draft; only a fruitless lookup leaves it to be created. |
| `TrialService.TrialService.StoreCreation` | src/starkbank_trial/application/trials.py:91-104 | Success, timeout, transient and permanent replies become created, unknown, retried and failed. |
| `TrialService.TrialService.ReconcileInvoices` | src/starkbank_trial/application/trials.py:124-144 | One pass over the unknown page: transient errors skip a draft, a permanent one ends the pass, each batch with an answer is settled once, and the result counts the drafts found. |
| `TrialService.TrialService.LookUpAll` | src/starkbank_trial/application/trials.py:126-141 | The lookups of a pass, in the page's order, with the batches and the count they lead to. |
| `TrialService.TrialService.SettleBatches` | src/starkbank_trial/application/trials.py:142-143 | Settles every batch of a set exactly once, in some order. |
| `RemoteInvoices.OneInvoicePerDraft` | src/starkbank_trial/application/trials.py:88-122 | Over any run of moves in which the lookup that lets an attempted draft be created again sees past creates, and creates use fresh ids: the provider holds at most one invoice for a draft's tag if and only if at most one create took effect while no attempt was counted; if any did, it holds exactly as many; never more than one plus the create calls whose result was not stored. |
| `RemoteInvoices.NoDeathOneInvoice` | src/starkbank_trial/application/trials.py:88-122 | With an honest provider and no process that dies between a create and its store write, a draft has at most one invoice, and none until an attempt is counted. |
| `RemoteInvoices.RemoteIssue` | src/starkbank_trial/application/trials.py:88-122 | An honest issue keeps that invariant and is cut short only by the process dying: it never meets an ownership conflict. |
| `RemoteInvoices.RemoteReconcile` | src/starkbank_trial/application/trials.py:124-144 | An honest lookup of the reconciler keeps the invariant and ends the pass only with a permanent error. |
| `RemoteInvoices.RecreatedAfterDeath` | src/starkbank_trial/application/trials.py:91-104 | The condition can fail: for every pending draft without attempts, a create that took effect and was not stored is followed by a second one that may, and the provider then holds two more invoices. |
| `RemoteInvoices.TimedOutCreateIsUnknown` | src/starkbank_trial/application/trials.py:91-94 | A timed-out create that took effect leaves the draft unknown and its invoice the only one of its tag. |
| `RemoteInvoices.UnknownDraftIsRecovered` | src/starkbank_trial/application/trials.py:128-141 | An honest answer about such a draft finds that invoice and creates the draft with it, with nothing new at the provider. |
| `InvoiceProvider.FreshEffectAdds` | src/starkbank_trial/infrastructure/starkbank_client.py:125-140 | A create under a fresh id adds at most one invoice to its own tag and none to another. |
| `DraftTermination.DraftsEnd` | src/starkbank_trial/persistence/invoice_store.py:209-284 | Over any run, with M attempts and R reconciliations configured: attempts never exceed M + 1, create calls M plus those whose result was never stored, fruitless lookups of the reconciler M * R, stored answers M * (R + 1); a draft that is not created has at most M attempts, and one with M * (R + 1) answers is created or failed. |
| `DraftTermination.SlowestDraftEnds` | src/starkbank_trial/persistence/invoice_store.py:209-284 | That bound is met: a new draft whose creates all time out and whose lookups all find nothing is still open after any fewer answers, and ends with exactly the M * (R + 1)-th. |
| `DraftTermination.BoundedIssue` | src/starkbank_trial/application/trials.py:88-122 | Every stored result of an issue moves the draft down in the lexicographic order of attempts, phase and reconciliations, within all bounds. |
| `DraftTermination.BoundedReconcile` | src/starkbank_trial/persistence/invoice_store.py:248-284 | So does every answered lookup of the reconciler. |
| `DraftTermination.LastAttemptFound` | src/starkbank_trial/persistence/invoice_store.py:248-258 | M + 1 attempts are met: for every pending draft before its last attempt, a create that times out and whose invoice the reconciler then finds. |
| `DraftTermination.RankZeroIsTerminal` | src/starkbank_trial/persistence/invoice_store.py:248-284 | A draft can take no more answers exactly when it is created or failed. |
| `DraftOutcomes.IssueLeaves` | src/starkbank_trial/application/trials.py:88-122 | What issuing makes of a listed draft, from its row and the answers: created with the invoice it got, failed if and only if refused for good or its attempts are used up, unknown if and only if the create timed out, and otherwise pending and due after the backoff; the tick ends only on an invoice of another tag. |
| `DraftOutcomes.ReconcileLeaves` | src/starkbank_trial/application/trials.py:124-141 | The same for a lookup of the reconciler: found, created; not found, unknown below the limit of lookups, then pending, or failed when its attempts are used up; an error changes nothing and ends the pass if and only if it is permanent. |
| `DraftOutcomes.DraftFailsForCause` | src/starkbank_trial/persistence/invoice_store.py:209-284 | Over any run of moves a failed draft was refused for good by the provider during the run, or used up its attempts. |
| `DraftOutcomes.PendingPageLists` | src/starkbank_trial/persistence/invoice_store.py:156-168 | A page lists a draft of its batch if and only if it is pending and its time has come. |
| `DraftOutcomes.UnknownPageLists` | src/starkbank_trial/persistence/invoice_store.py:170-182 | A page lists only unknown drafts whose time has come, and leaves one out only when it is full of drafts updated no later. |
| `TrialStore.BuildSchedule` | src/starkbank_trial/application/schedule.py:13-28 | A schedule exists exactly for eight counts from 8 to 12, with slot i three hours after slot i - 1. |
| `TrialStore.TrialStore.Create` | src/starkbank_trial/persistence/trial_store.py:107-137 | Inserts an active run with its eight batches, or nothing when one is active or a key is taken. |
| `TrialStore.TrialStore.ClaimDueBatch` | src/starkbank_trial/persistence/trial_store.py:139-184 | Leases the claimable batch scheduled first and counts the claim; without one, degrades. |
| `TrialStore.TrialStore.DegradeExhaustedBatches` | src/starkbank_trial/persistence/trial_store.py:186-219 | Degrades every open batch that used up its claims, and every run with a degraded batch. |
| `RunInvariants.RunsStep` | src/starkbank_trial/persistence/trial_store.py:107-219 | Every transaction keeps: a run is active exactly when it has the marker, at most one is, a run with a degraded batch is not, a run has its eight batches, no batch is claimed more than the cap; and no run becomes active again. |
| `Settlement.SettlesExactly` | src/starkbank_trial/persistence/invoice_store.py:286-319 | From the draft rows alone: a settled batch is completed if and only if it is full, degraded if and only if it is not and a draft failed, reconciling if and only if neither and a draft is unknown, and scheduled otherwise; its lease is gone; its run is degraded with it, completed when all its batches are, and otherwise keeps status and marker. |
| `Settlement.DegradesExactly` | src/starkbank_trial/persistence/trial_store.py:186-219 | A tick without a batch degrades exactly the open, due, unleased batches that used up their claims, and then the runs with a degraded batch. |
| `Settlement.DegradedForCause` | src/starkbank_trial/persistence/invoice_store.py:286-319 | Over any run of transactions, a degraded run had a batch that was settled with a failed draft and not full, or that used up its claims. |
| `Settlement.MovesDegradeForCause` | src/starkbank_trial/persistence/invoice_store.py:348-379 | The same over any run of the services' moves. |
| `Settlement.BatchClaimExactly` | src/starkbank_trial/persistence/trial_store.py:139-184 | In every reachable database a batch can be claimed if and only if it is due, not completed or degraded, has claims left, and since its last settlement was not claimed or its claim's lease has run out. |
| `Settlement.StartsExactly` | src/starkbank_trial/persistence/trial_store.py:107-137 | A run starts, with eight batches three hours apart, if and only if eight counts from 8 to 12 are given, it is new and no run is active. |
| `TickOutcomes.TickLeaves` | src/starkbank_trial/application/trials.py:70-86 | A tick that gets through counts one claim, stores a draft for every ordinal, issues each due draft of its batch once with its own answer, leaves every other draft, and settles the batch by the result. |
| `TickOutcomes.AcceptedTickCompletes` | src/starkbank_trial/application/trials.py:70-104 | The first tick over a batch gets through and completes it when the provider accepts every create with a new invoice. |
| `Settlement.TickReports` | src/starkbank_trial/application/trials.py:149-160 | What a tick reports tells the status its batch was settled with. |
| `TickOutcomes.ReconcilePassLeaves` | src/starkbank_trial/application/trials.py:124-144 | A pass that gets through rewrites each listed draft with an answer by that answer, leaves every other draft, and settles the batches of the answered drafts and no others. |
| `TruthfulCompletion.CompletedRunsAreTrue` | src/starkbank_trial/persistence/invoice_store.py:348-379 | Over any run of the services, a run marked completed has eight completed batches and no others, and its created drafts number exactly the sum of the targets, from 64 to 96. |
| `TruthfulCompletion.CompletionRun` | src/starkbank_trial/persistence/invoice_store.py:286-319 | Created drafts and completed batches never change status. |
| `TruthfulCompletion.CreatedAtMostTarget` | src/starkbank_trial/application/payers.py:14-33 | A batch never has more created drafts than its target. |
| `TruthfulCompletion.DegradedBatchCompletes` | src/starkbank_trial/persistence/invoice_store.py:286-379 | Degraded is not final: a batch with one failed and one unknown draft is completed by a late credit of the first and a pass that finds the second, and its run with it when the other batches are completed. |
| `ServiceRuns.StepIsMoves` | src/starkbank_trial/application/trials.py:70-144 | A tick, a reconciliation pass, a delivery, a start, a smoke run and a worker's transaction, also when the process dies part-way, is a run of the machine of moves, as trusted as its answers. |
| `ServiceRuns.ServiceRunsAreSafe` | src/starkbank_trial/application/trials.py:70-144 | Over any run of service steps: one payout per tag, bounded drafts, truthful completion. |
| `ServiceRuns.ServiceRunsKeep` | src/starkbank_trial/persistence/invoice_store.py:286-379 | From any state reached by service steps, later steps keep created drafts, completed batches and bindings. |
| `ServiceRuns.ServiceInvoicesExactly` | src/starkbank_trial/application/trials.py:88-122 | The exact number of remote invoices of a draft's tag, over service steps and under the same two assumptions on the provider. |
| `ServiceRuns.ServiceInvoices` | src/starkbank_trial/application/trials.py:88-122 | With an honest provider, service steps leave at most one invoice for a smoke tag, and at most one for a draft's tag when no tick dies between a create and its store write. |
| `SmokeBatch.SmokeBatchService.Run` | src/starkbank_trial/application/smoke.py:23-50 | One ordinal after another: registered, found or created, recorded; the invoices in order and the reused ones counted, or an error. |
| `SmokeBatch.SmokeBatchService.RunOne` | src/starkbank_trial/application/smoke.py:31-49 | A found invoice is reused; otherwise one is created, and an unknown outcome is looked up again before it is an error. |
| `SmokeIdempotence.OrdinalExactly` | src/starkbank_trial/application/smoke.py:31-49 | An ordinal gets through if and only if the invoice it finds, creates, or finds after a create of unknown outcome is the one its tag is bound to, or its tag is unbound and no tag has the invoice; it creates only when the lookup finds nothing. |
| `SmokeBatch.KeyInjective` | src/starkbank_trial/application/payers.py:43 | In one namespace the key of a smoke invoice determines its reference and ordinal, even for references with separators. |
| `SmokeIdempotence.SmokeIsIdempotent` | src/starkbank_trial/application/smoke.py:23-50 | After a full run of n ordinals and anything the services did since, a rerun of any count, also one that stops part-way, creates nothing and reuses every ordinal it gets through among the first n, handing back the same invoices in order, before it goes on to further ones. |
| `SmokeIdempotence.RerunReuses` | src/starkbank_trial/application/smoke.py:38-43 | Such a rerun gets through if and only if its process does not die and no lookup fails. |
| `SmokeIdempotence.RunRecords` | src/starkbank_trial/application/smoke.py:31-49 | Every ordinal a run got through is bound to its invoice, which the provider holds under the tag, and stays so. |
| `SmokeIdempotence.SmokeInvoicesDistinct` | src/starkbank_trial/application/smoke.py:27-50 | A run hands back a different invoice for each ordinal. |
| `SmokeIdempotence.SmokeIsMoves` | src/starkbank_trial/application/smoke.py:23-50 | A smoke run, complete or stopped, is a run of the machine of moves. |
| `Cursor.RoundTrip` | src/starkbank_trial/persistence/review_store.py:67-85 | Decoding a cursor gives back the instant and the identifier, also one with separators. |
| `Cursor.DecodesExactly` | src/starkbank_trial/persistence/review_store.py:72-85 | A cursor decodes to an instant and an identifier if and only if its text is one that parses as the instant, without a separator, then a separator, then the identifier. |
| `Cursor.IsUrlSafe` | src/starkbank_trial/persistence/review_store.py:67-69 | A cursor consists of letters, digits, '-' and '_'. |
| `Cursor.FirstSeparator` | src/starkbank_trial/persistence/review_store.py:78 | Splitting at the first separator splits where the instant ends. |
| `Base64Url.RoundTrip` | src/starkbank_trial/persistence/review_store.py:76-77 | Encoding, stripping the padding, padding back by the length and decoding is the identity on bytes. |
| `Base64Url.RepadIsLossless` | src/starkbank_trial/persistence/review_store.py:69-76 | Stripping '=' and padding by minus the length modulo 4 restores the encoding. |
| `Utf8.RoundTrip` | src/starkbank_trial/persistence/review_store.py:68-77 | Every text is what its UTF-8 encoding decodes to, strictly. |
| `Utf8.DecodesExactly` | src/starkbank_trial/persistence/review_store.py:77 | Bytes decode to a text if and only if they are its encoding. |
| `Base64Url.JunkIsSkipped` | src/starkbank_trial/persistence/review_store.py:76-77 | A character outside the alphabet changes nothing wherever it stands, unless it is outside ASCII, which is an error. |
| `Pagination.RefusesExactly` | src/starkbank_trial/persistence/review_store.py:72-85 | A fetch is refused if and only if it has a cursor that stands for no instant and identifier. |
| `Pagination.PagesAreOneScan` | src/starkbank_trial/persistence/review_store.py:401-424 | Following the cursors over a table ends, and collects exactly the matching rows in descending order of instant and identifier if and only if the limit is at least 1 or no row matches. |
| `Pagination.FollowDescends` | src/starkbank_trial/persistence/review_store.py:401-424 | Whatever appears or vanishes between fetches, the collected rows descend, so none comes twice. |
| `Pagination.StableRowOnce` | src/starkbank_trial/persistence/review_store.py:401-424 | A row that matches at every fetch is collected exactly once. |
| `Pagination.FetchPage` | src/starkbank_trial/persistence/review_store.py:88-97 | A page shows the first rows below its cursor, at most the limit, and hands back a cursor, to the last of them, exactly when there are more. |
| `ReviewTotals.TransferTotals` | src/starkbank_trial/persistence/review_store.py:109-143 | The totals of a trial are sums over the finished jobs that pay one of its invoices, each once, and amount equals fee plus net; without a trial they are zero. |
| `ReviewTotals.ReachableTotals` | src/starkbank_trial/persistence/review_store.py:109-127 | In every reachable database the sum over the join equals the sum over those jobs, and the totals add up. |
| `ReviewTotals.CountedByOwnership` | src/starkbank_trial/persistence/review_store.py:109-127 | The jobs counted for a run are the final ones whose invoice is bound to a tag of the run; no job counts for two runs, and without a run none does. |
| `ReviewTotals.JoinedOnce` | src/starkbank_trial/persistence/review_store.py:115-120 | A job occurs in at most one row of the join, because drafts' invoices are distinct. |

## Left out

- SQLAlchemy, the two dialects, savepoints, row locks and isolation levels: a transaction is atomic, and a
  savepoint that fails is a conflict.
- HTTP routes, authentication, rate limits, the command line, logging, configuration, migrations and
  deployment.
- Signature verification and SDK parsing: the model starts from a verified event.
- Payer names, tax ids, random amounts and random batch counts are arbitrary values; recipients,
  descriptions and transfer tags are not represented.
- Webhook registration and event listing.
- The filters, payloads and counts of the review store: the rows that match are a parameter of each fetch,
  and a row is the key it is ordered by. `report` and the other read-only summaries are left out.
- The format of instants is any lossless one whose text has no separator; the parser's treatment of other
  texts is a parameter.
- `sync_candidates` and the command that refreshes provider statuses: only the write it ends in is modelled.
- Running states of a worker loop between passes (sleeping, notifications).
- That a due draft or job is eventually taken up: no fairness of schedulers is assumed, so termination is
  stated as bounds on what can happen, not as a time.
- Created drafts as permanent and guarded settlement under free transaction interleaving, and a provider timestamp
  that a recorded result or a refresh of the same job cannot move back: the code does not guarantee them, because
  `_transition`, `settle`, `_finish` and the refresh overwrite those columns.
