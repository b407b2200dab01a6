/** Every store transaction as a step on the database, grouped by the tables it writes. */
module Transactions {
  import opened Domain
  import opened Tables
  import ES = EventStore
  import IS = InvoiceStore
  import TS = TransferStore
  import RS = TrialStore

  /** Deliveries: they write events and jobs, owned rows and drafts. */
  datatype EventTxn =
    | Deliver(event: Event, digest: Digest, at: Time, jobId: JobId)
    | DeliverForeign(event: Event, digest: Digest, at: Time)

  /** Writes of owned rows and drafts. */
  datatype InvoiceTxn =
    | SaveDrafts(batch: BatchId, amounts: seq<Cents>, at: Time)
    | RegisterSmoke(key: string, at: Time)
    | BindInvoice(tag: Tag, invoice: InvoiceId, at: Time)
    | MarkCreated(draft: DraftId, invoice: InvoiceId, at: Time)
    | MarkUnknown(failure: IS.DraftFailure)
    | MarkFailed(failure: IS.DraftFailure)
    | RetryDraft(failure: IS.DraftFailure, delay: int, maxAttempts: int)
    | ReconcileDraft(seen: IS.InvoiceDraft, found: Option<InvoiceId>, at: Time, maxAttempts: int,
                     maxReconciles: int, delay: int)

  /** Writes of batches and runs. */
  datatype RunTxn =
    | SettleBatch(batch: BatchId, at: Time)
    | StartRun(run: RunId, start: Time, counts: seq<int>)
    | LeaseBatch(batch: BatchId, at: Time, leaseUntil: Time)
    | DegradeBatches(at: Time)

  /** Writes of transfer jobs. */
  datatype JobTxn =
    | LeaseJob(job: JobId, at: Time, leaseUntil: Time)
    | FinishJob(claim: TS.Claim, finish: TS.Finish, at: Time)
    | RefreshJob(job: JobId, transfer: TransferId, status: string, at: Time)

  datatype Txn = OfEvents(e: EventTxn) | OfInvoices(i: InvoiceTxn) | OfRuns(r: RunTxn) | OfJobs(j: JobTxn)

  ghost function EventStep(db: Db, txn: EventTxn): Db {
    match txn
    case Deliver(event, digest, at, jobId) => After(db, ES.Record(db, MakeRecord(event, digest, at), jobId))
    case DeliverForeign(event, digest, at) =>
      After(db, ES.RecordForeignWorkspace(db, EventRecord(event, digest, at, None)))
  }

  ghost function InvoiceStep(db: Db, txn: InvoiceTxn): Db {
    match txn
    case SaveDrafts(batch, amounts, at) => After(db, IS.Save(db, batch, amounts, at))
    case RegisterSmoke(key, at) => IS.RegisterSmoke(db, SmokeTag(key), at)
    case BindInvoice(tag, invoice, at) => After(db, IS.Bind(db, tag, invoice, at))
    case MarkCreated(d, invoice, at) => After(db, IS.Created(db, d, invoice, at))
    case MarkUnknown(f) => After(db, IS.UnknownResult(db, f))
    case MarkFailed(f) => After(db, IS.Failed(db, f))
    case RetryDraft(f, delay, max) => After(db, IS.Retry(db, f, delay, max))
    case ReconcileDraft(seen, found, at, max, maxR, delay) =>
      After(db, IS.Reconcile(db, seen, found, at, max, maxR, delay))
  }

  /** The cap on the claims of a batch is fixed. */
  function RunStep(db: Db, txn: RunTxn, maxClaims: int): Db {
    match txn
    case SettleBatch(batch, at) => After(db, IS.Settle(db, batch, at))
    case StartRun(run, start, counts) =>
      var schedule := RS.BuildSchedule(start, counts);
      if schedule.None? then db else After(db, RS.CreateRun(db, run, start, schedule.value))
    case LeaseBatch(b, at, leaseUntil) =>
      if b in db.batches && RS.BatchClaimable(db.batches[b], at, maxClaims) then RS.ClaimBatch(db, b, leaseUntil)
      else db
    case DegradeBatches(at) => RS.DegradeExhausted(db, at, maxClaims)
  }

  ghost function JobStep(jobs: map<JobId, JobRow>, txn: JobTxn): map<JobId, JobRow> {
    match txn
    case LeaseJob(j, at, leaseUntil) =>
      if j in jobs && TS.Claimable(jobs[j], at) then jobs[j := TS.ClaimedRow(jobs[j], at, leaseUntil)] else jobs
    case FinishJob(claim, f, at) => TS.AfterFinish(jobs, TS.FinishJob(jobs, claim, f, at))
    case RefreshJob(j, transfer, status, at) => TS.Refresh(jobs, j, transfer, status, at)
  }

  ghost function Step(db: Db, txn: Txn, maxClaims: int): Db {
    match txn
    case OfEvents(e) => EventStep(db, e)
    case OfInvoices(i) => InvoiceStep(db, i)
    case OfRuns(r) => RunStep(db, r, maxClaims)
    case OfJobs(j) => db.(jobs := JobStep(db.jobs, j))
  }

  /** A sequence of transactions, whoever starts them. */
  ghost function RunTxns(db: Db, txns: seq<Txn>, maxClaims: int): Db
    decreases |txns|
  {
    if txns == [] then db else RunTxns(Step(db, txns[0], maxClaims), txns[1..], maxClaims)
  }

  /** Deliveries whose digest determines the event: what a collision-free digest of the verified body gives. */
  ghost predicate Authentic(txn: EventTxn, decode: Digest -> Event) {
    txn.Deliver? ==> txn.event == decode(txn.digest)
  }

  lemma EventFrame(db: Db, txn: EventTxn)
    ensures var db' := EventStep(db, txn); db'.batches == db.batches && db'.runs == db.runs
  {
    if txn.Deliver? && !txn.event.Lifecycle? {
      ES.RecordEffect(db, MakeRecord(txn.event, txn.digest, txn.at), txn.jobId);
    }
  }

  lemma InvoiceFrame(db: Db, txn: InvoiceTxn)
    ensures var db' := InvoiceStep(db, txn); db' == db.(owned := db'.owned, drafts := db'.drafts)
  {
  }

  lemma RunFrame(db: Db, txn: RunTxn, maxClaims: int)
    ensures var db' := RunStep(db, txn, maxClaims); db' == db.(batches := db'.batches, runs := db'.runs)
  {
  }
}
