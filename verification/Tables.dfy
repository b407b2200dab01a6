/** The six tables, as one immutable value for specifications and as one mutable object for the stores. */
module Tables {
  import opened Domain

  datatype EventRow = EventRow(
    subscription: string, logType: string, invoice: Option<InvoiceId>, transfer: Option<TransferId>,
    workspace: string, digest: Digest, outcome: Outcome, receivedAt: Time)

  datatype JobRow = JobRow(
    event: EventId, invoice: InvoiceId, amount: Cents, fee: Cents, net: Cents, external: ExternalId,
    status: JobStatus, attempts: nat, nextAttemptAt: Time, leaseUntil: Option<Time>,
    providerTransfer: Option<TransferId>, providerStatus: Option<string>, providerLogType: Option<string>,
    providerStatusAt: Option<Time>, lastError: Option<string>, createdAt: Time, updatedAt: Time)

  datatype OwnedRow = OwnedRow(
    provider: Option<InvoiceId>, draft: Option<DraftId>, createdAt: Time, updatedAt: Time)

  datatype DraftRow = DraftRow(
    amount: Cents, status: DraftStatus, provider: Option<InvoiceId>, attempts: nat, reconciles: nat,
    lastError: Option<string>, createdAt: Time, updatedAt: Time, nextAttemptAt: Time)

  datatype BatchRow = BatchRow(
    scheduledAt: Time, target: nat, status: BatchStatus, leaseUntil: Option<Time>, attempts: nat,
    completedAt: Option<Time>)

  datatype RunRow = RunRow(
    status: RunStatus, startedAt: Time, endsAt: Time, completedAt: Option<Time>, marker: bool)

  datatype Db = Db(
    events: map<EventId, EventRow>,
    jobs: map<JobId, JobRow>,
    owned: map<Tag, OwnedRow>,
    drafts: map<DraftId, DraftRow>,
    batches: map<BatchId, BatchRow>,
    runs: map<RunId, RunRow>)

  /** A transaction commits a new database with a result, or rolls back on a broken constraint or a refusal. */
  datatype Tx<+T> = Committed(db: Db, value: T) | RolledBack

  /** The database after a transaction: one that rolls back leaves it as it was. */
  function After<T>(db: Db, tx: Tx<T>): Db {
    if tx.Committed? then tx.db else db
  }

  const EMPTY_DB: Db := Db(map[], map[], map[], map[], map[], map[])

  /** The database object the stores share. Every store method is one transaction on it. */
  class Database {
    var events: map<EventId, EventRow>
    var jobs: map<JobId, JobRow>
    var owned: map<Tag, OwnedRow>
    var drafts: map<DraftId, DraftRow>
    var batches: map<BatchId, BatchRow>
    var runs: map<RunId, RunRow>

    function View(): Db
      reads this
    {
      Db(events, jobs, owned, drafts, batches, runs)
    }

    constructor ()
      ensures View() == EMPTY_DB
    {
      events, jobs, owned, drafts, batches, runs := map[], map[], map[], map[], map[], map[];
    }

    /** Rolls the transaction back to the state it started from. */
    method Rollback(start: Db)
      modifies this
      ensures View() == start
    {
      events, jobs, owned := start.events, start.jobs, start.owned;
      drafts, batches, runs := start.drafts, start.batches, start.runs;
    }
  }

  // ---- The uniqueness constraints of the schema ----

  /** transfer_jobs: event_id, invoice_id and provider_transfer_id are unique; external_id derives from invoice_id. */
  ghost predicate JobKeys(jobs: map<JobId, JobRow>) {
    && (forall j :: j in jobs ==> jobs[j].external == TrialTransfer(jobs[j].invoice))
    && (forall j, k :: j in jobs && k in jobs && jobs[j].event == jobs[k].event ==> j == k)
    && (forall j, k :: j in jobs && k in jobs && jobs[j].invoice == jobs[k].invoice ==> j == k)
    && (forall j, k | j in jobs && k in jobs && jobs[j].providerTransfer == jobs[k].providerTransfer ::
          jobs[j].providerTransfer.Some? ==> j == k)
  }

  /** owned_invoices: provider_invoice_id is unique. */
  ghost predicate OwnedKeys(owned: map<Tag, OwnedRow>) {
    forall t, u | t in owned && u in owned && owned[t].provider == owned[u].provider ::
      owned[t].provider.Some? ==> t == u
  }

  /** invoice_drafts: provider_invoice_id is unique. */
  ghost predicate DraftKeys(drafts: map<DraftId, DraftRow>) {
    forall d, e | d in drafts && e in drafts && drafts[d].provider == drafts[e].provider ::
      drafts[d].provider.Some? ==> d == e
  }

  /** trial_runs: active_marker is unique. */
  ghost predicate RunKeys(runs: map<RunId, RunRow>) {
    forall r, s :: r in runs && s in runs && runs[r].marker && runs[s].marker ==> r == s
  }

  ghost predicate Schema(db: Db) {
    JobKeys(db.jobs) && OwnedKeys(db.owned) && DraftKeys(db.drafts) && RunKeys(db.runs)
  }
}
