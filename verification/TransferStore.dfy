/** Leases on transfer jobs and their fenced completion (persistence/transfer_store.py). */
module TransferStore {
  import opened Domain
  import opened Tables
  import opened Collections
  import EventStore

  /** A claimed job in the hands of a worker: the columns as claimed, and the lease that fences its result. */
  datatype Claim = Claim(
    id: JobId, event: EventId, invoice: InvoiceId, amount: Cents, fee: Cents, net: Cents,
    external: ExternalId, attempts: nat, leaseUntil: Time, claimedFrom: JobStatus)

  /** What a worker reports. */
  datatype Finish =
    | Succeed(transfer: TransferId, status: string)
    | RetryLater(error: string, delay: int)
    | AwaitLookup(error: string, delay: int)
    | GiveUp(error: string)

  predicate Claimable(row: JobRow, now: Time) {
    || ((row.status.JobPending? || row.status.JobUnknown?) && row.nextAttemptAt <= now)
    || (row.status.JobProcessing? && row.leaseUntil.Some? && row.leaseUntil.value <= now)
  }

  function ClaimedRow(row: JobRow, now: Time, leaseUntil: Time): JobRow {
    row.(status := JobProcessing, attempts := row.attempts + 1, leaseUntil := Some(leaseUntil), updatedAt := now)
  }

  function ClaimOf(j: JobId, row: JobRow, leaseUntil: Time): Claim {
    Claim(j, row.event, row.invoice, row.amount, row.fee, row.net, row.external, row.attempts + 1, leaseUntil,
          row.status)
  }

  function FinishedRow(row: JobRow, f: Finish, now: Time): JobRow {
    var done := row.(
      leaseUntil := None, providerTransfer := None, providerStatus := None, providerLogType := None,
      providerStatusAt := None, nextAttemptAt := now, updatedAt := now);
    match f
    case Succeed(transfer, status) =>
      done.(status := JobSucceeded, providerTransfer := Some(transfer), providerStatus := Some(status),
            providerStatusAt := Some(now), lastError := None)
    case RetryLater(error, delay) =>
      done.(status := JobPending, nextAttemptAt := now + delay, lastError := Some(error))
    case AwaitLookup(error, delay) =>
      done.(status := JobUnknown, nextAttemptAt := now + delay, lastError := Some(error))
    case GiveUp(error) =>
      done.(status := JobPermanentFailure, lastError := Some(error))
  }

  /** The fence: the job is still processed under the lease of the claim. */
  predicate Holds(jobs: map<JobId, JobRow>, claim: Claim) {
    && claim.id in jobs
    && jobs[claim.id].status.JobProcessing?
    && jobs[claim.id].leaseUntil == Some(claim.leaseUntil)
  }

  datatype Finishing = Finished(jobs: map<JobId, JobRow>) | Fenced | FinishConflict

  ghost function FinishJob(jobs: map<JobId, JobRow>, claim: Claim, f: Finish, now: Time): Finishing {
    if !Holds(jobs, claim) then Fenced
    else if f.Succeed? && EventStore.TransferTaken(jobs, claim.id, f.transfer) then FinishConflict
    else Finished(jobs[claim.id := FinishedRow(jobs[claim.id], f, now)])
  }

  ghost function AfterFinish(jobs: map<JobId, JobRow>, r: Finishing): map<JobId, JobRow> {
    if r.Finished? then r.jobs else jobs
  }

  function RefreshedRow(row: JobRow, transfer: TransferId, status: string, now: Time): JobRow {
    row.(providerTransfer := Some(transfer), providerStatus := Some(status), providerStatusAt := Some(now),
         updatedAt := now)
  }

  /** The unguarded refresh of a job's provider status by the operator's command. */
  ghost function Refresh(jobs: map<JobId, JobRow>, j: JobId, transfer: TransferId, status: string, now: Time)
    : map<JobId, JobRow>
  {
    if j !in jobs || EventStore.TransferTaken(jobs, j, transfer) then jobs
    else jobs[j := RefreshedRow(jobs[j], transfer, status, now)]
  }

  class TransferStore {
    const db: Database

    constructor (db: Database)
      ensures this.db == db
    {
      this.db := db;
    }

    /** Leases the claimable job whose next attempt is due first. */
    method ClaimJob(now: Time, leaseUntil: Time) returns (r: Option<Claim>)
      modifies db`jobs
      ensures r.None? ==> db.jobs == old(db.jobs) && forall j :: j in db.jobs ==> !Claimable(db.jobs[j], now)
      ensures r.Some? ==>
                && r.value.id in old(db.jobs)
                && Claimable(old(db.jobs)[r.value.id], now)
                && (forall j :: j in old(db.jobs) && Claimable(old(db.jobs)[j], now) ==>
                      old(db.jobs)[r.value.id].nextAttemptAt <= old(db.jobs)[j].nextAttemptAt)
                && r.value == ClaimOf(r.value.id, old(db.jobs)[r.value.id], leaseUntil)
                && db.jobs == old(db.jobs)[r.value.id := ClaimedRow(old(db.jobs)[r.value.id], now, leaseUntil)]
    {
      var rows := db.jobs;
      var due := set j | j in rows && Claimable(rows[j], now);
      if due == {} {
        assert forall j :: j in rows && Claimable(rows[j], now) ==> j in due;
        return None;
      }
      LeastExists(due, (j: JobId) => if j in rows then rows[j].nextAttemptAt else 0);
      var j :| j in due && forall k :: k in due ==> rows[j].nextAttemptAt <= rows[k].nextAttemptAt;
      var row := rows[j];
      db.jobs := db.jobs[j := row.(
        status := JobProcessing, attempts := row.attempts + 1, leaseUntil := Some(leaseUntil), updatedAt := now)];
      return Some(Claim(j, row.event, row.invoice, row.amount, row.fee, row.net, row.external, row.attempts + 1,
                        leaseUntil, row.status));
    }

    /** Records a worker's result under its lease. False means fenced; None is an integrity error. */
    method FinishClaim(claim: Claim, f: Finish, now: Time) returns (r: Option<bool>)
      modifies db`jobs
      ensures db.jobs == AfterFinish(old(db.jobs), FinishJob(old(db.jobs), claim, f, now))
      ensures match FinishJob(old(db.jobs), claim, f, now)
              case Finished(_) => r == Some(true)
              case Fenced => r == Some(false)
              case FinishConflict => r == None
    {
      if claim.id !in db.jobs || !db.jobs[claim.id].status.JobProcessing?
        || db.jobs[claim.id].leaseUntil != Some(claim.leaseUntil)
      {
        return Some(false);
      }
      if f.Succeed? && exists k :: k in db.jobs && k != claim.id && db.jobs[k].providerTransfer == Some(f.transfer) {
        return None;
      }
      db.jobs := db.jobs[claim.id := FinishedRow(db.jobs[claim.id], f, now)];
      return Some(true);
    }

    method RefreshProviderStatus(j: JobId, transfer: TransferId, status: string, now: Time)
      modifies db`jobs
      ensures db.jobs == Refresh(old(db.jobs), j, transfer, status, now)
    {
      if j in db.jobs && !exists k :: k in db.jobs && k != j && db.jobs[k].providerTransfer == Some(transfer) {
        db.jobs := db.jobs[j := RefreshedRow(db.jobs[j], transfer, status, now)];
      }
    }
  }
}
