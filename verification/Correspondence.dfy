/** Stored events and transfer jobs: their one-to-one correspondence and what of them never changes. */
module Correspondence {
  import opened Domain
  import opened Tables
  import opened Transactions
  import ES = EventStore
  import TS = TransferStore

  ghost predicate JobOfEvent(events: map<EventId, EventRow>, job: JobRow) {
    && job.event in events
    && events[job.event].outcome.Queued?
    && events[job.event].invoice == Some(job.invoice)
    && job.amount == job.fee + job.net && job.net > 0 && job.fee >= 0
  }

  ghost predicate HasJobOf(jobs: map<JobId, JobRow>, e: EventId) {
    exists j :: j in jobs && jobs[j].event == e
  }

  /** A stored event that waits for its invoice names the invoice of the event its digest stands for. */
  ghost predicate Waiting(row: EventRow, decode: Digest -> Event) {
    row.outcome.InvoiceUnknown? ==> decode(row.digest).Credited? && row.invoice == Some(decode(row.digest).invoice)
  }

  /** Queued events and jobs correspond one to one through the event id, with matching invoices; each
      job's amounts add up. */
  ghost predicate Corresponds(events: map<EventId, EventRow>, jobs: map<JobId, JobRow>, decode: Digest -> Event) {
    && JobKeys(jobs)
    && (forall j :: j in jobs ==> JobOfEvent(events, jobs[j]))
    && (forall e :: e in events && events[e].outcome.Queued? ==> HasJobOf(jobs, e))
    && (forall e :: e in events ==> Waiting(events[e], decode))
  }

  /** A job row changed only in the columns that track its dispatch. */
  predicate SameJob(a: JobRow, b: JobRow) {
    && a.event == b.event && a.invoice == b.invoice && a.amount == b.amount && a.fee == b.fee && a.net == b.net
    && a.external == b.external && a.createdAt == b.createdAt
  }

  /** Storing an event row that is not queued. */
  lemma CorrespondenceNewEvent(events: map<EventId, EventRow>, jobs: map<JobId, JobRow>, decode: Digest -> Event,
                               e: EventId, row: EventRow)
    requires Corresponds(events, jobs, decode) && !row.outcome.Queued? && Waiting(row, decode)
    requires e in events ==> events[e].outcome.InvoiceUnknown?
    ensures Corresponds(events[e := row], jobs, decode)
  {
    forall j | j in jobs ensures JobOfEvent(events[e := row], jobs[j]) {
      assert JobOfEvent(events, jobs[j]);
    }
  }

  /** Storing a queued event together with its job. */
  lemma CorrespondenceNewJob(events: map<EventId, EventRow>, jobs: map<JobId, JobRow>, decode: Digest -> Event,
                             e: EventId, row: EventRow, j: JobId, job: JobRow)
    requires Corresponds(events, jobs, decode)
    requires e in events ==> events[e].outcome.InvoiceUnknown?
    requires row.outcome.Queued? && j !in jobs && job.event == e && JobOfEvent(events[e := row], job)
    requires job.external == TrialTransfer(job.invoice) && job.providerTransfer.None? && !ES.HasJob(jobs, job.invoice)
    ensures Corresponds(events[e := row], jobs[j := job], decode)
  {
    var events', jobs' := events[e := row], jobs[j := job];
    forall k | k in jobs' ensures JobOfEvent(events', jobs'[k]) {
      assert k in jobs ==> JobOfEvent(events, jobs[k]);
    }
    forall x | x in events' && events'[x].outcome.Queued? ensures HasJobOf(jobs', x) {
      if x == e {
        assert jobs'[j].event == e;
      } else {
        assert HasJobOf(jobs, x);
        var k :| k in jobs && jobs[k].event == x;
        assert k in jobs' && jobs'[k].event == x;
      }
    }
    assert forall k :: k in jobs ==> jobs[k].event != e by {
      forall k | k in jobs ensures jobs[k].event != e {
        assert JobOfEvent(events, jobs[k]);
      }
    }
  }

  lemma KeysJobWrite(jobs: map<JobId, JobRow>, j: JobId, job: JobRow)
    requires JobKeys(jobs) && j in jobs && SameJob(jobs[j], job)
    requires job.providerTransfer.Some? && job.providerTransfer != jobs[j].providerTransfer ==>
               !ES.TransferTaken(jobs, j, job.providerTransfer.value)
    ensures JobKeys(jobs[j := job])
  {
  }

  lemma QueuedJobWrite(events: map<EventId, EventRow>, jobs: map<JobId, JobRow>, j: JobId, job: JobRow)
    requires j in jobs && SameJob(jobs[j], job)
    requires forall k :: k in jobs ==> JobOfEvent(events, jobs[k])
    requires forall e :: e in events && events[e].outcome.Queued? ==> HasJobOf(jobs, e)
    ensures var jobs' := jobs[j := job];
            (forall k :: k in jobs' ==> JobOfEvent(events, jobs'[k]))
            && forall e :: e in events && events[e].outcome.Queued? ==> HasJobOf(jobs', e)
  {
    var jobs' := jobs[j := job];
    forall x | x in events && events[x].outcome.Queued? ensures HasJobOf(jobs', x) {
      var k :| k in jobs && jobs[k].event == x;
      assert k in jobs' && jobs'[k].event == x;
    }
  }

  /** Rewriting the dispatch columns of a job. */
  lemma CorrespondenceJobWrite(events: map<EventId, EventRow>, jobs: map<JobId, JobRow>, decode: Digest -> Event,
                               j: JobId, job: JobRow)
    requires Corresponds(events, jobs, decode) && j in jobs && SameJob(jobs[j], job)
    requires job.providerTransfer.Some? && job.providerTransfer != jobs[j].providerTransfer ==>
               !ES.TransferTaken(jobs, j, job.providerTransfer.value)
    ensures Corresponds(events, jobs[j := job], decode)
  {
    KeysJobWrite(jobs, j, job);
    QueuedJobWrite(events, jobs, j, job);
  }

  lemma CorrespondenceDeliver(db: Db, rec: EventRecord, jobId: JobId, decode: Digest -> Event)
    requires Corresponds(db.events, db.jobs, decode) && WellFormed(rec) && rec.event == decode(rec.digest)
    requires !rec.event.Lifecycle?
    ensures var db' := After(db, ES.Record(db, rec, jobId)); Corresponds(db'.events, db'.jobs, decode)
  {
    ES.RecordEffect(db, rec, jobId);
    var r := ES.Record(db, rec, jobId);
    if r.Committed? {
      var row := ES.StoredRow(db, rec, r.value);
      if r.value.Queued? {
        CorrespondenceNewJob(db.events, db.jobs, decode, rec.event.id, row, jobId,
                             ES.NewJob(rec.event, rec.net.value, rec.receivedAt));
      } else if r.db != db {
        CorrespondenceNewEvent(db.events, db.jobs, decode, rec.event.id, row);
      }
    }
  }

  lemma CorrespondenceLifecycle(db: Db, rec: EventRecord, decode: Digest -> Event)
    requires Corresponds(db.events, db.jobs, decode) && rec.event.Lifecycle?
    ensures var db' := After(db, ES.RecordTransfer(db, rec)); Corresponds(db'.events, db'.jobs, decode)
  {
    var found := ES.JobAt(db.jobs, rec.event.external);
    if rec.event.id !in db.events {
      var outcome := ES.LifecycleOutcome(if found.Some? then Some(db.jobs[found.value]) else None, rec.event);
      var row := ES.EventRowOf(rec, outcome);
      CorrespondenceNewEvent(db.events, db.jobs, decode, rec.event.id, row);
      if outcome.TransferUpdated? && !ES.TransferTaken(db.jobs, found.value, rec.event.transfer) {
        CorrespondenceJobWrite(db.events[rec.event.id := row], db.jobs, decode, found.value,
                               ES.UpdateStatus(db.jobs[found.value], rec.event, rec.receivedAt));
      }
    }
  }

  lemma CorrespondenceDispatch(db: Db, txn: JobTxn, decode: Digest -> Event)
    requires Corresponds(db.events, db.jobs, decode)
    ensures Corresponds(db.events, JobStep(db.jobs, txn), decode)
  {
    match txn
    case LeaseJob(j, at, leaseUntil) =>
      if j in db.jobs && TS.Claimable(db.jobs[j], at) {
        CorrespondenceJobWrite(db.events, db.jobs, decode, j, TS.ClaimedRow(db.jobs[j], at, leaseUntil));
      }
    case FinishJob(claim, f, at) =>
      if TS.FinishJob(db.jobs, claim, f, at).Finished? {
        CorrespondenceJobWrite(db.events, db.jobs, decode, claim.id, TS.FinishedRow(db.jobs[claim.id], f, at));
      }
    case RefreshJob(j, transfer, status, at) =>
      if j in db.jobs && !ES.TransferTaken(db.jobs, j, transfer) {
        CorrespondenceJobWrite(db.events, db.jobs, decode, j, TS.RefreshedRow(db.jobs[j], transfer, status, at));
      }
  }

  lemma CorrespondenceStep(db: Db, txn: Txn, maxClaims: int, decode: Digest -> Event)
    requires Corresponds(db.events, db.jobs, decode) && (txn.OfEvents? ==> Authentic(txn.e, decode))
    ensures var db' := Step(db, txn, maxClaims); Corresponds(db'.events, db'.jobs, decode)
  {
    match txn
    case OfEvents(e) =>
      var rec := MakeRecord(e.event, e.digest, e.at);
      if e.DeliverForeign? {
        if e.event.id !in db.events {
          CorrespondenceNewEvent(db.events, db.jobs, decode, e.event.id,
                                 ES.EventRowOf(EventRecord(e.event, e.digest, e.at, None), IgnoredWorkspace));
        }
      } else if e.event.Lifecycle? {
        CorrespondenceLifecycle(db, rec, decode);
      } else {
        CorrespondenceDeliver(db, rec, e.jobId, decode);
      }
    case OfInvoices(i) => InvoiceFrame(db, i);
    case OfRuns(r) => RunFrame(db, r, maxClaims);
    case OfJobs(j) => CorrespondenceDispatch(db, j, decode);
  }

  /** An outcome changes only from "invoice unknown" to "queued" or "duplicate invoice". */
  predicate OutcomeKept(row: EventRow, row': EventRow) {
    || row' == row
    || (row.outcome.InvoiceUnknown? && (row' == row.(outcome := Queued) || row' == row.(outcome := DuplicateInvoice)))
  }

  /** What no transaction changes in a job: its identity and amounts, and a terminal status. Claims only add up. */
  predicate JobKept(row: JobRow, row': JobRow) {
    SameJob(row, row') && (row.status.Terminal() ==> row'.status == row.status) && row.attempts <= row'.attempts
  }

  /** Events and jobs are never deleted; events keep their outcome, jobs their identity and final status. */
  ghost predicate HistoryKept(db: Db, db': Db) {
    && (forall e :: e in db.events ==> e in db'.events && OutcomeKept(db.events[e], db'.events[e]))
    && (forall j :: j in db.jobs ==> j in db'.jobs && JobKept(db.jobs[j], db'.jobs[j]))
  }

  lemma HistoryLifecycle(db: Db, rec: EventRecord)
    requires rec.event.Lifecycle?
    ensures HistoryKept(db, After(db, ES.RecordTransfer(db, rec)))
  {
  }

  lemma HistoryDeliver(db: Db, rec: EventRecord, jobId: JobId)
    ensures HistoryKept(db, After(db, ES.Record(db, rec, jobId)))
  {
    if rec.event.Lifecycle? {
      HistoryLifecycle(db, rec);
    } else {
      ES.RecordEffect(db, rec, jobId);
    }
  }

  lemma HistoryDispatch(jobs: map<JobId, JobRow>, txn: JobTxn)
    ensures forall j :: j in jobs ==> j in JobStep(jobs, txn) && JobKept(jobs[j], JobStep(jobs, txn)[j])
  {
  }

  lemma HistoryStep(db: Db, txn: Txn, maxClaims: int)
    ensures HistoryKept(db, Step(db, txn, maxClaims))
  {
    match txn
    case OfEvents(e) =>
      if e.Deliver? {
        HistoryDeliver(db, MakeRecord(e.event, e.digest, e.at), e.jobId);
      }
    case OfInvoices(i) => InvoiceFrame(db, i);
    case OfRuns(r) => RunFrame(db, r, maxClaims);
    case OfJobs(j) => HistoryDispatch(db.jobs, j);
  }

  lemma HistoryTransitive(a: Db, b: Db, c: Db)
    requires HistoryKept(a, b) && HistoryKept(b, c)
    ensures HistoryKept(a, c)
  {
    forall e | e in a.events ensures e in c.events && OutcomeKept(a.events[e], c.events[e]) {
      assert OutcomeKept(a.events[e], b.events[e]);
    }
    forall j | j in a.jobs ensures j in c.jobs && JobKept(a.jobs[j], c.jobs[j]) {
      assert JobKept(a.jobs[j], b.jobs[j]);
    }
  }
}
