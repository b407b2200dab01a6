/** What redelivering an event does, and which deliveries end with a job for their invoice. */
module Redelivery {
  import opened Domain
  import opened Tables
  import opened OwnershipMirror
  import opened Correspondence
  import opened EventStore

  /** Whether and where a credit is attributed does not depend on when it is received. */
  lemma AttributionAnytime(db: Db, rec: EventRecord, again: Time)
    requires rec.event.Credited?
    ensures var a, a' := AttributionOf(db, rec), AttributionOf(db, rec.(receivedAt := again));
            a.Refused? == a'.Refused? && a.AttributionConflict? == a'.AttributionConflict?
  {
  }

  lemma RecordTransferTwice(db: Db, rec: EventRecord, again: Time)
    requires rec.event.Lifecycle?
    ensures var db' := After(db, RecordTransfer(db, rec));
            After(db', RecordTransfer(db', rec.(receivedAt := again))) == db'
  {
  }

  /** Recording a record again, at any later time, leaves the database as after the first time. */
  lemma RecordTwice(db: Db, rec: EventRecord, jobId: JobId, again: Time, jobId': JobId)
    ensures var db' := After(db, Record(db, rec, jobId));
            After(db', Record(db', rec.(receivedAt := again), jobId')) == db'
  {
    var rec' := rec.(receivedAt := again);
    var db' := After(db, Record(db, rec, jobId));
    if rec.event.Lifecycle? {
      RecordTransferTwice(db, rec, again);
    } else if db' == db && rec.event.Credited? {
      RecordUnchanged(db, rec, jobId, again, jobId');
    } else {
      RecordSettles(db, rec, jobId);
      KnownEventUnchanged(db', rec', jobId');
    }
  }

  /** A delivery that changes nothing changes nothing later. */
  lemma RecordUnchanged(db: Db, rec: EventRecord, jobId: JobId, again: Time, jobId': JobId)
    requires rec.event.Credited? && After(db, Record(db, rec, jobId)) == db
    ensures After(db, Record(db, rec.(receivedAt := again), jobId')) == db
  {
    var rec' := rec.(receivedAt := again);
    RecordEffect(db, rec, jobId);
    RecordEffect(db, rec', jobId');
    AttributionAnytime(db, rec, again);
  }

  /** A stored event has nothing left to do: it no longer waits, or no row can be attributed its credit. */
  ghost predicate NothingToDo(db: Db, rec: EventRecord) {
    rec.event.id in db.events && (!Promotable(db, rec) || AttributionOf(db, rec).Refused?)
  }

  /** A delivery that changes something leaves nothing to do, whenever it comes again. */
  lemma RecordSettles(db: Db, rec: EventRecord, jobId: JobId)
    requires !rec.event.Lifecycle?
    ensures var db' := After(db, Record(db, rec, jobId));
            (db' != db ==> forall t: Time :: NothingToDo(db', rec.(receivedAt := t)))
            && (rec.event.Ignored? ==> rec.event.id in db'.events)
  {
    RecordEffect(db, rec, jobId);
  }

  lemma KnownEventUnchanged(db: Db, rec: EventRecord, jobId: JobId)
    requires !rec.event.Lifecycle? && rec.event.id in db.events && (rec.event.Credited? ==> NothingToDo(db, rec))
    ensures After(db, Record(db, rec, jobId)) == db
  {
  }

  /** An attributable credit that is new, or waits for its invoice, queues a job unless its invoice has one. */
  ghost predicate Attributes(db: Db, event: Event)
    requires event.Credited?
  {
    exists t :: Attributable(db.owned, event.invoice, event.tags, t)
  }

  ghost predicate OneJob(jobs: map<JobId, JobRow>, invoice: InvoiceId) {
    HasJob(jobs, invoice)
    && forall j, k :: j in jobs && k in jobs && jobs[j].invoice == invoice && jobs[k].invoice == invoice ==> j == k
  }

  /** In a reachable database no constraint refuses the job of an eligible credit. */
  lemma JobAccepted(db: Db, rec: EventRecord, jobId: JobId, decode: Digest -> Event)
    requires Corresponds(db.events, db.jobs, decode) && WellFormed(rec) && Eligible(db, rec) && jobId !in db.jobs
    ensures !JobInsertRefused(db.jobs, rec.event, rec.net.value, jobId)
  {
    forall j | j in db.jobs ensures db.jobs[j].event != rec.event.id {
      assert JobOfEvent(db.events, db.jobs[j]);
    }
  }

  /** In a reachable database, a valid credit that is new or waits for its invoice ends with exactly one job
      for the invoice if and only if it is attributable or the invoice has a job already; it is reported as
      queued, as a duplicate, or as unknown accordingly. */
  lemma CreditQueuesOneJob(db: Db, rec: EventRecord, jobId: JobId, decode: Digest -> Event)
    requires Mirror(db.owned, db.drafts) && Corresponds(db.events, db.jobs, decode)
    requires WellFormed(rec) && rec.event.Credited? && 0 <= rec.event.fee < rec.event.amount
    requires rec.event.id !in db.events || Promotable(db, rec)
    requires jobId !in db.jobs
    ensures var r := Record(db, rec, jobId);
            && r.Committed?
            && (OneJob(r.db.jobs, rec.event.invoice) <==>
                  Attributes(db, rec.event) || HasJob(db.jobs, rec.event.invoice))
            && (r.value == if !Attributes(db, rec.event) then
                             (if rec.event.id in db.events then DuplicateEvent else InvoiceUnknown)
                           else if HasJob(db.jobs, rec.event.invoice) then DuplicateInvoice else Queued)
            && (r.value.Queued? ==> jobId in r.db.jobs && r.db.jobs[jobId].invoice == rec.event.invoice
                                    && r.db.jobs[jobId].net == rec.event.amount - rec.event.fee)
  {
    assert JobKeys(db.jobs);
    JobAccepted(db, rec, jobId, decode);
    CreditOutcome(db, rec, jobId);
  }

  lemma CreditOutcome(db: Db, rec: EventRecord, jobId: JobId)
    requires Mirror(db.owned, db.drafts) && JobKeys(db.jobs) && WellFormed(rec) && Eligible(db, rec)
    requires !JobInsertRefused(db.jobs, rec.event, rec.net.value, jobId)
    ensures var r := Record(db, rec, jobId);
            && r.Committed?
            && (OneJob(r.db.jobs, rec.event.invoice) <==>
                  Attributes(db, rec.event) || HasJob(db.jobs, rec.event.invoice))
            && (r.value == if !Attributes(db, rec.event) then
                             (if rec.event.id in db.events then DuplicateEvent else InvoiceUnknown)
                           else if HasJob(db.jobs, rec.event.invoice) then DuplicateInvoice else Queued)
            && (r.value.Queued? ==> jobId in r.db.jobs && r.db.jobs[jobId].invoice == rec.event.invoice
                                    && r.db.jobs[jobId].net == rec.event.amount - rec.event.fee)
  {
    MirrorAttribute(db.owned, db.drafts, rec.event.invoice, rec.event.tags, rec.receivedAt);
    RecordEffect(db, rec, jobId);
    var r := Record(db, rec, jobId);
    if r.value.Queued? {
      assert jobId in r.db.jobs && r.db.jobs[jobId].invoice == rec.event.invoice;
    }
  }
}
