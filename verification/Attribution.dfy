/** What becomes of a credit, told from the owned rows and the stored events: when it is attributed, to which row, and
    when it waits or is turned away. */
module Attribution {
  import opened Domain
  import opened Tables
  import opened EventStore
  import opened OwnershipMirror
  import opened Correspondence
  import opened Redelivery
  import Lifecycle
  import Payout

  /** A valid credit of an invoice, with a net amount, that is not stored yet or waits in the store for its invoice
      under the same digest. */
  ghost predicate MayQueue(db: Db, rec: EventRecord) {
    && WellFormed(rec) && rec.event.Credited? && 0 <= rec.event.fee < rec.event.amount
    && (rec.event.id in db.events ==>
          db.events[rec.event.id].outcome.InvoiceUnknown? && db.events[rec.event.id].digest == rec.digest)
  }

  /** The row an event is stored as. */
  predicate StoredAs(row: EventRow, rec: EventRecord, outcome: Outcome) {
    && row.outcome == outcome && row.digest == rec.digest && row.receivedAt == rec.receivedAt
    && row.workspace == rec.event.workspace
    && row.subscription == (match rec.event
                            case Credited(_, _, _, _, _, _) => "invoice"
                            case Ignored(_, subscription, _, _) => subscription
                            case Lifecycle(_, _, _, _, _, _, _) => "transfer")
    && row.logType == (if rec.event.Credited? then "credited" else rec.event.logType)
    && row.invoice == (if rec.event.Credited? then Some(rec.event.invoice) else None)
    && row.transfer == (if rec.event.Lifecycle? then Some(rec.event.transfer) else None)
  }

  /** The owned rows and the drafts once a credit is attributed to the row of a tag. */
  ghost predicate Binds(db: Db, rec: EventRecord, t: Tag, owned': map<Tag, OwnedRow>, drafts': map<DraftId, DraftRow>)
    requires rec.event.Credited? && t in db.owned
  {
    && owned' == (if db.owned[t].provider.Some? then db.owned
                  else db.owned[t := db.owned[t].(provider := Some(rec.event.invoice), updatedAt := rec.receivedAt)])
    && t in owned' && owned'[t].provider == Some(rec.event.invoice)
    && (match db.owned[t].draft
        case None => drafts' == db.drafts
        case Some(d) => d in db.drafts && drafts' == db.drafts[d := db.drafts[d].(
          provider := Some(rec.event.invoice), status := DraftCreated, updatedAt := rec.receivedAt)])
  }

  /** The credit is attributed to the row of the tag: the row is bound to its invoice, the row's draft is created with
      it, and the invoice's one job is queued, unless it exists. */
  ghost predicate AttributedTo(db: Db, rec: EventRecord, jobId: JobId, t: Tag, r: Tx<Outcome>)
    requires rec.event.Credited? && t in db.owned
  {
    var e := rec.event;
    && r.Committed? && Binds(db, rec, t, r.db.owned, r.db.drafts)
    && e.id in r.db.events && (e.id !in db.events ==> StoredAs(r.db.events[e.id], rec, r.value))
    && if exists j :: j in db.jobs && db.jobs[j].invoice == e.invoice then
         r.value == DuplicateInvoice && r.db.events[e.id].outcome == DuplicateInvoice && r.db.jobs == db.jobs
       else
         && r.value == Queued && r.db.events[e.id].outcome == Queued
         && jobId in r.db.jobs && r.db.jobs == db.jobs[jobId := r.db.jobs[jobId]]
         && IsNewJob(r.db.jobs[jobId], rec)
  }

  /** A job as it is queued: for the credit's amounts, due at once, and not attempted. */
  predicate IsNewJob(job: JobRow, rec: EventRecord)
    requires rec.event.Credited?
  {
    && job.event == rec.event.id && job.invoice == rec.event.invoice
    && job.amount == rec.event.amount && job.fee == rec.event.fee && job.net == rec.event.amount - rec.event.fee
    && job.external == TrialTransfer(rec.event.invoice)
    && job.status.JobPending? && job.attempts == 0 && job.nextAttemptAt == rec.receivedAt
    && job.leaseUntil.None? && job.providerTransfer.None? && job.providerStatusAt.None?
  }

  /** The credit waits: it is stored as unknown, and no other table changes. */
  ghost predicate StaysWaiting(db: Db, rec: EventRecord, r: Tx<Outcome>)
    requires rec.event.Credited?
  {
    && r.Committed? && r.value == (if rec.event.id in db.events then DuplicateEvent else InvoiceUnknown)
    && r.db.owned == db.owned && r.db.drafts == db.drafts && r.db.jobs == db.jobs
    && rec.event.id in r.db.events
    && if rec.event.id in db.events then r.db == db else StoredAs(r.db.events[rec.event.id], rec, InvoiceUnknown)
  }

  lemma AttributionBinds(db: Db, rec: EventRecord, t: Tag)
    requires Mirror(db.owned, db.drafts) && rec.event.Credited? && t in db.owned
    requires Attributable(db.owned, rec.event.invoice, rec.event.tags, t)
    ensures var a := AttributionOf(db, rec); a.Attributed? && Binds(db, rec, t, a.owned, a.drafts)
  {
    MirrorAttribute(db.owned, db.drafts, rec.event.invoice, rec.event.tags, rec.receivedAt);
    var a := AttributionOf(db, rec);
    AttributableUnique(db.owned, rec.event.invoice, rec.event.tags, t, a.tag);
    MirrorAttributeTo(db.owned, db.drafts, t, rec.event.invoice, rec.event.tags, rec.receivedAt);
  }

  lemma AttributionOutcome(db: Db, rec: EventRecord, jobId: JobId, t: Tag)
    requires MayQueue(db, rec) && t in db.owned && !JobInsertRefused(db.jobs, rec.event, rec.net.value, jobId)
    requires var a := AttributionOf(db, rec); a.Attributed? && Binds(db, rec, t, a.owned, a.drafts)
    ensures AttributedTo(db, rec, jobId, t, Record(db, rec, jobId))
  {
    RecordEffect(db, rec, jobId);
  }

  lemma RefusalOutcome(db: Db, rec: EventRecord, jobId: JobId)
    requires MayQueue(db, rec) && forall t :: !Attributable(db.owned, rec.event.invoice, rec.event.tags, t)
    ensures StaysWaiting(db, rec, Record(db, rec, jobId))
  {
    RecordEffect(db, rec, jobId);
  }

  /** A credit of a bound invoice goes to the row it is bound to, exactly when no other owned row carries one of the
      credit's tags; otherwise it waits. */
  lemma BoundCredit(db: Db, rec: EventRecord, jobId: JobId, decode: Digest -> Event, t: Tag)
    requires Mirror(db.owned, db.drafts) && Corresponds(db.events, db.jobs, decode) && MayQueue(db, rec)
    requires jobId !in db.jobs && t in db.owned && db.owned[t].provider == Some(rec.event.invoice)
    ensures var r := Record(db, rec, jobId);
            if forall u :: u in rec.event.tags && u in db.owned ==> u == t then AttributedTo(db, rec, jobId, t, r)
            else StaysWaiting(db, rec, r)
  {
    assert Bound(db.owned, t, rec.event.invoice);
    if u :| u in rec.event.tags && u in db.owned && u != t {
      assert Tagged(db.owned, rec.event.tags, u);
      RefusalOutcome(db, rec, jobId);
    } else {
      JobAccepted(db, rec, jobId, decode);
      AttributionBinds(db, rec, t);
      AttributionOutcome(db, rec, jobId, t);
    }
  }

  /** A credit of an invoice that no row is bound to goes to the one owned row that carries one of its tags, if there
      is exactly one and it is unbound; otherwise it waits. */
  lemma UnboundCredit(db: Db, rec: EventRecord, jobId: JobId, decode: Digest -> Event)
    requires Mirror(db.owned, db.drafts) && Corresponds(db.events, db.jobs, decode) && MayQueue(db, rec)
    requires jobId !in db.jobs && forall u :: u in db.owned ==> db.owned[u].provider != Some(rec.event.invoice)
    ensures var r, carriers := Record(db, rec, jobId), set u | u in rec.event.tags && u in db.owned;
            && (forall t :: carriers == {t} && db.owned[t].provider.None? ==> AttributedTo(db, rec, jobId, t, r))
            && ((forall t :: carriers == {t} ==> db.owned[t].provider.Some?) ==> StaysWaiting(db, rec, r))
  {
    var carriers := set u | u in rec.event.tags && u in db.owned;
    forall u ensures !Bound(db.owned, u, rec.event.invoice) {
    }
    if t :| carriers == {t} && db.owned[t].provider.None? {
      assert t in carriers;
      UnboundAttribution(db.owned, rec.event.invoice, rec.event.tags, t);
      JobAccepted(db, rec, jobId, decode);
      AttributionBinds(db, rec, t);
      AttributionOutcome(db, rec, jobId, t);
      assert forall u :: carriers == {u} ==> u in carriers;
    } else {
      forall u ensures !Attributable(db.owned, rec.event.invoice, rec.event.tags, u) {
        UnboundAttribution(db.owned, rec.event.invoice, rec.event.tags, u);
      }
      RefusalOutcome(db, rec, jobId);
    }
  }

  /** Every other delivery is stored once, without effect on another table: as ignored, or as rejected when its
      amounts make no net amount; and a stored one that does not wait changes nothing. */
  lemma OtherDelivery(db: Db, rec: EventRecord, jobId: JobId)
    requires WellFormed(rec) && !rec.event.Lifecycle? && !MayQueue(db, rec)
    ensures var r := Record(db, rec, jobId);
            if rec.event.id in db.events then r == Committed(db, DuplicateEvent)
            else
              && r.Committed? && rec.event.id in r.db.events
              && r.db == db.(events := db.events[rec.event.id := r.db.events[rec.event.id]])
              && StoredAs(r.db.events[rec.event.id], rec, if rec.event.Ignored? then EventIgnored else Rejected)
              && r.value == (if rec.event.Ignored? then EventIgnored else Rejected)
  {
    RecordEffect(db, rec, jobId);
  }

  /** An event of another workspace is stored once as such, whatever it is, and has no other effect. */
  lemma ForeignDelivery(db: Db, rec: EventRecord)
    ensures var r := RecordForeignWorkspace(db, rec);
            if rec.event.id in db.events then r == Committed(db, DuplicateEvent)
            else
              && r.Committed? && r.value == IgnoredWorkspace && rec.event.id in r.db.events
              && r.db == db.(events := db.events[rec.event.id := r.db.events[rec.event.id]])
              && StoredAs(r.db.events[rec.event.id], rec, IgnoredWorkspace)
  {
  }

  /** No other job shows the transfer. */
  ghost predicate FreeTransfer(jobs: map<JobId, JobRow>, j: JobId, transfer: TransferId) {
    forall k :: k in jobs && k != j ==> jobs[k].providerTransfer != Some(transfer)
  }

  /** A lifecycle event that is new and whose job is found. */
  lemma MatchedTransfer(db: Db, rec: EventRecord, j: JobId)
    requires JobKeys(db.jobs) && rec.event.Lifecycle? && rec.event.id !in db.events
    requires j in db.jobs && db.jobs[j].external == rec.event.external
    ensures var r, row := RecordTransfer(db, rec), db.jobs[j];
            if row.providerStatusAt.Some? && row.providerStatusAt.value >= rec.event.updatedAt then
              && r.Committed? && r.value == TransferStale && rec.event.id in r.db.events
              && r.db == db.(events := db.events[rec.event.id := r.db.events[rec.event.id]])
              && StoredAs(r.db.events[rec.event.id], rec, TransferStale)
            else if FreeTransfer(db.jobs, j, rec.event.transfer) then
              && r.Committed? && r.value == TransferUpdated && j in r.db.jobs && rec.event.id in r.db.events
              && r.db == db.(events := db.events[rec.event.id := r.db.events[rec.event.id]],
                             jobs := db.jobs[j := r.db.jobs[j]])
              && StoredAs(r.db.events[rec.event.id], rec, TransferUpdated)
              && Lifecycle.Shows(r.db.jobs[j], rec.event)
              && Payout.SameDispatch(row, r.db.jobs[j])
            else r.RolledBack?
  {
    Lifecycle.JobAtUnique(db.jobs, j, rec.event.external);
  }

  /** Without a job of its external id it is stored as unmatched; a stored one changes nothing. */
  lemma UnmatchedTransfer(db: Db, rec: EventRecord)
    requires rec.event.Lifecycle?
    requires rec.event.id in db.events || forall j :: j in db.jobs ==> db.jobs[j].external != rec.event.external
    ensures var r := RecordTransfer(db, rec);
            if rec.event.id in db.events then r == Committed(db, DuplicateEvent)
            else
              && r.Committed? && r.value == TransferUnmatched && rec.event.id in r.db.events
              && r.db == db.(events := db.events[rec.event.id := r.db.events[rec.event.id]])
              && StoredAs(r.db.events[rec.event.id], rec, TransferUnmatched)
  {
  }
}
