/** Webhook events: deduplication, attribution to an owned invoice, and the queueing of transfer jobs
    (persistence/event_store.py). The functions say what each transaction does to the tables; the class
    does it in place. */
module EventStore {
  import opened Domain
  import opened Tables

  // ---- Attribution ----

  predicate Bound(owned: map<Tag, OwnedRow>, t: Tag, invoice: InvoiceId) {
    t in owned && owned[t].provider == Some(invoice)
  }

  predicate Tagged(owned: map<Tag, OwnedRow>, tags: seq<Tag>, t: Tag) {
    t in owned && t in tags
  }

  /** The owned row a credit may be attributed to: the row bound to the invoice, unless another owned
      row carries one of the tags; without such a row, the only owned row that carries one of the tags,
      unless it is already bound. */
  ghost predicate Attributable(owned: map<Tag, OwnedRow>, invoice: InvoiceId, tags: seq<Tag>, t: Tag) {
    && t in owned
    && (forall u :: Tagged(owned, tags, u) ==> u == t)
    && (Bound(owned, t, invoice)
        || (t in tags && owned[t].provider.None? && forall u :: !Bound(owned, u, invoice)))
  }

  datatype Attribution =
    | Refused
    | Attributed(tag: Tag, owned: map<Tag, OwnedRow>, drafts: map<DraftId, DraftRow>)
    | AttributionConflict

  ghost predicate DraftProviderTaken(drafts: map<DraftId, DraftRow>, d: DraftId, invoice: InvoiceId) {
    exists e :: e in drafts && e != d && drafts[e].provider == Some(invoice)
  }

  /** Binds the owned row and marks its draft created. */
  ghost function AttributeTo(owned: map<Tag, OwnedRow>, drafts: map<DraftId, DraftRow>, t: Tag,
                             invoice: InvoiceId, at: Time): Attribution
    requires t in owned
  {
    var owned' := if owned[t].provider.None? then
                    owned[t := owned[t].(provider := Some(invoice), updatedAt := at)]
                  else owned;
    match owned[t].draft
    case None => Attributed(t, owned', drafts)
    case Some(d) =>
      if d !in drafts || (drafts[d].provider.Some? && drafts[d].provider != Some(invoice)) then
        Attributed(t, owned', drafts)
      else if DraftProviderTaken(drafts, d, invoice) then
        AttributionConflict
      else
        Attributed(t, owned',
                   drafts[d := drafts[d].(provider := Some(invoice), status := DraftCreated, updatedAt := at)])
  }

  ghost function Attribute(owned: map<Tag, OwnedRow>, drafts: map<DraftId, DraftRow>,
                           invoice: InvoiceId, tags: seq<Tag>, at: Time): Attribution
  {
    if exists t :: Attributable(owned, invoice, tags, t) then
      var t :| Attributable(owned, invoice, tags, t);
      AttributeTo(owned, drafts, t, invoice, at)
    else Refused
  }

  /** The schema leaves at most one row to attribute a credit to. */
  lemma AttributableUnique(owned: map<Tag, OwnedRow>, invoice: InvoiceId, tags: seq<Tag>, t: Tag, u: Tag)
    requires OwnedKeys(owned)
    requires Attributable(owned, invoice, tags, t) && Attributable(owned, invoice, tags, u)
    ensures t == u
  {
    if Bound(owned, t, invoice) {
      assert Bound(owned, u, invoice);
    } else {
      assert Tagged(owned, tags, t);
    }
  }

  /** A credit of an unbound invoice goes by tag: exactly one owned row carries one of its tags, unbound. */
  lemma UnboundAttribution(owned: map<Tag, OwnedRow>, invoice: InvoiceId, tags: seq<Tag>, t: Tag)
    requires forall u :: !Bound(owned, u, invoice)
    ensures Attributable(owned, invoice, tags, t)
       <==> (set u | u in tags && u in owned) == {t} && owned[t].provider.None?
  {
    var matches := set u | u in tags && u in owned;
    assert forall u :: Tagged(owned, tags, u) <==> u in matches;
    if matches == {t} {
      assert t in matches;
    }
  }

  // ---- Queueing ----

  ghost predicate HasJob(jobs: map<JobId, JobRow>, invoice: InvoiceId) {
    exists j :: j in jobs && jobs[j].invoice == invoice
  }

  /** The insert of a job is refused: a key is taken or a check constraint fails. */
  ghost predicate JobInsertRefused(jobs: map<JobId, JobRow>, event: Event, net: Cents, jobId: JobId)
    requires event.Credited?
  {
    || jobId in jobs
    || (exists j :: j in jobs && jobs[j].event == event.id)
    || event.amount <= 0 || event.fee < 0 || net <= 0
  }

  function NewJob(event: Event, net: Cents, at: Time): JobRow
    requires event.Credited?
  {
    JobRow(event.id, event.invoice, event.amount, event.fee, net, TrialTransfer(event.invoice),
           JobPending, 0, at, None, None, None, None, None, None, at, at)
  }

  datatype Queueing = Queueing(events: map<EventId, EventRow>, jobs: map<JobId, JobRow>, outcome: Outcome)

  function SetOutcome(events: map<EventId, EventRow>, id: EventId, outcome: Outcome): map<EventId, EventRow> {
    if id in events then events[id := events[id].(outcome := outcome)] else events
  }

  ghost function Queue(events: map<EventId, EventRow>, jobs: map<JobId, JobRow>, event: Event, net: Cents,
                       at: Time, jobId: JobId): Queueing
    requires event.Credited?
  {
    if HasJob(jobs, event.invoice) || JobInsertRefused(jobs, event, net, jobId) then
      Queueing(SetOutcome(events, event.id, DuplicateInvoice), jobs, DuplicateInvoice)
    else
      Queueing(events, jobs[jobId := NewJob(event, net, at)], Queued)
  }

  // ---- Recording ----

  function EventRowOf(rec: EventRecord, outcome: Outcome): EventRow {
    EventRow(rec.event.Subscription(), rec.event.LogType(),
             if rec.event.Credited? then Some(rec.event.invoice) else None,
             if rec.event.Lifecycle? then Some(rec.event.transfer) else None,
             rec.event.workspace, rec.digest, outcome, rec.receivedAt)
  }

  function InitialOutcome(rec: EventRecord): Outcome {
    if rec.event.Ignored? then EventIgnored
    else if rec.net.None? then Rejected
    else Queued
  }

  /** The newly stored row of a credit, or the stored row that waits for its invoice, tries to queue a job. */
  ghost function Settle(db: Db, rec: EventRecord, jobId: JobId, refused: Tx<Outcome>): Tx<Outcome>
    requires rec.event.Credited? && rec.net.Some?
  {
    match Attribute(db.owned, db.drafts, rec.event.invoice, rec.event.tags, rec.receivedAt)
    case Refused => refused
    case AttributionConflict => RolledBack
    case Attributed(_, owned, drafts) =>
      var q := Queue(db.events, db.jobs, rec.event, rec.net.value, rec.receivedAt, jobId);
      Committed(db.(owned := owned, drafts := drafts, jobs := q.jobs,
                    events := if q.outcome.Queued? then SetOutcome(q.events, rec.event.id, Queued) else q.events),
                q.outcome)
  }

  predicate Promotable(db: Db, rec: EventRecord) {
    && rec.event.Credited? && rec.net.Some?
    && rec.event.id in db.events
    && db.events[rec.event.id].digest == rec.digest
    && db.events[rec.event.id].outcome.InvoiceUnknown?
  }

  ghost function JobAt(jobs: map<JobId, JobRow>, external: ExternalId): (r: Option<JobId>)
    ensures r.Some? ==> r.value in jobs && jobs[r.value].external == external
    ensures r.None? ==> forall j :: j in jobs ==> jobs[j].external != external
  {
    if j :| j in jobs && jobs[j].external == external then Some(j) else None
  }

  function LifecycleOutcome(job: Option<JobRow>, event: Event): Outcome
    requires event.Lifecycle?
  {
    if job.None? then TransferUnmatched
    else if job.value.providerStatusAt.Some? && job.value.providerStatusAt.value >= event.updatedAt then TransferStale
    else TransferUpdated
  }

  function UpdateStatus(job: JobRow, event: Event, at: Time): JobRow
    requires event.Lifecycle?
  {
    job.(providerTransfer := Some(event.transfer), providerStatus := Some(event.status),
         providerLogType := Some(event.logType), providerStatusAt := Some(event.updatedAt), updatedAt := at)
  }

  ghost predicate TransferTaken(jobs: map<JobId, JobRow>, j: JobId, transfer: TransferId) {
    exists k :: k in jobs && k != j && jobs[k].providerTransfer == Some(transfer)
  }

  ghost function RecordTransfer(db: Db, rec: EventRecord): Tx<Outcome>
    requires rec.event.Lifecycle?
  {
    var found := JobAt(db.jobs, rec.event.external);
    var outcome := LifecycleOutcome(if found.Some? then Some(db.jobs[found.value]) else None, rec.event);
    if rec.event.id in db.events then
      Committed(db, DuplicateEvent)
    else
      var stored := db.(events := db.events[rec.event.id := EventRowOf(rec, outcome)]);
      if outcome != TransferUpdated then Committed(stored, outcome)
      else if TransferTaken(db.jobs, found.value, rec.event.transfer) then RolledBack
      else
        Committed(stored.(jobs := db.jobs[found.value := UpdateStatus(db.jobs[found.value], rec.event,
                                                                      rec.receivedAt)]),
                  outcome)
  }

  ghost function Record(db: Db, rec: EventRecord, jobId: JobId): Tx<Outcome> {
    if rec.event.Lifecycle? then
      RecordTransfer(db, rec)
    else if rec.event.id in db.events then
      if Promotable(db, rec) then Settle(db, rec, jobId, Committed(db, DuplicateEvent))
      else Committed(db, DuplicateEvent)
    else
      var row := EventRowOf(rec, InitialOutcome(rec));
      var stored := db.(events := db.events[rec.event.id := row]);
      if rec.event.Ignored? || rec.net.None? then Committed(stored, InitialOutcome(rec))
      else
        var unknown := db.(events := db.events[rec.event.id := row.(outcome := InvoiceUnknown)]);
        Settle(stored, rec, jobId, Committed(unknown, InvoiceUnknown))
  }

  function RecordForeignWorkspace(db: Db, rec: EventRecord): Tx<Outcome> {
    if rec.event.id in db.events then Committed(db, DuplicateEvent)
    else Committed(db.(events := db.events[rec.event.id := EventRowOf(rec, IgnoredWorkspace)]), IgnoredWorkspace)
  }

  // ---- What a delivery can do ----

  /** The event row after a delivery: the stored row with a new outcome, or a new row. */
  function StoredRow(db: Db, rec: EventRecord, outcome: Outcome): EventRow {
    if rec.event.id in db.events then db.events[rec.event.id].(outcome := outcome) else EventRowOf(rec, outcome)
  }

  /** The attribution of a credit against the database it meets. */
  ghost function AttributionOf(db: Db, rec: EventRecord): Attribution
    requires rec.event.Credited?
  {
    Attribute(db.owned, db.drafts, rec.event.invoice, rec.event.tags, rec.receivedAt)
  }

  /** The event may queue a job: a valid credit that is new or waits for its invoice. */
  predicate Eligible(db: Db, rec: EventRecord) {
    rec.event.Credited? && rec.net.Some? && (rec.event.id in db.events ==> Promotable(db, rec))
  }

  /** The database after an attributed credit queued its job or met an invoice that has one. */
  ghost function Credit(db: Db, rec: EventRecord, jobId: JobId, a: Attribution, o: Outcome): Db
    requires rec.event.Credited? && rec.net.Some? && a.Attributed?
  {
    db.(events := db.events[rec.event.id := StoredRow(db, rec, o)], owned := a.owned, drafts := a.drafts,
        jobs := if o.Queued? then db.jobs[jobId := NewJob(rec.event, rec.net.value, rec.receivedAt)] else db.jobs)
  }

  lemma SettleEffect(db: Db, rec: EventRecord, jobId: JobId, stored: Db, refused: Tx<Outcome>)
    requires Eligible(db, rec) && AttributionOf(db, rec).Attributed?
    requires stored == (if rec.event.id in db.events then db else
                          db.(events := db.events[rec.event.id := EventRowOf(rec, Queued)]))
    ensures var o := if HasJob(db.jobs, rec.event.invoice) || JobInsertRefused(db.jobs, rec.event, rec.net.value, jobId)
                     then DuplicateInvoice else Queued;
            Settle(stored, rec, jobId, refused) == Committed(Credit(db, rec, jobId, AttributionOf(db, rec), o), o)
  {
    var q := Queue(stored.events, stored.jobs, rec.event, rec.net.value, rec.receivedAt, jobId);
    assert SetOutcome(stored.events, rec.event.id, q.outcome)
             == db.events[rec.event.id := StoredRow(db, rec, q.outcome)];
  }

  /** A delivery other than a lifecycle event. An eligible credit that is attributed queues a job, or marks
      a duplicate when its invoice has one; a new event that is not is stored without effect; anything else
      changes nothing. Only a stored event that waits for its invoice changes its outcome. */
  lemma RecordEffect(db: Db, rec: EventRecord, jobId: JobId)
    requires !rec.event.Lifecycle?
    ensures var r := Record(db, rec, jobId);
            if Eligible(db, rec) && AttributionOf(db, rec).AttributionConflict? then r.RolledBack?
            else if Eligible(db, rec) && AttributionOf(db, rec).Attributed? then
              var o := if HasJob(db.jobs, rec.event.invoice)
                          || JobInsertRefused(db.jobs, rec.event, rec.net.value, jobId)
                       then DuplicateInvoice else Queued;
              r == Committed(Credit(db, rec, jobId, AttributionOf(db, rec), o), o)
            else if rec.event.id in db.events then r == Committed(db, DuplicateEvent)
            else
              var o := if Eligible(db, rec) then InvoiceUnknown else InitialOutcome(rec);
              r == Committed(db.(events := db.events[rec.event.id := StoredRow(db, rec, o)]), o)
  {
    if Eligible(db, rec) && AttributionOf(db, rec).Attributed? {
      var row := EventRowOf(rec, InitialOutcome(rec));
      if rec.event.id in db.events {
        SettleEffect(db, rec, jobId, db, Committed(db, DuplicateEvent));
      } else {
        SettleEffect(db, rec, jobId, db.(events := db.events[rec.event.id := row]),
                     Committed(db.(events := db.events[rec.event.id := row.(outcome := InvoiceUnknown)]),
                               InvoiceUnknown));
      }
    }
  }

  /** A lifecycle event moves the status of the job it is about, unless another job has its transfer. */
  ghost predicate MovesStatus(db: Db, rec: EventRecord, k: JobId, jobs': map<JobId, JobRow>)
    requires rec.event.Lifecycle?
  {
    && k in db.jobs && db.jobs[k].external == rec.event.external && !TransferTaken(db.jobs, k, rec.event.transfer)
    && jobs' == db.jobs[k := UpdateStatus(db.jobs[k], rec.event, rec.receivedAt)]
  }

  /** A lifecycle event stores itself at most, and moves the status of at most one job. */
  lemma TransferEffect(db: Db, rec: EventRecord)
    requires rec.event.Lifecycle?
    ensures var db' := After(db, RecordTransfer(db, rec));
            && (db'.jobs == db.jobs || exists k :: MovesStatus(db, rec, k, db'.jobs))
            && (forall e :: e in db'.events ==> e in db.events || e == rec.event.id)
            && db'.owned == db.owned && db'.drafts == db.drafts
  {
    var found := JobAt(db.jobs, rec.event.external);
    var db' := After(db, RecordTransfer(db, rec));
    if db'.jobs != db.jobs {
      assert MovesStatus(db, rec, found.value, db'.jobs);
    }
  }

  // ---- The store ----

  datatype Ownership = Owns | Disowns | OwnershipConflict

  class EventStore {
    const db: Database

    constructor (db: Database)
      ensures this.db == db
    {
      this.db := db;
    }

    /** Stores an event row unless its id is already stored. */
    method InsertEvent(rec: EventRecord, outcome: Outcome) returns (inserted: bool)
      modifies db`events
      ensures inserted == (rec.event.id !in old(db.events))
      ensures db.events == if inserted then old(db.events)[rec.event.id := EventRowOf(rec, outcome)] else old(db.events)
    {
      if rec.event.id in db.events {
        return false;
      }
      db.events := db.events[rec.event.id := EventRowOf(rec, outcome)];
      return true;
    }

    method MarkOutcome(id: EventId, outcome: Outcome)
      modifies db`events
      ensures db.events == SetOutcome(old(db.events), id, outcome)
    {
      if id in db.events {
        db.events := db.events[id := db.events[id].(outcome := outcome)];
      }
    }

    method OwnsInvoice(event: Event, at: Time) returns (r: Ownership)
      requires event.Credited? && OwnedKeys(db.owned)
      modifies db`owned, db`drafts
      ensures match Attribute(old(db.owned), old(db.drafts), event.invoice, event.tags, at)
              case Refused => r.Disowns? && db.owned == old(db.owned) && db.drafts == old(db.drafts)
              case AttributionConflict => r.OwnershipConflict?
              case Attributed(_, owned, drafts) => r.Owns? && db.owned == owned && db.drafts == drafts
    {
      ghost var owned0 := db.owned;
      var tag: Tag;
      if t :| t in db.owned && db.owned[t].provider == Some(event.invoice) {
        if exists u :: u in db.owned && u in event.tags && u != t {
          var u :| u in db.owned && u in event.tags && u != t;
          assert Tagged(owned0, event.tags, u) && Bound(owned0, t, event.invoice);
          return Disowns;
        }
        tag := t;
        assert Attributable(owned0, event.invoice, event.tags, tag);
      } else {
        var matches := set u | u in event.tags && u in db.owned;
        if t :| t in matches && matches == {t} && db.owned[t].provider.None? {
          tag := t;
          UnboundAttribution(owned0, event.invoice, event.tags, tag);
          db.owned := db.owned[t := db.owned[t].(provider := Some(event.invoice), updatedAt := at)];
        } else {
          forall v ensures !Attributable(owned0, event.invoice, event.tags, v) {
            UnboundAttribution(owned0, event.invoice, event.tags, v);
          }
          return Disowns;
        }
      }
      forall v | Attributable(owned0, event.invoice, event.tags, v) ensures v == tag {
        AttributableUnique(owned0, event.invoice, event.tags, v, tag);
      }
      var draft := db.owned[tag].draft;
      if draft.Some? && draft.value in db.drafts {
        var d := draft.value;
        if db.drafts[d].provider.None? || db.drafts[d].provider == Some(event.invoice) {
          if exists e :: e in db.drafts && e != d && db.drafts[e].provider == Some(event.invoice) {
            return OwnershipConflict;
          }
          db.drafts := db.drafts[d := db.drafts[d].(provider := Some(event.invoice), status := DraftCreated,
                                                    updatedAt := at)];
        }
      }
      return Owns;
    }

    method QueueTransfer(event: Event, net: Cents, at: Time, jobId: JobId) returns (outcome: Outcome)
      requires event.Credited?
      modifies db`events, db`jobs
      ensures Queue(old(db.events), old(db.jobs), event, net, at, jobId) == Queueing(db.events, db.jobs, outcome)
    {
      if exists j :: j in db.jobs && db.jobs[j].invoice == event.invoice {
        MarkOutcome(event.id, DuplicateInvoice);
        return DuplicateInvoice;
      }
      var taken := jobId in db.jobs || exists j :: j in db.jobs && db.jobs[j].event == event.id;
      if taken || event.amount <= 0 || event.fee < 0 || net <= 0 {
        MarkOutcome(event.id, DuplicateInvoice);
        return DuplicateInvoice;
      }
      db.jobs := db.jobs[jobId := NewJob(event, net, at)];
      return Queued;
    }

    method RecordTransferEvent(rec: EventRecord) returns (r: Option<Outcome>)
      requires rec.event.Lifecycle? && JobKeys(db.jobs)
      modifies db
      ensures match RecordTransfer(old(db.View()), rec)
              case RolledBack => r.None?
              case Committed(after, outcome) => r == Some(outcome) && db.View() == after
    {
      var event := rec.event;
      var job: Option<JobId> := None;
      if j :| j in db.jobs && db.jobs[j].external == event.external {
        job := Some(j);
      }
      assert job == JobAt(db.jobs, event.external);
      var outcome := TransferUpdated;
      if job.None? {
        outcome := TransferUnmatched;
      } else if db.jobs[job.value].providerStatusAt.Some?
        && db.jobs[job.value].providerStatusAt.value >= event.updatedAt {
        outcome := TransferStale;
      }
      var inserted := InsertEvent(rec, outcome);
      if !inserted {
        return Some(DuplicateEvent);
      }
      if outcome.TransferUpdated? {
        if exists k :: k in db.jobs && k != job.value && db.jobs[k].providerTransfer == Some(event.transfer) {
          return None;
        }
        db.jobs := db.jobs[job.value := UpdateStatus(db.jobs[job.value], event, rec.receivedAt)];
      }
      return Some(outcome);
    }

    method RecoverDuplicate(rec: EventRecord, jobId: JobId) returns (r: Option<Outcome>)
      requires !rec.event.Lifecycle? && rec.event.id in db.events && OwnedKeys(db.owned)
      modifies db
      ensures match Record(old(db.View()), rec, jobId)
              case RolledBack => r.None?
              case Committed(after, outcome) => r == Some(outcome) && db.View() == after
    {
      var event := rec.event;
      if !event.Credited? || rec.net.None? {
        return Some(DuplicateEvent);
      }
      var stored := db.events[event.id];
      if stored.digest != rec.digest || stored.outcome != InvoiceUnknown {
        return Some(DuplicateEvent);
      }
      var ownership := OwnsInvoice(event, rec.receivedAt);
      if ownership.OwnershipConflict? {
        return None;
      }
      if ownership.Disowns? {
        return Some(DuplicateEvent);
      }
      var outcome := QueueTransfer(event, rec.net.value, rec.receivedAt, jobId);
      if outcome.Queued? {
        MarkOutcome(event.id, Queued);
      }
      return Some(outcome);
    }

    /** The rest of a delivery whose valid credit was stored, as queued, just now. */
    method AttributeNew(rec: EventRecord, jobId: JobId) returns (r: Option<Outcome>)
      requires rec.event.Credited? && rec.net.Some? && OwnedKeys(db.owned)
      requires rec.event.id in db.events && db.events[rec.event.id].outcome.Queued?
      modifies db
      ensures var start := old(db.View());
              var unknown := start.(events := SetOutcome(start.events, rec.event.id, InvoiceUnknown));
              match Settle(start, rec, jobId, Committed(unknown, InvoiceUnknown))
              case RolledBack => r.None?
              case Committed(after, outcome) => r == Some(outcome) && db.View() == after
    {
      var ownership := OwnsInvoice(rec.event, rec.receivedAt);
      if ownership.OwnershipConflict? {
        return None;
      }
      if ownership.Disowns? {
        MarkOutcome(rec.event.id, InvoiceUnknown);
        return Some(InvoiceUnknown);
      }
      var outcome := QueueTransfer(rec.event, rec.net.value, rec.receivedAt, jobId);
      return Some(outcome);
    }

    /** One delivery. None is an integrity error that reached the caller. */
    method RecordEvent(rec: EventRecord, jobId: JobId) returns (r: Option<Outcome>)
      requires Schema(db.View())
      modifies db
      ensures db.View() == After(old(db.View()), Record(old(db.View()), rec, jobId))
      ensures match Record(old(db.View()), rec, jobId)
              case RolledBack => r.None?
              case Committed(_, outcome) => r == Some(outcome)
    {
      var start := db.View();
      if rec.event.Lifecycle? {
        r := RecordTransferEvent(rec);
      } else {
        var initial := InitialOutcome(rec);
        var inserted := InsertEvent(rec, initial);
        if !inserted {
          r := RecoverDuplicate(rec, jobId);
        } else if rec.event.Ignored? || rec.net.None? {
          r := Some(initial);
        } else {
          r := AttributeNew(rec, jobId);
        }
      }
      if r.None? {
        db.Rollback(start);
      }
    }

    method RecordIgnoredWorkspace(rec: EventRecord) returns (outcome: Outcome)
      modifies db
      ensures RecordForeignWorkspace(old(db.View()), rec) == Committed(db.View(), outcome)
    {
      var inserted := InsertEvent(rec, IgnoredWorkspace);
      outcome := if inserted then IgnoredWorkspace else DuplicateEvent;
    }
  }
}
