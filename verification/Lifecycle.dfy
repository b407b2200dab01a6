/** Lifecycle events of a transfer: the newest one wins, in whatever order they arrive and whatever other
    transactions run in between. */
module Lifecycle {
  import opened Domain
  import opened Tables
  import opened EventStore
  import opened Transactions
  import Correspondence
  import TS = TransferStore

  predicate IsLifecycle(t: Txn) {
    t.OfEvents? && t.e.Deliver? && t.e.event.Lifecycle?
  }

  /** The transaction delivers a lifecycle event of a given transfer that was not stored at the start. */
  predicate About(t: Txn, external: ExternalId, stored: set<EventId>) {
    IsLifecycle(t) && t.e.event.external == external && t.e.event.id !in stored
  }

  predicate Newer(at: Option<Time>, t: Time) {
    at.None? || at.value < t
  }

  /** The transaction neither records a result of the job nor refreshes its status. */
  predicate Spares(txn: JobTxn, j: JobId) {
    match txn
    case LeaseJob(_, _, _) => true
    case FinishJob(claim, _, _) => claim.id != j
    case RefreshJob(k, _, _, _) => k != j
  }

  /** The recorded result or refreshed status is that of a given transfer. */
  predicate Names(txn: JobTxn, transfer: TransferId) {
    match txn
    case LeaseJob(_, _, _) => false
    case FinishJob(_, f, _) => f.Succeed? && f.transfer == transfer
    case RefreshJob(_, t, _, _) => t == transfer
  }

  /** Transactions as a consistent provider causes them: an event id stands for one event of one workspace, a
      transfer id belongs to one external id, also in the stored jobs and in what is recorded for other jobs;
      and nothing is recorded for this job. */
  ghost predicate Coherent(db: Db, j: JobId, txns: seq<Txn>) {
    && j in db.jobs && JobKeys(db.jobs)
    && OneEventPerId(txns) && OneTransferPerId(txns) && Spared(txns, j, db.jobs[j].external, db.events.Keys)
    && forall a :: a in txns && About(a, db.jobs[j].external, db.events.Keys) ==> OnlyTransferOf(db.jobs, j, a.e.event)
  }

  ghost predicate OneEventPerId(txns: seq<Txn>) {
    forall a, b :: a in txns && b in txns && a.OfEvents? && b.OfEvents? && a.e.event.id == b.e.event.id ==>
      a.e.event == b.e.event && a.e.Deliver? == b.e.Deliver?
  }

  ghost predicate OneTransferPerId(txns: seq<Txn>) {
    forall a, b :: a in txns && b in txns && IsLifecycle(a) && IsLifecycle(b) ==>
      (a.e.event.transfer == b.e.event.transfer ==> a.e.event.external == b.e.event.external)
  }

  /** Results and refreshed statuses are those of other jobs and of other transfers than the job's events. */
  ghost predicate Spared(txns: seq<Txn>, j: JobId, external: ExternalId, stored: set<EventId>) {
    && (forall t :: t in txns && t.OfJobs? ==> Spares(t.j, j))
    && (forall t, a :: t in txns && a in txns && t.OfJobs? && About(a, external, stored) ==>
          !Names(t.j, a.e.event.transfer))
  }

  /** No other job shows the event's transfer. */
  ghost predicate OnlyTransferOf(jobs: map<JobId, JobRow>, j: JobId, event: Event)
    requires event.Lifecycle?
  {
    forall k :: k in jobs && jobs[k].providerTransfer == Some(event.transfer) ==> k == j
  }

  /** The provider columns are those of an event. */
  predicate Shows(row: JobRow, event: Event) {
    && event.Lifecycle? && row.providerStatusAt == Some(event.updatedAt) && row.providerStatus == Some(event.status)
    && row.providerTransfer == Some(event.transfer) && row.providerLogType == Some(event.logType)
  }

  predicate SameProvider(a: JobRow, b: JobRow) {
    && a.providerStatusAt == b.providerStatusAt && a.providerStatus == b.providerStatus
    && a.providerTransfer == b.providerTransfer && a.providerLogType == b.providerLogType
  }

  /** A delivery among the given transactions that is about the job, newer than its status, and not older than
      any other. */
  predicate IsNewest(row: JobRow, txns: seq<Txn>, d: Txn, stored: set<EventId>) {
    && d in txns && About(d, row.external, stored) && Newer(row.providerStatusAt, d.e.event.updatedAt)
    && forall e :: e in txns && About(e, row.external, stored) ==> e.e.event.updatedAt <= d.e.event.updatedAt
  }

  /** The job ends with the newest of the events about it, or as it was if none is newer than its status. */
  ghost predicate EndsNewest(row: JobRow, txns: seq<Txn>, row': JobRow, stored: set<EventId>) {
    if exists d :: IsNewest(row, txns, d, stored) then
      exists d :: IsNewest(row, txns, d, stored) && Shows(row', d.e.event)
    else SameProvider(row, row')
  }

  // ---- One transaction ----

  /** What one transaction does to the provider columns of a job. */
  ghost predicate Effect(row: JobRow, t: Txn, jobs': map<JobId, JobRow>, j: JobId, stored: set<EventId>) {
    && j in jobs' && jobs'[j].external == row.external
    && (if About(t, row.external, stored) && Newer(row.providerStatusAt, t.e.event.updatedAt) then
          Shows(jobs'[j], t.e.event)
        else SameProvider(row, jobs'[j]))
  }

  /** An event that was stored since the start is not newer than the status, and its transfer is the job's. */
  ghost predicate Settled(db: Db, j: JobId, event: Event)
    requires j in db.jobs && event.Lifecycle?
  {
    && (event.id in db.events ==> !Newer(db.jobs[j].providerStatusAt, event.updatedAt))
    && OnlyTransferOf(db.jobs, j, event)
  }

  /** What every transaction keeps: the events stored at the start are still stored, and the others are settled. */
  ghost predicate Consistent(db: Db, j: JobId, txns: seq<Txn>, stored: set<EventId>) {
    && j in db.jobs && JobKeys(db.jobs) && stored <= db.events.Keys
    && OneEventPerId(txns) && OneTransferPerId(txns) && Spared(txns, j, db.jobs[j].external, stored)
    && (forall a :: a in txns && About(a, db.jobs[j].external, stored) ==> Settled(db, j, a.e.event))
  }

  lemma JobAtUnique(jobs: map<JobId, JobRow>, j: JobId, external: ExternalId)
    requires j in jobs && JobKeys(jobs)
    ensures JobAt(jobs, external) == Some(j) <==> external == jobs[j].external
  {
  }

  lemma DeliverLifecycle(db: Db, j: JobId, t: Txn, stored: set<EventId>)
    requires IsLifecycle(t) && j in db.jobs && stored <= db.events.Keys
    requires JobAt(db.jobs, t.e.event.external) == Some(j) <==> t.e.event.external == db.jobs[j].external
    requires About(t, db.jobs[j].external, stored) ==> Settled(db, j, t.e.event)
    ensures Effect(db.jobs[j], t, EventStep(db, t.e).jobs, j, stored)
  {
    if About(t, db.jobs[j].external, stored) {
      assert !TransferTaken(db.jobs, j, t.e.event.transfer);
    }
  }

  /** A transaction stores the event it delivers at most, and removes none. */
  ghost predicate StoresAtMost(events: map<EventId, EventRow>, events': map<EventId, EventRow>, t: Txn) {
    events.Keys <= events'.Keys && forall e :: e in events' ==> e in events || (t.OfEvents? && e == t.e.event.id)
  }

  /** The jobs are those before, and at most one more without provider columns. */
  ghost predicate AddsJob(jobs: map<JobId, JobRow>, jobs': map<JobId, JobRow>) {
    || jobs' == jobs
    || exists k, job: JobRow :: k !in jobs && job.providerTransfer.None? && jobs' == jobs[k := job]
  }

  /** Another delivery adds a job without provider columns at most. */
  lemma DeliverOther(db: Db, t: Txn)
    requires t.OfEvents? && !IsLifecycle(t)
    ensures var db' := EventStep(db, t.e); AddsJob(db.jobs, db'.jobs) && StoresAtMost(db.events, db'.events, t)
  {
    if t.e.Deliver? {
      var rec := MakeRecord(t.e.event, t.e.digest, t.e.at);
      RecordEffect(db, rec, t.e.jobId);
      var jobs' := EventStep(db, t.e).jobs;
      if jobs' != db.jobs {
        assert jobs' == db.jobs[t.e.jobId := NewJob(t.e.event, rec.net.value, t.e.at)];
      }
    }
  }

  lemma DispatchSpares(jobs: map<JobId, JobRow>, j: JobId, txn: JobTxn)
    requires j in jobs && Spares(txn, j)
    ensures var jobs' := JobStep(jobs, txn);
            j in jobs' && jobs'[j].external == jobs[j].external && SameProvider(jobs[j], jobs'[j])
  {
  }

  /** One transaction: an event about the job shows exactly when it is newer than the job's status. */
  lemma StepEffect(db: Db, j: JobId, t: Txn, stored: set<EventId>, maxClaims: int)
    requires j in db.jobs && JobKeys(db.jobs) && stored <= db.events.Keys && (t.OfJobs? ==> Spares(t.j, j))
    requires About(t, db.jobs[j].external, stored) ==> Settled(db, j, t.e.event)
    ensures Effect(db.jobs[j], t, Step(db, t, maxClaims).jobs, j, stored)
  {
    match t
    case OfEvents(e) =>
      if IsLifecycle(t) {
        JobAtUnique(db.jobs, j, e.event.external);
        DeliverLifecycle(db, j, t, stored);
      } else {
        DeliverOther(db, t);
      }
    case OfInvoices(i) => InvoiceFrame(db, i);
    case OfRuns(r) => RunFrame(db, r, maxClaims);
    case OfJobs(txn) => DispatchSpares(db.jobs, j, txn);
  }

  lemma KeysOfNewJob(jobs: map<JobId, JobRow>, jobId: JobId, event: Event, net: Cents, at: Time)
    requires JobKeys(jobs) && event.Credited? && !HasJob(jobs, event.invoice)
    requires !JobInsertRefused(jobs, event, net, jobId)
    ensures JobKeys(jobs[jobId := NewJob(event, net, at)])
  {
  }

  lemma DeliverKeepsKeys(db: Db, rec: EventRecord, jobId: JobId)
    requires JobKeys(db.jobs)
    ensures JobKeys(After(db, Record(db, rec, jobId)).jobs)
  {
    var db' := After(db, Record(db, rec, jobId));
    if rec.event.Lifecycle? {
      TransferEffect(db, rec);
      if k :| MovesStatus(db, rec, k, db'.jobs) {
        Correspondence.KeysJobWrite(db.jobs, k, db'.jobs[k]);
      }
    } else {
      RecordEffect(db, rec, jobId);
      if db'.jobs != db.jobs {
        KeysOfNewJob(db.jobs, jobId, rec.event, rec.net.value, rec.receivedAt);
      }
    }
  }

  lemma DispatchKeepsKeys(jobs: map<JobId, JobRow>, txn: JobTxn)
    requires JobKeys(jobs)
    ensures JobKeys(JobStep(jobs, txn))
  {
    match txn
    case LeaseJob(j, at, leaseUntil) =>
      if j in jobs && TS.Claimable(jobs[j], at) {
        Correspondence.KeysJobWrite(jobs, j, TS.ClaimedRow(jobs[j], at, leaseUntil));
      }
    case FinishJob(claim, f, at) =>
      if TS.FinishJob(jobs, claim, f, at).Finished? {
        Correspondence.KeysJobWrite(jobs, claim.id, TS.FinishedRow(jobs[claim.id], f, at));
      }
    case RefreshJob(j, transfer, status, at) =>
      if j in jobs && !TransferTaken(jobs, j, transfer) {
        Correspondence.KeysJobWrite(jobs, j, TS.RefreshedRow(jobs[j], transfer, status, at));
      }
  }

  /** Job keys survive every transaction. */
  lemma StepKeepsKeys(db: Db, t: Txn, maxClaims: int)
    requires JobKeys(db.jobs)
    ensures JobKeys(Step(db, t, maxClaims).jobs)
  {
    match t
    case OfEvents(e) =>
      if e.Deliver? {
        DeliverKeepsKeys(db, MakeRecord(e.event, e.digest, e.at), e.jobId);
      }
    case OfInvoices(i) => InvoiceFrame(db, i);
    case OfRuns(r) => RunFrame(db, r, maxClaims);
    case OfJobs(txn) => DispatchKeepsKeys(db.jobs, txn);
  }

  /** Jobs whose transfer differs afterwards show the transfer of the delivered event or of the recorded result. */
  ghost predicate TransfersFrom(jobs: map<JobId, JobRow>, jobs': map<JobId, JobRow>, t: Txn) {
    forall k :: k in jobs' && jobs'[k].providerTransfer.Some? ==>
      || (k in jobs && jobs'[k].providerTransfer == jobs[k].providerTransfer)
      || (IsLifecycle(t) && k in jobs && jobs[k].external == t.e.event.external
          && jobs'[k].providerTransfer == Some(t.e.event.transfer))
      || (t.OfJobs? && Names(t.j, jobs'[k].providerTransfer.value))
  }

  lemma DeliveryFrame(db: Db, t: Txn)
    requires t.OfEvents?
    ensures var db' := EventStep(db, t.e); TransfersFrom(db.jobs, db'.jobs, t) && StoresAtMost(db.events, db'.events, t)
  {
    if IsLifecycle(t) {
      TransferEffect(db, MakeRecord(t.e.event, t.e.digest, t.e.at));
    } else {
      DeliverOther(db, t);
    }
  }

  lemma StepFrame(db: Db, t: Txn, maxClaims: int)
    ensures var db' := Step(db, t, maxClaims);
            TransfersFrom(db.jobs, db'.jobs, t) && StoresAtMost(db.events, db'.events, t)
  {
    match t
    case OfEvents(_) => DeliveryFrame(db, t);
    case OfInvoices(i) => InvoiceFrame(db, i);
    case OfRuns(r) => RunFrame(db, r, maxClaims);
    case OfJobs(_) =>
  }

  /** An event stays settled through a transaction it does not clash with. */
  lemma SettledStep(db: Db, db': Db, j: JobId, t: Txn, event: Event, stored: set<EventId>)
    requires j in db.jobs && JobKeys(db.jobs) && event.Lifecycle? && event.external == db.jobs[j].external
    requires event.id !in stored && Settled(db, j, event)
    requires t.OfEvents? && event.id == t.e.event.id ==> t.e.Deliver? && event == t.e.event
    requires IsLifecycle(t) && event.transfer == t.e.event.transfer ==> event.external == t.e.event.external
    requires t.OfJobs? ==> !Names(t.j, event.transfer)
    requires Effect(db.jobs[j], t, db'.jobs, j, stored) && TransfersFrom(db.jobs, db'.jobs, t)
    requires StoresAtMost(db.events, db'.events, t)
    ensures Settled(db', j, event)
  {
    forall k | k in db'.jobs && db'.jobs[k].providerTransfer == Some(event.transfer) ensures k == j {
      if !(k in db.jobs && db'.jobs[k].providerTransfer == db.jobs[k].providerTransfer) {
        assert db.jobs[k].external == db.jobs[j].external;
        assert db.jobs[k].invoice == db.jobs[j].invoice;
      }
    }
  }

  /** The other transactions stay consistent, given what the first one does. */
  lemma ConsistentStep(db: Db, db': Db, j: JobId, txns: seq<Txn>, stored: set<EventId>)
    requires txns != [] && Consistent(db, j, txns, stored) && JobKeys(db'.jobs)
    requires Effect(db.jobs[j], txns[0], db'.jobs, j, stored) && TransfersFrom(db.jobs, db'.jobs, txns[0])
    requires StoresAtMost(db.events, db'.events, txns[0])
    ensures Consistent(db', j, txns[1..], stored)
  {
    forall a | a in txns[1..] && About(a, db'.jobs[j].external, stored) ensures Settled(db', j, a.e.event) {
      assert a in txns && txns[0] in txns;
      SettledStep(db, db', j, txns[0], a.e.event, stored);
    }
  }

  /** The first transaction leaves the others consistent. */
  lemma FirstStep(db: Db, j: JobId, txns: seq<Txn>, stored: set<EventId>, maxClaims: int)
    requires txns != [] && Consistent(db, j, txns, stored)
    ensures var mid := Step(db, txns[0], maxClaims);
            Consistent(mid, j, txns[1..], stored) && Effect(db.jobs[j], txns[0], mid.jobs, j, stored)
  {
    var mid := Step(db, txns[0], maxClaims);
    assert txns[0] in txns;
    StepEffect(db, j, txns[0], stored, maxClaims);
    StepKeepsKeys(db, txns[0], maxClaims);
    StepFrame(db, txns[0], maxClaims);
    ConsistentStep(db, mid, j, txns, stored);
  }

  /** An event that is stored already is ignored, however new it is and whatever became of it then. */
  lemma StoredIsIgnored(db: Db, t: Txn, maxClaims: int)
    requires IsLifecycle(t) && t.e.event.id in db.events
    ensures Step(db, t, maxClaims) == db
  {
  }

  /** A refresh shows the given transfer and status in the job, whatever its status was, and changes nothing else of
      it; it does nothing only when another job has the transfer. */
  lemma RefreshShows(jobs: map<JobId, JobRow>, j: JobId, transfer: TransferId, status: string, now: Time)
    requires j in jobs
    ensures JobStep(jobs, RefreshJob(j, transfer, status, now))
         == if exists k :: k in jobs && k != j && jobs[k].providerTransfer == Some(transfer) then jobs
            else jobs[j := jobs[j].(providerTransfer := Some(transfer), providerStatus := Some(status),
                                    providerStatusAt := Some(now), updatedAt := now)]
  {
  }

  // ---- All transactions ----

  /** The status timestamp does not go back. */
  predicate NotBefore(row: JobRow, row': JobRow) {
    row.providerStatusAt.Some? ==>
      row'.providerStatusAt.Some? && row'.providerStatusAt.value >= row.providerStatusAt.value
  }

  lemma {:induction false} NewestOfRest(db: Db, j: JobId, txns: seq<Txn>, stored: set<EventId>, maxClaims: int)
    requires Consistent(db, j, txns, stored)
    ensures var db' := RunTxns(db, txns, maxClaims);
            j in db'.jobs && EndsNewest(db.jobs[j], txns, db'.jobs[j], stored)
    decreases |txns|
  {
    if txns != [] {
      var mid := Step(db, txns[0], maxClaims);
      FirstStep(db, j, txns, stored, maxClaims);
      NewestOfRest(mid, j, txns[1..], stored, maxClaims);
      NewestExtends(db.jobs[j], txns, mid.jobs[j], RunTxns(mid, txns[1..], maxClaims).jobs[j], stored);
    }
  }

  /** Whatever transactions run in between, a job ends with the newest event about it that was not stored at the
      start and is later than its status, or as it was if there is none; its status timestamp does not go back. */
  lemma NewestWins(db: Db, j: JobId, txns: seq<Txn>, maxClaims: int)
    requires Coherent(db, j, txns)
    ensures var db' := RunTxns(db, txns, maxClaims);
            && j in db'.jobs && EndsNewest(db.jobs[j], txns, db'.jobs[j], db.events.Keys)
            && NotBefore(db.jobs[j], db'.jobs[j])
  {
    NewestOfRest(db, j, txns, db.events.Keys, maxClaims);
    EndsNotBefore(db.jobs[j], txns, RunTxns(db, txns, maxClaims).jobs[j], db.events.Keys);
  }

  lemma EndsNotBefore(row: JobRow, txns: seq<Txn>, row': JobRow, stored: set<EventId>)
    requires EndsNewest(row, txns, row', stored)
    ensures NotBefore(row, row')
  {
  }

  lemma NewestExtends(row: JobRow, txns: seq<Txn>, mid: JobRow, row': JobRow, stored: set<EventId>)
    requires txns != [] && mid.external == row.external
    requires if About(txns[0], row.external, stored) && Newer(row.providerStatusAt, txns[0].e.event.updatedAt) then
               Shows(mid, txns[0].e.event)
             else SameProvider(row, mid)
    requires EndsNewest(mid, txns[1..], row', stored)
    ensures EndsNewest(row, txns, row', stored)
  {
    var shows := About(txns[0], row.external, stored) && Newer(row.providerStatusAt, txns[0].e.event.updatedAt);
    assert forall d :: d in txns <==> d == txns[0] || d in txns[1..];
    if d :| IsNewest(mid, txns[1..], d, stored) && Shows(row', d.e.event) {
      assert IsNewest(row, txns, d, stored);
    } else {
      assert forall d :: !IsNewest(mid, txns[1..], d, stored);
      NewestExists(mid, txns[1..], stored);
      if shows {
        assert IsNewest(row, txns, txns[0], stored) && Shows(row', txns[0].e.event);
      }
    }
  }

  /** When some event about the job is newer than its status, one of them is the newest. */
  lemma {:induction false} NewestExists(row: JobRow, txns: seq<Txn>, stored: set<EventId>)
    ensures (exists d ::
               d in txns && About(d, row.external, stored) && Newer(row.providerStatusAt, d.e.event.updatedAt))
       ==> exists d :: IsNewest(row, txns, d, stored)
    decreases |txns|
  {
    if txns != [] {
      NewestExists(row, txns[1..], stored);
      assert forall d :: d in txns <==> d == txns[0] || d in txns[1..];
      var here := About(txns[0], row.external, stored) && Newer(row.providerStatusAt, txns[0].e.event.updatedAt);
      if m :| IsNewest(row, txns[1..], m, stored) {
        if here && m.e.event.updatedAt < txns[0].e.event.updatedAt {
          assert IsNewest(row, txns, txns[0], stored);
        } else {
          assert IsNewest(row, txns, m, stored);
        }
      } else if here {
        assert IsNewest(row, txns, txns[0], stored);
      }
    }
  }

  /** The events about a job among some transactions, apart from those stored at the start. */
  function EventsAbout(txns: seq<Txn>, external: ExternalId, stored: set<EventId>): set<Event> {
    set d | d in txns && About(d, external, stored) :: d.e.event
  }

  ghost predicate DistinctTimes(events: set<Event>) {
    forall a, b :: a in events && b in events && a.Lifecycle? && b.Lifecycle? && a.updatedAt == b.updatedAt ==> a == b
  }

  /** The newest delivery has its event among the others, too. */
  lemma NewestCarries(row: JobRow, txns: seq<Txn>, others: seq<Txn>, d: Txn, stored: set<EventId>) returns (e: Txn)
    requires EventsAbout(txns, row.external, stored) == EventsAbout(others, row.external, stored)
    requires IsNewest(row, txns, d, stored)
    ensures IsNewest(row, others, e, stored) && e.e.event == d.e.event
  {
    assert d.e.event in EventsAbout(others, row.external, stored);
    e :| e in others && About(e, row.external, stored) && e.e.event == d.e.event;
    forall f | f in others && About(f, row.external, stored) ensures f.e.event.updatedAt <= e.e.event.updatedAt {
      assert f.e.event in EventsAbout(txns, row.external, stored);
      var g :| g in txns && About(g, row.external, stored) && g.e.event == f.e.event;
    }
  }

  lemma NewestUnique(row: JobRow, txns: seq<Txn>, d: Txn, e: Txn, stored: set<EventId>)
    requires DistinctTimes(EventsAbout(txns, row.external, stored)) && IsNewest(row, txns, d, stored)
    requires IsNewest(row, txns, e, stored)
    ensures d.e.event == e.e.event
  {
    assert d.e.event in EventsAbout(txns, row.external, stored) && e.e.event in EventsAbout(txns, row.external, stored);
  }

  /** Two sequences of transactions with the same events about the job, apart from those stored at the start, and
      no two of them with the same timestamp, leave the job with the same provider status, transfer, log type
      and timestamp: order, repetition and the times of receipt do not matter. */
  lemma OrderIrrelevant(db: Db, j: JobId, txns: seq<Txn>, others: seq<Txn>, maxClaims: int)
    requires Coherent(db, j, txns) && Coherent(db, j, others)
    requires var external, stored := db.jobs[j].external, db.events.Keys;
             EventsAbout(txns, external, stored) == EventsAbout(others, external, stored)
               && DistinctTimes(EventsAbout(txns, external, stored))
    ensures var a, b := RunTxns(db, txns, maxClaims), RunTxns(db, others, maxClaims);
            j in a.jobs && j in b.jobs && SameProvider(a.jobs[j], b.jobs[j])
  {
    var row, stored := db.jobs[j], db.events.Keys;
    NewestWins(db, j, txns, maxClaims);
    NewestWins(db, j, others, maxClaims);
    SameEnd(row, txns, others, RunTxns(db, txns, maxClaims).jobs[j], RunTxns(db, others, maxClaims).jobs[j], stored);
  }

  lemma SameEnd(row: JobRow, txns: seq<Txn>, others: seq<Txn>, a: JobRow, b: JobRow, stored: set<EventId>)
    requires EndsNewest(row, txns, a, stored) && EndsNewest(row, others, b, stored)
    requires EventsAbout(txns, row.external, stored) == EventsAbout(others, row.external, stored)
    requires DistinctTimes(EventsAbout(txns, row.external, stored))
    ensures SameProvider(a, b)
  {
    if d :| IsNewest(row, txns, d, stored) && Shows(a, d.e.event) {
      var e := NewestCarries(row, txns, others, d, stored);
      var f :| IsNewest(row, others, f, stored) && Shows(b, f.e.event);
      NewestUnique(row, others, e, f, stored);
    } else if e :| IsNewest(row, others, e, stored) {
      var d := NewestCarries(row, others, txns, e, stored);
      assert false;
    }
  }
}
