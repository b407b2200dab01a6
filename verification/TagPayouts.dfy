/** At most one payout for each owned tag, under any interleaving of transactions: it holds as long as no
    draft write overwrites a binding that was paid, and after one that does, one credit pays the tag again. */
module TagPayouts {
  import opened Domain
  import opened Tables
  import opened Transactions
  import opened OwnershipMirror
  import ES = EventStore
  import IS = InvoiceStore

  /** A queued transfer job with the owned tag its credit was attributed to. */
  datatype Payout = Payout(tag: Tag, invoice: InvoiceId, job: JobId)

  /** The payout a delivery queues. */
  ghost function Queues(db: Db, txn: EventTxn): seq<Payout> {
    if txn.Deliver? && txn.event.Credited? then
      var rec := MakeRecord(txn.event, txn.digest, txn.at);
      var r, a := ES.Record(db, rec, txn.jobId), ES.AttributionOf(db, rec);
      if r.Committed? && r.value.Queued? && a.Attributed? then [Payout(a.tag, txn.event.invoice, txn.jobId)] else []
    else []
  }

  /** The payout's tag is bound to its invoice, which is the invoice of its job. */
  ghost predicate PayoutOk(owned: map<Tag, OwnedRow>, jobs: map<JobId, JobRow>, p: Payout) {
    && p.tag in owned && owned[p.tag].provider == Some(p.invoice)
    && p.job in jobs && jobs[p.job].invoice == p.invoice
  }

  ghost predicate QueuedAs(payouts: seq<Payout>, j: JobId) {
    exists i :: 0 <= i < |payouts| && payouts[i].job == j
  }

  ghost predicate Paid(payouts: seq<Payout>, tag: Tag) {
    exists i :: 0 <= i < |payouts| && payouts[i].tag == tag
  }

  /** Every job was queued by a payout, no two payouts share a tag, an invoice or a job, and the tags are still
      bound to what they paid. */
  ghost predicate PayoutsOk(owned: map<Tag, OwnedRow>, jobs: map<JobId, JobRow>, payouts: seq<Payout>) {
    && (forall i :: 0 <= i < |payouts| ==> PayoutOk(owned, jobs, payouts[i]))
    && (forall j :: j in jobs ==> QueuedAs(payouts, j))
    && (forall i, k :: 0 <= i < k < |payouts| ==>
          payouts[i].tag != payouts[k].tag && payouts[i].invoice != payouts[k].invoice
            && payouts[i].job != payouts[k].job)
  }

  ghost predicate JobsStay(jobs: map<JobId, JobRow>, jobs': map<JobId, JobRow>) {
    forall j :: j in jobs ==> j in jobs' && jobs'[j].invoice == jobs[j].invoice
  }

  /** The bindings that were paid stay. */
  ghost predicate PaidKept(owned: map<Tag, OwnedRow>, owned': map<Tag, OwnedRow>, payouts: seq<Payout>) {
    forall i :: 0 <= i < |payouts| && payouts[i].tag in owned ==>
      payouts[i].tag in owned' && owned'[payouts[i].tag].provider == owned[payouts[i].tag].provider
  }

  lemma PayoutsStay(owned: map<Tag, OwnedRow>, owned': map<Tag, OwnedRow>, jobs: map<JobId, JobRow>,
                    jobs': map<JobId, JobRow>, payouts: seq<Payout>)
    requires PayoutsOk(owned, jobs, payouts) && PaidKept(owned, owned', payouts)
    requires JobsStay(jobs, jobs') && jobs'.Keys == jobs.Keys
    ensures PayoutsOk(owned', jobs', payouts)
  {
    forall i | 0 <= i < |payouts| ensures PayoutOk(owned', jobs', payouts[i]) {
      assert PayoutOk(owned, jobs, payouts[i]);
    }
    forall j | j in jobs' ensures QueuedAs(payouts, j) {
      assert j in jobs;
    }
  }

  /** A job queued for a new invoice comes with a tag that paid nothing before. */
  lemma PayoutAdded(owned: map<Tag, OwnedRow>, owned': map<Tag, OwnedRow>, jobs: map<JobId, JobRow>,
                    payouts: seq<Payout>, p: Payout, job: JobRow)
    requires PayoutsOk(owned, jobs, payouts) && PaidKept(owned, owned', payouts)
    requires p.job !in jobs && job.invoice == p.invoice && ES.Bound(owned', p.tag, p.invoice)
    requires !ES.HasJob(jobs, p.invoice)
    ensures PayoutsOk(owned', jobs[p.job := job], payouts + [p])
  {
    var jobs', payouts' := jobs[p.job := job], payouts + [p];
    forall i | 0 <= i < |payouts'| ensures PayoutOk(owned', jobs', payouts'[i]) {
      assert i < |payouts| ==> PayoutOk(owned, jobs, payouts[i]);
    }
    forall i | 0 <= i < |payouts|
      ensures payouts[i].tag != p.tag && payouts[i].invoice != p.invoice && payouts[i].job != p.job
    {
      assert PayoutOk(owned, jobs, payouts[i]);
    }
    forall j | j in jobs' ensures QueuedAs(payouts', j) {
      if j == p.job {
        assert payouts'[|payouts|].job == j;
      } else {
        assert QueuedAs(payouts, j);
        var i :| 0 <= i < |payouts| && payouts[i].job == j;
        assert payouts'[i].job == j;
      }
    }
  }

  // ---- Overwriting a binding ----

  datatype Write = Write(draft: DraftId, invoice: Option<InvoiceId>)

  /** The write of a draft together with its owned row, which does not look at what it replaces. */
  function DraftWrite(txn: Txn): Option<Write> {
    if !txn.OfInvoices? then None
    else
      match txn.i
      case MarkCreated(d, x, _) => Some(Write(d, Some(x)))
      case MarkUnknown(f) => Some(Write(f.id, None))
      case MarkFailed(f) => Some(Write(f.id, None))
      case ReconcileDraft(seen, found, _, _, _, _) => if found.Some? then Some(Write(seen.id, found)) else None
      case _ => None
  }

  /** The tag is bound to another invoice than the one written, which, if any, no other row is bound to. */
  ghost predicate OverwritesTag(owned: map<Tag, OwnedRow>, txn: Txn, tag: Tag) {
    var w := DraftWrite(txn);
    && w.Some? && tag == TrialTag(w.value.draft)
    && tag in owned && owned[tag].draft == Some(w.value.draft)
    && owned[tag].provider.Some? && owned[tag].provider != w.value.invoice
    && (w.value.invoice.Some? ==> !IS.InvoiceTaken(owned, tag, w.value.invoice.value))
  }

  ghost predicate Overwrites(owned: map<Tag, OwnedRow>, txn: Txn) {
    DraftWrite(txn).Some? && OverwritesTag(owned, txn, TrialTag(DraftWrite(txn).value.draft))
  }

  /** Every tag keeps its binding, except the one that is overwritten. */
  ghost predicate KeepsOthers(owned: map<Tag, OwnedRow>, owned': map<Tag, OwnedRow>, txn: Txn) {
    forall u :: u in owned ==>
      && u in owned'
      && (owned[u].provider.Some? ==> (owned'[u].provider == owned[u].provider <==> !OverwritesTag(owned, txn, u)))
  }

  lemma KeptByTransition(db: Db, txn: Txn, d: DraftId, status: DraftStatus, x: Option<InvoiceId>, error: Option<string>,
                         at: Time)
    requires Mirror(db.owned, db.drafts) && DraftWrite(txn) == Some(Write(d, x))
    ensures var db' := After(db, IS.Transition(db, d, status, x, error, at));
            KeepsOthers(db.owned, db'.owned, txn) && db' == db.(owned := db'.owned, drafts := db'.drafts)
            && (Overwrites(db.owned, txn) ==> TrialTag(d) in db'.owned && db'.owned[TrialTag(d)].provider == x)
  {
    if x.Some? && d in db.drafts && ES.DraftProviderTaken(db.drafts, d, x.value) {
      MirrorOwnerOfDraft(db.owned, db.drafts, d, x.value);
    }
  }

  lemma KeptByDelivery(db: Db, txn: EventTxn)
    requires Mirror(db.owned, db.drafts)
    ensures BindingsKept(db.owned, EventStep(db, txn).owned)
  {
    if txn.Deliver? {
      var rec := MakeRecord(txn.event, txn.digest, txn.at);
      if rec.event.Lifecycle? {
        ES.TransferEffect(db, rec);
      } else {
        ES.RecordEffect(db, rec, txn.jobId);
        if rec.event.Credited? {
          MirrorAttribute(db.owned, db.drafts, rec.event.invoice, rec.event.tags, rec.receivedAt);
          KeptByAttribution(db.owned, db.drafts, rec.event.invoice, rec.event.tags, rec.receivedAt);
        }
      }
    }
  }

  lemma KeptByAttribution(owned: map<Tag, OwnedRow>, drafts: map<DraftId, DraftRow>, x: InvoiceId, tags: seq<Tag>,
                          at: Time)
    requires Mirror(owned, drafts)
    ensures var r := ES.Attribute(owned, drafts, x, tags, at);
            r.Attributed? ==> BindingsKept(owned, r.owned) && ES.Bound(r.owned, r.tag, x)
  {
    MirrorAttribute(owned, drafts, x, tags, at);
    var r := ES.Attribute(owned, drafts, x, tags, at);
    if r.Attributed? {
      MirrorAttributeTo(owned, drafts, r.tag, x, tags, at);
    }
  }

  lemma KeptByBind(db: Db, tag: Tag, x: InvoiceId, at: Time)
    ensures BindingsKept(db.owned, After(db, IS.Bind(db, tag, x, at)).owned)
  {
  }

  lemma KeptByInvoices(db: Db, txn: InvoiceTxn)
    requires Mirror(db.owned, db.drafts) && DraftWrite(OfInvoices(txn)).None?
    ensures BindingsKept(db.owned, InvoiceStep(db, txn).owned)
  {
    match txn
    case SaveDrafts(batch, amounts, at) =>
      if IS.Save(db, batch, amounts, at).Committed? {
        IS.SaveAddsRows(db, batch, amounts, at);
      }
    case BindInvoice(tag, x, at) => KeptByBind(db, tag, x, at);
    case _ =>
  }

  lemma KeptByStep(db: Db, txn: Txn, maxClaims: int)
    requires Mirror(db.owned, db.drafts)
    ensures KeepsOthers(db.owned, Step(db, txn, maxClaims).owned, txn)
  {
    match txn
    case OfEvents(e) => KeptByDelivery(db, e);
    case OfRuns(r) => RunFrame(db, r, maxClaims);
    case OfJobs(_) =>
    case OfInvoices(i) =>
      match i {
        case MarkCreated(d, x, at) => KeptByTransition(db, txn, d, DraftCreated, Some(x), None, at);
        case MarkUnknown(f) => KeptByTransition(db, txn, f.id, DraftUnknown, None, Some(f.error), f.at);
        case MarkFailed(f) => KeptByTransition(db, txn, f.id, DraftFailed, None, Some(f.error), f.at);
        case ReconcileDraft(seen, found, at, _, _, _) =>
          if found.Some? {
            KeptByTransition(db, txn, seen.id, DraftCreated, found, None, at);
          } else {
            KeptByInvoices(db, i);
          }
        case _ => KeptByInvoices(db, i);
      }
  }

  /** A transaction keeps all bindings if and only if it does not overwrite one. */
  lemma KeepsBindingsExactly(db: Db, txn: Txn, maxClaims: int)
    requires Mirror(db.owned, db.drafts)
    ensures BindingsKept(db.owned, Step(db, txn, maxClaims).owned) <==> !Overwrites(db.owned, txn)
  {
    KeptByStep(db, txn, maxClaims);
  }

  // ---- Runs of transactions ----

  /** A database and the payouts that led to it. */
  datatype Books = Books(db: Db, payouts: seq<Payout>)

  ghost function PayStep(s: Books, txn: Txn, maxClaims: int): Books {
    Books(Step(s.db, txn, maxClaims), s.payouts + if txn.OfEvents? then Queues(s.db, txn.e) else [])
  }

  ghost function PayRun(s: Books, txns: seq<Txn>, maxClaims: int): Books
    decreases |txns|
  {
    if txns == [] then s else PayRun(PayStep(s, txns[0], maxClaims), txns[1..], maxClaims)
  }

  ghost predicate InOrder(s: Books) {
    PayoutsOk(s.db.owned, s.db.jobs, s.payouts)
  }

  /** The transaction overwrites a binding that was paid. */
  ghost predicate OverwritesPaid(s: Books, txn: Txn) {
    Overwrites(s.db.owned, txn) && Paid(s.payouts, TrialTag(DraftWrite(txn).value.draft))
  }

  /** No transaction of the run overwrites a binding that was paid. */
  ghost predicate Guarded(s: Books, txns: seq<Txn>, maxClaims: int)
    decreases |txns|
  {
    txns == [] || (!OverwritesPaid(s, txns[0]) && Guarded(PayStep(s, txns[0], maxClaims), txns[1..], maxClaims))
  }

  /** The payouts are in order after every transaction of the run. */
  ghost predicate AlwaysInOrder(s: Books, txns: seq<Txn>, maxClaims: int)
    decreases |txns|
  {
    InOrder(s) && (txns == [] || AlwaysInOrder(PayStep(s, txns[0], maxClaims), txns[1..], maxClaims))
  }

  /** A delivery queues a new job for an invoice without one, under the tag now bound to the invoice, or keeps
      the jobs. */
  ghost predicate QueueKept(db: Db, db': Db, q: seq<Payout>) {
    if q == [] then JobsStay(db.jobs, db'.jobs) && db'.jobs.Keys == db.jobs.Keys
    else
      && |q| == 1 && q[0].job in db'.jobs && db'.jobs == db.jobs[q[0].job := db'.jobs[q[0].job]]
      && q[0].job !in db.jobs && db'.jobs[q[0].job].invoice == q[0].invoice
      && ES.Bound(db'.owned, q[0].tag, q[0].invoice) && !ES.HasJob(db.jobs, q[0].invoice)
  }

  lemma QueuesLifecycle(db: Db, txn: EventTxn)
    requires txn.Deliver? && txn.event.Lifecycle?
    ensures QueueKept(db, EventStep(db, txn), Queues(db, txn))
  {
    ES.TransferEffect(db, MakeRecord(txn.event, txn.digest, txn.at));
  }

  lemma QueuesCredit(db: Db, txn: EventTxn)
    requires Mirror(db.owned, db.drafts) && txn.Deliver? && txn.event.Credited?
    ensures QueueKept(db, EventStep(db, txn), Queues(db, txn))
  {
    var rec := MakeRecord(txn.event, txn.digest, txn.at);
    KeptByAttribution(db.owned, db.drafts, rec.event.invoice, rec.event.tags, rec.receivedAt);
    ES.RecordEffect(db, rec, txn.jobId);
  }

  lemma QueuesEffect(db: Db, txn: EventTxn)
    requires Mirror(db.owned, db.drafts)
    ensures QueueKept(db, EventStep(db, txn), Queues(db, txn))
  {
    if txn.Deliver? {
      match txn.event
      case Lifecycle(_, _, _, _, _, _, _) => QueuesLifecycle(db, txn);
      case Credited(_, _, _, _, _, _) => QueuesCredit(db, txn);
      case Ignored(_, _, _, _) => ES.RecordEffect(db, MakeRecord(txn.event, txn.digest, txn.at), txn.jobId);
    }
  }

  lemma DispatchStays(jobs: map<JobId, JobRow>, txn: JobTxn)
    ensures JobsStay(jobs, JobStep(jobs, txn)) && JobStep(jobs, txn).Keys == jobs.Keys
  {
  }

  /** What a transaction queues, and that it keeps all other jobs. */
  lemma StepQueues(s: Books, txn: Txn, maxClaims: int)
    requires Mirror(s.db.owned, s.db.drafts)
    ensures QueueKept(s.db, Step(s.db, txn, maxClaims), if txn.OfEvents? then Queues(s.db, txn.e) else [])
  {
    match txn
    case OfEvents(e) => QueuesEffect(s.db, e);
    case OfInvoices(i) => InvoiceFrame(s.db, i);
    case OfRuns(r) => RunFrame(s.db, r, maxClaims);
    case OfJobs(j) => DispatchStays(s.db.jobs, j);
  }

  /** A transaction keeps the payouts in order if and only if it does not overwrite a binding that was paid. */
  lemma InOrderExactly(s: Books, txn: Txn, maxClaims: int)
    requires Mirror(s.db.owned, s.db.drafts) && InOrder(s)
    ensures InOrder(PayStep(s, txn, maxClaims)) <==> !OverwritesPaid(s, txn)
  {
    var s' := PayStep(s, txn, maxClaims);
    KeptByStep(s.db, txn, maxClaims);
    if OverwritesPaid(s, txn) {
      var i :| 0 <= i < |s.payouts| && s.payouts[i].tag == TrialTag(DraftWrite(txn).value.draft);
      assert s'.payouts[i] == s.payouts[i];
      assert PayoutOk(s.db.owned, s.db.jobs, s.payouts[i]) && !PayoutOk(s'.db.owned, s'.db.jobs, s'.payouts[i]);
    } else {
      assert PaidKept(s.db.owned, s'.db.owned, s.payouts) by { PaidBindingsKept(s, s'.db.owned, txn); }
      StepQueues(s, txn, maxClaims);
      InOrderStep(s, s');
    }
  }

  lemma PaidBindingsKept(s: Books, owned': map<Tag, OwnedRow>, txn: Txn)
    requires InOrder(s) && KeepsOthers(s.db.owned, owned', txn) && !OverwritesPaid(s, txn)
    ensures PaidKept(s.db.owned, owned', s.payouts)
  {
    forall i | 0 <= i < |s.payouts|
      ensures s.payouts[i].tag in owned' && owned'[s.payouts[i].tag].provider == s.db.owned[s.payouts[i].tag].provider
    {
      assert PayoutOk(s.db.owned, s.db.jobs, s.payouts[i]);
      assert Paid(s.payouts, s.payouts[i].tag);
    }
  }

  lemma InOrderStep(s: Books, s': Books)
    requires InOrder(s) && PaidKept(s.db.owned, s'.db.owned, s.payouts) && s.payouts <= s'.payouts
    requires QueueKept(s.db, s'.db, s'.payouts[|s.payouts|..])
    ensures InOrder(s')
  {
    var q := s'.payouts[|s.payouts|..];
    assert s'.payouts == s.payouts + q;
    if q == [] {
      PayoutsStay(s.db.owned, s'.db.owned, s.db.jobs, s'.db.jobs, s.payouts);
    } else {
      PayoutAdded(s.db.owned, s'.db.owned, s.db.jobs, s.payouts, q[0], s'.db.jobs[q[0].job]);
      assert q == [q[0]];
    }
  }

  /** Over any run of transactions in any order and with any arguments: jobs and payouts correspond one to one,
      with no tag paid twice and paid tags bound to what they paid, throughout, if and only if no transaction
      overwrites a binding that was paid. */
  lemma {:induction false} OnePayoutExactly(s: Books, txns: seq<Txn>, maxClaims: int)
    requires Mirror(s.db.owned, s.db.drafts) && InOrder(s)
    ensures AlwaysInOrder(s, txns, maxClaims) <==> Guarded(s, txns, maxClaims)
    ensures Guarded(s, txns, maxClaims) ==> InOrder(PayRun(s, txns, maxClaims))
    decreases |txns|
  {
    if txns != [] {
      var s' := PayStep(s, txns[0], maxClaims);
      InOrderExactly(s, txns[0], maxClaims);
      MirrorStep(s.db, txns[0], maxClaims);
      if InOrder(s') {
        OnePayoutExactly(s', txns[1..], maxClaims);
      }
    }
  }

  /** A bound tag is paid if and only if the invoice it is bound to has a job, so a caller can check the guard. */
  lemma PaidIffJob(s: Books, tag: Tag)
    requires Mirror(s.db.owned, s.db.drafts) && InOrder(s) && tag in s.db.owned && s.db.owned[tag].provider.Some?
    ensures Paid(s.payouts, tag) <==> ES.HasJob(s.db.jobs, s.db.owned[tag].provider.value)
  {
    var x := s.db.owned[tag].provider.value;
    if Paid(s.payouts, tag) {
      var i :| 0 <= i < |s.payouts| && s.payouts[i].tag == tag;
      assert PayoutOk(s.db.owned, s.db.jobs, s.payouts[i]);
    }
    if ES.HasJob(s.db.jobs, x) {
      var j :| j in s.db.jobs && s.db.jobs[j].invoice == x;
      assert QueuedAs(s.payouts, j);
      var i :| 0 <= i < |s.payouts| && s.payouts[i].job == j;
      assert PayoutOk(s.db.owned, s.db.jobs, s.payouts[i]);
    }
  }

  lemma OverwritesPaidIsCheckable(s: Books, txn: Txn)
    requires Mirror(s.db.owned, s.db.drafts) && InOrder(s)
    ensures OverwritesPaid(s, txn)
       <==> Overwrites(s.db.owned, txn)
            && ES.HasJob(s.db.jobs, s.db.owned[TrialTag(DraftWrite(txn).value.draft)].provider.value)
  {
    if Overwrites(s.db.owned, txn) {
      PaidIffJob(s, TrialTag(DraftWrite(txn).value.draft));
    }
  }

  /** So no tag is paid twice, from the empty tables on. */
  lemma OnePayoutPerTag(txns: seq<Txn>, maxClaims: int)
    requires Guarded(Books(EMPTY_DB, []), txns, maxClaims)
    ensures var s := PayRun(Books(EMPTY_DB, []), txns, maxClaims);
            && InOrder(s)
            && (forall i, k :: 0 <= i < |s.payouts| && 0 <= k < |s.payouts| && s.payouts[i].tag == s.payouts[k].tag ==>
                  i == k)
  {
    OnePayoutExactly(Books(EMPTY_DB, []), txns, maxClaims);
  }

  // ---- After a paid binding was overwritten ----

  /** A valid credit, new in every respect, of an invoice that has the tag, and that the tag may take. */
  ghost predicate FreshCredit(db: Db, txn: EventTxn, tag: Tag) {
    && txn.Deliver? && txn.event.Credited? && txn.event.tags == [tag] && 0 <= txn.event.fee < txn.event.amount
    && txn.event.id !in db.events && txn.jobId !in db.jobs
    && (forall j :: j in db.jobs ==> db.jobs[j].event != txn.event.id && db.jobs[j].invoice != txn.event.invoice)
    && MayTake(db.owned, tag, txn.event.invoice)
  }

  /** The tag is bound to the invoice, or neither is bound. */
  ghost predicate MayTake(owned: map<Tag, OwnedRow>, tag: Tag, x: InvoiceId) {
    tag in owned
    && (owned[tag].provider == Some(x)
        || (owned[tag].provider.None? && forall u :: !ES.Bound(owned, u, x)))
  }

  lemma FreshCreditAttributed(db: Db, txn: EventTxn, tag: Tag)
    requires Mirror(db.owned, db.drafts) && FreshCredit(db, txn, tag)
    ensures var a := ES.Attribute(db.owned, db.drafts, txn.event.invoice, txn.event.tags, txn.at);
            a.Attributed? && a.tag == tag && a.owned.Keys == db.owned.Keys && ES.Bound(a.owned, tag, txn.event.invoice)
            && (forall u :: u in db.owned && u != tag ==> a.owned[u] == db.owned[u])
            && a.owned[tag].draft == db.owned[tag].draft
  {
    var x, tags := txn.event.invoice, txn.event.tags;
    assert ES.Attributable(db.owned, x, tags, tag);
    MirrorAttribute(db.owned, db.drafts, x, tags, txn.at);
    var a := ES.Attribute(db.owned, db.drafts, x, tags, txn.at);
    ES.AttributableUnique(db.owned, x, tags, tag, a.tag);
    MirrorAttributeTo(db.owned, db.drafts, tag, x, tags, txn.at);
  }

  /** It queues a job under the tag. */
  lemma FreshCreditPays(db: Db, txn: EventTxn, tag: Tag)
    requires Mirror(db.owned, db.drafts) && FreshCredit(db, txn, tag)
    ensures Queues(db, txn) == [Payout(tag, txn.event.invoice, txn.jobId)]
  {
    FreshCreditAttributed(db, txn, tag);
    FreshCreditRecorded(db, txn, tag);
  }

  lemma FreshCreditRecorded(db: Db, txn: EventTxn, tag: Tag)
    requires FreshCredit(db, txn, tag)
    requires ES.Attribute(db.owned, db.drafts, txn.event.invoice, txn.event.tags, txn.at).Attributed?
    ensures var rec := MakeRecord(txn.event, txn.digest, txn.at);
            ES.Record(db, rec, txn.jobId)
              == Committed(ES.Credit(db, rec, txn.jobId, ES.AttributionOf(db, rec), Queued), Queued)
  {
    ES.RecordEffect(db, MakeRecord(txn.event, txn.digest, txn.at), txn.jobId);
  }

  /** After a paid binding was overwritten, every fresh credit of its tag pays the tag again. */
  lemma OverwrittenTagPaysAgain(s: Books, txn: Txn, credit: EventTxn, maxClaims: int)
    requires Mirror(s.db.owned, s.db.drafts) && OverwritesPaid(s, txn)
    requires FreshCredit(Step(s.db, txn, maxClaims), credit, TrialTag(DraftWrite(txn).value.draft))
    ensures PaysTwice(PayRun(s, [txn, OfEvents(credit)], maxClaims).payouts, TrialTag(DraftWrite(txn).value.draft))
  {
    var tag := TrialTag(DraftWrite(txn).value.draft);
    var s1 := PayStep(s, txn, maxClaims);
    MirrorStep(s.db, txn, maxClaims);
    FreshCreditPays(s1.db, credit, tag);
    var s2 := PayStep(s1, OfEvents(credit), maxClaims);
    assert [txn, OfEvents(credit)][1..] == [OfEvents(credit)] && [OfEvents(credit)][1..] == [];
    assert PayRun(s1, [OfEvents(credit)], maxClaims) == s2;
    var i :| 0 <= i < |s.payouts| && s.payouts[i].tag == tag;
    assert s2.payouts[i].tag == tag && s2.payouts[|s.payouts|].tag == tag;
  }

  ghost predicate PaysTwice(payouts: seq<Payout>, tag: Tag) {
    exists i, k :: 0 <= i < k < |payouts| && payouts[i].tag == tag && payouts[k].tag == tag
  }

  // ---- Such a credit exists ----

  lemma {:induction false} LongerText(texts: set<string>) returns (s: string)
    ensures forall t :: t in texts ==> |t| < |s|
    decreases |texts|
  {
    s := "a";
    if texts != {} {
      var t :| t in texts;
      var u := LongerText(texts - {t});
      s := u + t + "a";
    }
  }

  /** After a paid binding was overwritten, an invoice exists that the tag may take and that has no job. */
  lemma InvoiceToTake(s: Books, txn: Txn, maxClaims: int) returns (x: InvoiceId)
    requires Mirror(s.db.owned, s.db.drafts) && InOrder(s) && OverwritesPaid(s, txn)
    ensures var db' := Step(s.db, txn, maxClaims);
            MayTake(db'.owned, TrialTag(DraftWrite(txn).value.draft), x) && !ES.HasJob(db'.jobs, x)
  {
    var db', w := Step(s.db, txn, maxClaims), DraftWrite(txn).value;
    var tag := TrialTag(w.draft);
    OverwriteEffect(s.db, txn, maxClaims);
    if w.invoice.Some? {
      x := w.invoice.value;
      forall j | j in s.db.jobs ensures s.db.jobs[j].invoice != x {
        assert QueuedAs(s.payouts, j);
        var i :| 0 <= i < |s.payouts| && s.payouts[i].job == j;
        assert PayoutOk(s.db.owned, s.db.jobs, s.payouts[i]);
        assert s.payouts[i].tag != tag ==> s.db.owned[s.payouts[i].tag].provider != Some(x);
      }
    } else {
      var bound := set u | u in db'.owned && db'.owned[u].provider.Some? :: db'.owned[u].provider.value.text;
      var paid := set j | j in db'.jobs :: db'.jobs[j].invoice.text;
      var text := LongerText(bound + paid);
      x := InvoiceId(text);
      forall u ensures !ES.Bound(db'.owned, u, x) {
        assert ES.Bound(db'.owned, u, x) ==> text in bound;
      }
      forall j | j in db'.jobs ensures db'.jobs[j].invoice != x {
        assert db'.jobs[j].invoice.text in paid;
      }
    }
  }

  lemma OverwriteEffect(db: Db, txn: Txn, maxClaims: int)
    requires Mirror(db.owned, db.drafts) && Overwrites(db.owned, txn)
    ensures var db', w := Step(db, txn, maxClaims), DraftWrite(txn).value;
            && TrialTag(w.draft) in db'.owned && db'.owned[TrialTag(w.draft)].provider == w.invoice
            && db'.jobs == db.jobs && db'.events == db.events
  {
    match txn.i
    case MarkCreated(d, x, at) => KeptByTransition(db, txn, d, DraftCreated, Some(x), None, at);
    case MarkUnknown(f) => KeptByTransition(db, txn, f.id, DraftUnknown, None, Some(f.error), f.at);
    case MarkFailed(f) => KeptByTransition(db, txn, f.id, DraftFailed, None, Some(f.error), f.at);
    case ReconcileDraft(seen, found, at, _, _, _) => KeptByTransition(db, txn, seen.id, DraftCreated, found, None, at);
  }

  /** Whenever a paid binding is overwritten, some credit pays its tag a second time: the guard is exact. */
  lemma OverwritePaysTwice(s: Books, txn: Txn, maxClaims: int) returns (credit: EventTxn)
    requires Mirror(s.db.owned, s.db.drafts) && InOrder(s) && OverwritesPaid(s, txn)
    ensures FreshCredit(Step(s.db, txn, maxClaims), credit, TrialTag(DraftWrite(txn).value.draft))
    ensures PaysTwice(PayRun(s, [txn, OfEvents(credit)], maxClaims).payouts, TrialTag(DraftWrite(txn).value.draft))
  {
    var db', tag := Step(s.db, txn, maxClaims), TrialTag(DraftWrite(txn).value.draft);
    var x := InvoiceToTake(s, txn, maxClaims);
    var stored := set e | e in db'.events :: e.text;
    var used := set j | j in db'.jobs :: db'.jobs[j].event.text;
    var jobs := set j: JobId | j in db'.jobs :: j.text;
    var event := LongerText(stored + used);
    var job := LongerText(jobs);
    credit := Deliver(Credited(EventId(event), x, 1, 0, "", [tag]), Digest(event), 0, JobId(job));
    assert EventId(event) !in db'.events by { assert EventId(event) in db'.events ==> event in stored; }
    assert JobId(job) !in db'.jobs by { assert JobId(job) in db'.jobs ==> job in jobs; }
    forall j | j in db'.jobs ensures db'.jobs[j].event != EventId(event) {
      assert db'.jobs[j].event.text in used;
    }
    OverwrittenTagPaysAgain(s, txn, credit, maxClaims);
  }

  /** For example: a credit, and then a timed-out create that is stored late. */
  lemma StaleWritePaysTwice(s: Books, first: EventTxn, f: IS.DraftFailure, maxClaims: int) returns (second: EventTxn)
    requires Mirror(s.db.owned, s.db.drafts) && InOrder(s) && f.id in s.db.drafts
    requires FreshCredit(s.db, first, TrialTag(f.id))
    ensures PaysTwice(PayRun(s, [OfEvents(first), OfInvoices(MarkUnknown(f)), OfEvents(second)], maxClaims).payouts,
                      TrialTag(f.id))
  {
    var late := OfInvoices(MarkUnknown(f));
    LateWriteOverwrites(s, first, f, maxClaims);
    InOrderExactly(s, OfEvents(first), maxClaims);
    MirrorStep(s.db, OfEvents(first), maxClaims);
    second := OverwritePaysTwice(PayStep(s, OfEvents(first), maxClaims), late, maxClaims);
    assert [OfEvents(first), late, OfEvents(second)][1..] == [late, OfEvents(second)];
  }

  lemma LateWriteOverwrites(s: Books, first: EventTxn, f: IS.DraftFailure, maxClaims: int)
    requires Mirror(s.db.owned, s.db.drafts) && f.id in s.db.drafts && FreshCredit(s.db, first, TrialTag(f.id))
    ensures !OverwritesPaid(s, OfEvents(first))
    ensures OverwritesPaid(PayStep(s, OfEvents(first), maxClaims), OfInvoices(MarkUnknown(f)))
  {
    var tag := TrialTag(f.id);
    assert Linked(s.db.owned, s.db.drafts, f.id);
    FreshCreditPays(s.db, first, tag);
    FreshCreditBinds(s.db, first, tag);
    assert PayStep(s, OfEvents(first), maxClaims).payouts[|s.payouts|].tag == tag;
  }

  lemma FreshCreditBinds(db: Db, txn: EventTxn, tag: Tag)
    requires Mirror(db.owned, db.drafts) && FreshCredit(db, txn, tag)
    ensures var db' := EventStep(db, txn);
            ES.Bound(db'.owned, tag, txn.event.invoice) && db'.owned[tag].draft == db.owned[tag].draft
  {
    FreshCreditAttributed(db, txn, tag);
    FreshCreditRecorded(db, txn, tag);
  }
}
