/** The mirror between drafts and owned rows, kept by every transaction whatever its arguments. */
module OwnershipMirror {
  import opened Domain
  import opened Tables
  import opened Transactions
  import ES = EventStore
  import IS = InvoiceStore

  ghost predicate Linked(owned: map<Tag, OwnedRow>, drafts: map<DraftId, DraftRow>, d: DraftId)
    requires d in drafts
  {
    && TrialTag(d) in owned && owned[TrialTag(d)].draft == Some(d)
    && (drafts[d].provider.Some? ==> owned[TrialTag(d)].provider == drafts[d].provider)
    && (drafts[d].status.DraftCreated? ==> drafts[d].provider.Some?)
  }

  /** A draft and the owned row of its tag point at each other; an invoice bound to the draft is bound to
      the row; a created draft has an invoice. */
  ghost predicate Mirror(owned: map<Tag, OwnedRow>, drafts: map<DraftId, DraftRow>) {
    && OwnedKeys(owned)
    && (forall d :: d in drafts ==> Linked(owned, drafts, d))
    && (forall t :: t in owned && owned[t].draft.Some? ==>
          t == TrialTag(owned[t].draft.value) && owned[t].draft.value in drafts)
  }

  /** No owned row goes away, and a bound one keeps its invoice. */
  ghost predicate BindingsKept(owned: map<Tag, OwnedRow>, owned': map<Tag, OwnedRow>) {
    forall t :: t in owned ==> t in owned' && (owned[t].provider.Some? ==> owned'[t].provider == owned[t].provider)
  }

  /** Writing an owned row without touching its draft link, and binding it at most to an invoice that no
      other row has, keeps the mirror. */
  lemma MirrorOwnedWrite(owned: map<Tag, OwnedRow>, drafts: map<DraftId, DraftRow>, t: Tag, row: OwnedRow)
    requires Mirror(owned, drafts) && t in owned && row.draft == owned[t].draft
    requires owned[t].provider.Some? ==> row.provider == owned[t].provider
    requires row.provider.Some? ==> forall u :: ES.Bound(owned, u, row.provider.value) ==> u == t
    ensures Mirror(owned[t := row], drafts)
  {
    var owned' := owned[t := row];
    forall u, v | u in owned' && v in owned' && owned'[u].provider == owned'[v].provider && owned'[u].provider.Some?
      ensures u == v
    {
      var x := owned'[u].provider.value;
      assert u != t ==> ES.Bound(owned, u, x);
      assert v != t ==> ES.Bound(owned, v, x);
    }
    forall d | d in drafts ensures Linked(owned', drafts, d) {
      assert Linked(owned, drafts, d);
    }
  }

  /** Writing a draft whose invoice, if any, its owned row is bound to, keeps the mirror. */
  lemma MirrorDraftWrite(owned: map<Tag, OwnedRow>, drafts: map<DraftId, DraftRow>, d: DraftId, row: DraftRow)
    requires Mirror(owned, drafts) && d in drafts
    requires row.provider.Some? ==> owned[TrialTag(d)].provider == row.provider
    requires row.status.DraftCreated? ==> row.provider.Some?
    ensures Mirror(owned, drafts[d := row])
  {
    var drafts' := drafts[d := row];
    forall e | e in drafts' ensures Linked(owned, drafts', e) {
      assert Linked(owned, drafts, e);
    }
  }

  /** Under the mirror the unique key of the drafts never refuses what the key of the owned rows lets pass. */
  lemma MirrorOwnerOfDraft(owned: map<Tag, OwnedRow>, drafts: map<DraftId, DraftRow>, d: DraftId, invoice: InvoiceId)
    requires Mirror(owned, drafts) && d in drafts && ES.DraftProviderTaken(drafts, d, invoice)
    ensures IS.InvoiceTaken(owned, TrialTag(d), invoice)
  {
    var e :| e in drafts && e != d && drafts[e].provider == Some(invoice);
    assert Linked(owned, drafts, e);
    assert TrialTag(e) in owned && TrialTag(e) != TrialTag(d);
  }

  /** Attribution keeps the mirror, never breaks a constraint, and leaves the draft of the row created. */
  lemma MirrorAttributeTo(owned: map<Tag, OwnedRow>, drafts: map<DraftId, DraftRow>, t: Tag, invoice: InvoiceId,
                          tags: seq<Tag>, at: Time)
    requires Mirror(owned, drafts) && ES.Attributable(owned, invoice, tags, t)
    ensures var r := ES.AttributeTo(owned, drafts, t, invoice, at);
            && r.Attributed? && r.tag == t && Mirror(r.owned, r.drafts)
            && r.owned == (if owned[t].provider.Some? then owned else
                             owned[t := owned[t].(provider := Some(invoice), updatedAt := at)])
            && r.drafts == (if owned[t].draft.None? then drafts else
                              var d := owned[t].draft.value;
                              drafts[d := drafts[d].(provider := Some(invoice), status := DraftCreated,
                                                     updatedAt := at)])
            && ES.Bound(r.owned, t, invoice)
  {
    var row := if owned[t].provider.Some? then owned[t] else owned[t].(provider := Some(invoice), updatedAt := at);
    var owned' := owned[t := row];
    assert owned[t].provider.Some? ==> owned' == owned && ES.Bound(owned, t, invoice);
    assert forall u :: ES.Bound(owned, u, invoice) ==> u == t;
    MirrorOwnedWrite(owned, drafts, t, row);
    if owned[t].draft.Some? {
      var d := owned[t].draft.value;
      assert Linked(owned', drafts, d);
      if ES.DraftProviderTaken(drafts, d, invoice) {
        MirrorOwnerOfDraft(owned', drafts, d, invoice);
        assert false;
      }
      MirrorDraftWrite(owned', drafts, d,
                       drafts[d].(provider := Some(invoice), status := DraftCreated, updatedAt := at));
    }
  }

  lemma MirrorAttribute(owned: map<Tag, OwnedRow>, drafts: map<DraftId, DraftRow>, invoice: InvoiceId, tags: seq<Tag>,
                        at: Time)
    requires Mirror(owned, drafts)
    ensures var r := ES.Attribute(owned, drafts, invoice, tags, at);
            !r.AttributionConflict? && (r.Attributed? ==>
              && Mirror(r.owned, r.drafts)
              && ES.Attributable(owned, invoice, tags, r.tag)
              && r == ES.AttributeTo(owned, drafts, r.tag, invoice, at))
  {
    if exists t :: ES.Attributable(owned, invoice, tags, t) {
      var t :| ES.Attributable(owned, invoice, tags, t)
               && ES.Attribute(owned, drafts, invoice, tags, at) == ES.AttributeTo(owned, drafts, t, invoice, at);
      MirrorAttributeTo(owned, drafts, t, invoice, tags, at);
    }
  }

  lemma MirrorTransition(db: Db, d: DraftId, status: DraftStatus, provider: Option<InvoiceId>, error: Option<string>,
                         at: Time)
    requires Mirror(db.owned, db.drafts) && (status.DraftCreated? ==> provider.Some?)
    ensures var db' := After(db, IS.Transition(db, d, status, provider, error, at)); Mirror(db'.owned, db'.drafts)
  {
  }

  lemma MirrorSave(db: Db, batch: BatchId, amounts: seq<Cents>, at: Time)
    requires Mirror(db.owned, db.drafts)
    ensures var db' := After(db, IS.Save(db, batch, amounts, at)); Mirror(db'.owned, db'.drafts)
  {
    if IS.Save(db, batch, amounts, at).Committed? {
      var db' := IS.Save(db, batch, amounts, at).db;
      IS.SaveAddsRows(db, batch, amounts, at);
      MirrorSavedRows(db.owned, db.drafts, db'.owned, db'.drafts, batch, |amounts|);
    }
  }

  lemma MirrorSavedRows(owned: map<Tag, OwnedRow>, drafts: map<DraftId, DraftRow>, owned': map<Tag, OwnedRow>,
                        drafts': map<DraftId, DraftRow>, batch: BatchId, n: nat)
    requires Mirror(owned, drafts) && IS.SavedRows(owned, drafts, owned', drafts', batch, n)
    ensures Mirror(owned', drafts')
  {
    forall t | t in owned' && t !in owned
      ensures owned'[t].provider.None? && owned'[t].draft == Some(t.draft) && t.draft in drafts'
    {
      assert IS.AddedRows(owned, owned', drafts', t.draft);
    }
    forall d | d in drafts' ensures Linked(owned', drafts', d) {
      if d in drafts {
        assert Linked(owned, drafts, d);
      } else {
        assert IS.AddedRows(owned, owned', drafts', d);
      }
    }
  }

  lemma MirrorDeliver(db: Db, rec: EventRecord, jobId: JobId)
    requires Mirror(db.owned, db.drafts)
    ensures var db' := After(db, ES.Record(db, rec, jobId)); Mirror(db'.owned, db'.drafts)
  {
    if !rec.event.Lifecycle? {
      ES.RecordEffect(db, rec, jobId);
      if rec.event.Credited? {
        MirrorAttribute(db.owned, db.drafts, rec.event.invoice, rec.event.tags, rec.receivedAt);
      }
    }
  }

  lemma MirrorBind(db: Db, tag: Tag, invoice: InvoiceId, at: Time)
    requires Mirror(db.owned, db.drafts)
    ensures var db' := After(db, IS.Bind(db, tag, invoice, at)); Mirror(db'.owned, db'.drafts)
  {
    if tag in db.owned {
      var row := db.owned[tag];
      if row.provider == Some(invoice) {
        assert ES.Bound(db.owned, tag, invoice);
        MirrorOwnedWrite(db.owned, db.drafts, tag, row.(updatedAt := at));
      } else if row.provider.None? && !IS.InvoiceTaken(db.owned, tag, invoice) {
        MirrorOwnedWrite(db.owned, db.drafts, tag, row.(provider := Some(invoice), updatedAt := at));
      }
    }
  }

  lemma MirrorReconcile(db: Db, seen: IS.InvoiceDraft, found: Option<InvoiceId>, at: Time, max: int, maxR: int,
                        delay: int)
    requires Mirror(db.owned, db.drafts)
    ensures var db' := After(db, IS.Reconcile(db, seen, found, at, max, maxR, delay)); Mirror(db'.owned, db'.drafts)
  {
    if found.Some? {
      MirrorTransition(db, seen.id, DraftCreated, found, None, at);
    } else if seen.id in db.drafts {
      assert Linked(db.owned, db.drafts, seen.id);
    }
  }

  lemma MirrorRetry(db: Db, f: IS.DraftFailure, delay: int, max: int)
    requires Mirror(db.owned, db.drafts)
    ensures var db' := After(db, IS.Retry(db, f, delay, max)); Mirror(db'.owned, db'.drafts)
  {
  }

  lemma MirrorRegister(db: Db, key: string, at: Time)
    requires Mirror(db.owned, db.drafts)
    ensures var db' := IS.RegisterSmoke(db, SmokeTag(key), at); Mirror(db'.owned, db'.drafts)
  {
    var db' := IS.RegisterSmoke(db, SmokeTag(key), at);
    forall d | d in db.drafts ensures Linked(db'.owned, db.drafts, d) {
      assert Linked(db.owned, db.drafts, d);
    }
  }

  lemma MirrorInvoices(db: Db, txn: InvoiceTxn)
    requires Mirror(db.owned, db.drafts)
    ensures var db' := InvoiceStep(db, txn); Mirror(db'.owned, db'.drafts)
  {
    match txn
    case SaveDrafts(batch, amounts, at) => MirrorSave(db, batch, amounts, at);
    case RegisterSmoke(key, at) => MirrorRegister(db, key, at);
    case BindInvoice(tag, invoice, at) => MirrorBind(db, tag, invoice, at);
    case MarkCreated(d, invoice, at) => MirrorTransition(db, d, DraftCreated, Some(invoice), None, at);
    case MarkUnknown(f) => MirrorTransition(db, f.id, DraftUnknown, None, Some(f.error), f.at);
    case MarkFailed(f) => MirrorTransition(db, f.id, DraftFailed, None, Some(f.error), f.at);
    case RetryDraft(f, delay, max) => MirrorRetry(db, f, delay, max);
    case ReconcileDraft(seen, found, at, max, maxR, delay) => MirrorReconcile(db, seen, found, at, max, maxR, delay);
  }

  lemma MirrorStep(db: Db, txn: Txn, maxClaims: int)
    requires Mirror(db.owned, db.drafts)
    ensures var db' := Step(db, txn, maxClaims); Mirror(db'.owned, db'.drafts)
  {
    match txn
    case OfEvents(e) =>
      if e.Deliver? {
        MirrorDeliver(db, MakeRecord(e.event, e.digest, e.at), e.jobId);
      }
    case OfInvoices(i) => MirrorInvoices(db, i);
    case OfRuns(r) => RunFrame(db, r, maxClaims);
    case OfJobs(_) =>
  }
}
