/** What issuing, reconciling, saving and crediting a draft do to the drafts and the owned rows, as long as
    a pass acts on rows that are still as it listed them. */
module DraftProtocol {
  import opened Domain
  import opened Tables
  import opened InvoiceProvider
  import opened OwnershipMirror
  import opened TrialService
  import ES = EventStore
  import IS = InvoiceStore

  ghost predicate ExactDraft(owned: map<Tag, OwnedRow>, drafts: map<DraftId, DraftRow>, d: DraftId)
    requires d in drafts
  {
    && TrialTag(d) in owned && owned[TrialTag(d)].provider == drafts[d].provider
    && (drafts[d].status.DraftCreated? <==> drafts[d].provider.Some?)
  }

  /** The mirror with nothing loose: a draft is created exactly when it has an invoice, exactly when its
      owned row is bound. */
  ghost predicate Exact(owned: map<Tag, OwnedRow>, drafts: map<DraftId, DraftRow>) {
    Mirror(owned, drafts) && forall d :: d in drafts ==> ExactDraft(owned, drafts, d)
  }

  /** Bindings are kept, and the only new one, if any, is of one tag to one invoice. */
  ghost predicate BindsAtMost(owned: map<Tag, OwnedRow>, owned': map<Tag, OwnedRow>, t: Tag, x: Option<InvoiceId>) {
    && BindingsKept(owned, owned')
    && (forall u, y :: ES.Bound(owned', u, y) ==> ES.Bound(owned, u, y) || (u == t && x == Some(y)))
  }

  /** No draft goes away, and a created one stays created. */
  ghost predicate DraftsKept(drafts: map<DraftId, DraftRow>, drafts': map<DraftId, DraftRow>) {
    forall d :: d in drafts ==> d in drafts' && (drafts[d].status.DraftCreated? ==> drafts'[d].status.DraftCreated?)
  }

  /** An invoice stays free for a tag when another one is bound. */
  lemma StaysFree(owned: map<Tag, OwnedRow>, owned': map<Tag, OwnedRow>, t: Tag, z: Option<InvoiceId>, tag: Tag,
                  x: InvoiceId)
    requires BindsAtMost(owned, owned', t, z) && z != Some(x) && !IS.InvoiceTaken(owned, tag, x)
    ensures !IS.InvoiceTaken(owned', tag, x)
  {
    forall u | u in owned' && u != tag ensures owned'[u].provider != Some(x) {
      assert ES.Bound(owned', u, x) ==> ES.Bound(owned, u, x);
    }
  }

  /** Writing one draft together with the binding of its owned row. */
  lemma ExactWrite(owned: map<Tag, OwnedRow>, drafts: map<DraftId, DraftRow>, d: DraftId, row: DraftRow, orow: OwnedRow)
    requires Exact(owned, drafts) && d in drafts && drafts[d].provider.None?
    requires orow.draft == Some(d) && orow.provider == row.provider
    requires row.status.DraftCreated? <==> row.provider.Some?
    requires row.provider.Some? ==> !IS.InvoiceTaken(owned, TrialTag(d), row.provider.value)
    ensures Exact(owned[TrialTag(d) := orow], drafts[d := row])
    ensures BindsAtMost(owned, owned[TrialTag(d) := orow], TrialTag(d), row.provider)
  {
    assert Linked(owned, drafts, d) && ExactDraft(owned, drafts, d);
    var owned', drafts' := owned[TrialTag(d) := orow], drafts[d := row];
    MirrorOwnedWrite(owned, drafts, TrialTag(d), orow);
    MirrorDraftWrite(owned', drafts, d, row);
    forall e | e in drafts' ensures ExactDraft(owned', drafts', e) {
      assert e != d ==> ExactDraft(owned, drafts, e);
    }
  }

  lemma ExactTransition(db: Db, d: DraftId, status: DraftStatus, provider: Option<InvoiceId>, error: Option<string>,
                        at: Time)
    requires Exact(db.owned, db.drafts) && d in db.drafts && db.drafts[d].provider.None?
    requires status.DraftCreated? <==> provider.Some?
    ensures var tx := IS.Transition(db, d, status, provider, error, at);
            tx.Committed? ==>
              && tx.db == db.(owned := tx.db.owned,
                              drafts := db.drafts[d := IS.Attempted(db.drafts[d], status, provider, error, at)])
              && Exact(tx.db.owned, tx.db.drafts) && BindsAtMost(db.owned, tx.db.owned, TrialTag(d), provider)
    ensures IS.Transition(db, d, status, provider, error, at).RolledBack? ==>
              provider.Some? && IS.InvoiceTaken(db.owned, TrialTag(d), provider.value)
  {
    assert Linked(db.owned, db.drafts, d);
    var tx := IS.Transition(db, d, status, provider, error, at);
    if tx.Committed? {
      ExactWrite(db.owned, db.drafts, d, IS.Attempted(db.drafts[d], status, provider, error, at),
                 tx.db.owned[TrialTag(d)]);
    } else if ES.DraftProviderTaken(db.drafts, d, provider.value) {
      MirrorOwnerOfDraft(db.owned, db.drafts, d, provider.value);
    }
  }

  /** Rewriting a draft that has no invoice without giving it one. */
  lemma ExactRewrite(owned: map<Tag, OwnedRow>, drafts: map<DraftId, DraftRow>, d: DraftId, row: DraftRow)
    requires Exact(owned, drafts) && d in drafts && drafts[d].provider.None?
    requires row.provider.None? && !row.status.DraftCreated?
    ensures Exact(owned, drafts[d := row]) && BindsAtMost(owned, owned, TrialTag(d), None)
  {
    assert Linked(owned, drafts, d) && ExactDraft(owned, drafts, d);
    ExactWrite(owned, drafts, d, row, owned[TrialTag(d)]);
    assert owned[TrialTag(d) := owned[TrialTag(d)]] == owned;
  }

  // ---- Issuing ----

  function RetriedRow(row: DraftRow, attempts: nat, e: InvoiceError, now: Time, cfg: TrialConfig): DraftRow {
    IS.Retried(row, e.Name(), now, DraftBackoff(cfg, attempts), cfg.maxAttempts)
  }

  /** The row of a draft after its issue. */
  function IssuedRow(row: DraftRow, a: Answer, now: Time, cfg: TrialConfig): DraftRow {
    if row.attempts > 0 && !a.lookup.NotFound? then
      match a.lookup
      case Found(x) => IS.Attempted(row, DraftCreated, Some(x), None, now)
      case LookupRaised(e) =>
        if e.Retryable() then RetriedRow(row, row.attempts, e, now, cfg)
        else IS.Attempted(row, DraftFailed, None, Some(e.Name()), now)
    else
      match a.creation.reply
      case Ok(x) => IS.Attempted(row, DraftCreated, Some(x), None, now)
      case CreateRaised(e) =>
        if e.TimesOut() then IS.Attempted(row, DraftUnknown, None, Some(e.Name()), now)
        else if e.Retryable() then RetriedRow(row, row.attempts, e, now, cfg)
        else IS.Attempted(row, DraftFailed, None, Some(e.Name()), now)
  }

  ghost predicate Listed(drafts: map<DraftId, DraftRow>, d: IS.InvoiceDraft, status: DraftStatus) {
    IS.Fresh(drafts, d) && drafts[d.id].status == status
  }

  ghost predicate AllListed(drafts: map<DraftId, DraftRow>, page: seq<IS.InvoiceDraft>, status: DraftStatus) {
    IS.Distinct(page) && forall i :: 0 <= i < |page| ==> Listed(drafts, page[i], status)
  }

  /** Writing the first draft of a page leaves the others as listed. */
  lemma RestListed(drafts: map<DraftId, DraftRow>, drafts': map<DraftId, DraftRow>, page: seq<IS.InvoiceDraft>,
                   status: DraftStatus, row: DraftRow)
    requires page != [] && AllListed(drafts, page, status)
    requires drafts' == drafts || drafts' == drafts[page[0].id := row]
    ensures AllListed(drafts', page[1..], status)
  {
    forall i | 0 <= i < |page| - 1 ensures Listed(drafts', page[1..][i], status) {
      assert Listed(drafts, page[i + 1], status) && page[0].id != page[i + 1].id;
    }
  }

  /** The database after a draft's row was written as `row`, or the same database. */
  ghost predicate Rewrote(db: Db, db': Db, d: DraftId, row: DraftRow, alive: bool) {
    if alive then
      && db' == db.(owned := db'.owned, drafts := db.drafts[d := row])
      && BindsAtMost(db.owned, db'.owned, TrialTag(d), row.provider)
    else db' == db
  }

  /** The store write of an issue commits unless its invoice belongs to another tag. */
  ghost predicate WriteEffect(db: Db, tx: Tx<()>, d: DraftId, row: DraftRow) {
    match tx
    case Committed(db', _) => Rewrote(db, db', d, row, true) && Exact(db'.owned, db'.drafts)
    case RolledBack => row.provider.Some? && IS.InvoiceTaken(db.owned, TrialTag(d), row.provider.value)
  }

  lemma RetryingEffect(db: Db, d: IS.InvoiceDraft, e: InvoiceError, now: Time, cfg: TrialConfig)
    requires Exact(db.owned, db.drafts) && Listed(db.drafts, d, DraftPending)
    ensures WriteEffect(db, Retrying(db, d, e, now, cfg), d.id, RetriedRow(db.drafts[d.id], d.attempts, e, now, cfg))
  {
    assert ExactDraft(db.owned, db.drafts, d.id);
    ExactRewrite(db.owned, db.drafts, d.id, RetriedRow(db.drafts[d.id], d.attempts, e, now, cfg));
  }

  lemma LookupWriteEffect(db: Db, d: IS.InvoiceDraft, a: Answer, now: Time, cfg: TrialConfig)
    requires Exact(db.owned, db.drafts) && Listed(db.drafts, d, DraftPending) && SettledByLookup(d, a)
    ensures WriteEffect(db, LookupWrite(db, d, a.lookup, now, cfg), d.id, IssuedRow(db.drafts[d.id], a, now, cfg))
  {
    assert ExactDraft(db.owned, db.drafts, d.id);
    match a.lookup
    case Found(x) => ExactTransition(db, d.id, DraftCreated, Some(x), None, now);
    case LookupRaised(e) =>
      if e.Retryable() {
        RetryingEffect(db, d, e, now, cfg);
      } else {
        ExactTransition(db, d.id, DraftFailed, None, Some(e.Name()), now);
      }
  }

  lemma CreateWriteEffect(db: Db, d: IS.InvoiceDraft, a: Answer, now: Time, cfg: TrialConfig)
    requires Exact(db.owned, db.drafts) && Listed(db.drafts, d, DraftPending) && !SettledByLookup(d, a)
    ensures WriteEffect(db, CreateWrite(db, d, a.creation.reply, now, cfg), d.id,
                        IssuedRow(db.drafts[d.id], a, now, cfg))
  {
    assert ExactDraft(db.owned, db.drafts, d.id);
    match a.creation.reply
    case Ok(x) => ExactTransition(db, d.id, DraftCreated, Some(x), None, now);
    case CreateRaised(e) =>
      if e.TimesOut() {
        ExactTransition(db, d.id, DraftUnknown, None, Some(e.Name()), now);
      } else if e.Retryable() {
        RetryingEffect(db, d, e, now, cfg);
      } else {
        ExactTransition(db, d.id, DraftFailed, None, Some(e.Name()), now);
      }
  }

  /** An issue writes the draft's row and binding; it leaves the database alone only when the process dies
      after the create, or the invoice belongs to another tag. */
  lemma IssueEffect(w: World, d: IS.InvoiceDraft, a: Answer, dies: bool, now: Time, cfg: TrialConfig)
    requires Exact(w.db.owned, w.db.drafts) && Listed(w.db.drafts, d, DraftPending)
    ensures var p := Issue(w, d, a, dies, now, cfg);
            var row := IssuedRow(w.db.drafts[d.id], a, now, cfg);
            && Exact(p.world.db.owned, p.world.db.drafts)
            && Rewrote(w.db, p.world.db, d.id, row, p.alive)
            && (!p.alive && !dies ==>
                  row.provider.Some? && IS.InvoiceTaken(w.db.owned, TrialTag(d.id), row.provider.value))
  {
    if SettledByLookup(d, a) {
      LookupWriteEffect(w.db, d, a, now, cfg);
    } else {
      CreateWriteEffect(w.db, d, a, now, cfg);
    }
  }

  /** The provider's invoices after an issue. */
  function IssuedRemote(remote: map<InvoiceId, Tag>, d: IS.InvoiceDraft, a: Answer): map<InvoiceId, Tag> {
    if SettledByLookup(d, a) then remote else AdmitInvoice(remote, TrialTag(d.id), a.creation)
  }

  /** The history of a draft after an issue that stored its result, and after a create that did not. */
  function IssuedTally(t: Tally, d: IS.InvoiceDraft, a: Answer, alive: bool): Tally {
    if SettledByLookup(d, a) then t.(answers := t.answers + 1)
    else if alive then Called(t, d, a.creation).(answers := t.answers + 1)
    else Called(t, d, a.creation).(unrecorded := t.unrecorded + 1)
  }

  lemma IssueHistory(w: World, d: IS.InvoiceDraft, a: Answer, dies: bool, now: Time, cfg: TrialConfig)
    ensures var p := Issue(w, d, a, dies, now, cfg);
            if !p.alive && SettledByLookup(d, a) then p.world == w
            else p.world.remote == IssuedRemote(w.remote, d, a)
                 && p.world.tallies == w.tallies[d.id := IssuedTally(TallyOf(w.tallies, d.id), d, a, p.alive)]
  {
  }

  // ---- Reconciling ----

  /** The row of a draft after an answered lookup of the reconciler. */
  function ReconciledRow(row: DraftRow, reply: Lookup, now: Time, cfg: TrialConfig): DraftRow {
    if reply.Found? then IS.Attempted(row, DraftCreated, Some(reply.invoice), None, now)
    else IS.Missed(row, row.attempts, now, cfg.maxAttempts, cfg.maxReconciles, DraftBackoff(cfg, row.attempts))
  }

  lemma ReconcileEffect(w: World, d: IS.InvoiceDraft, reply: Lookup, now: Time, cfg: TrialConfig)
    requires Exact(w.db.owned, w.db.drafts) && Listed(w.db.drafts, d, DraftUnknown)
    ensures var p := ReconcileOne(w, d, reply, now, cfg);
            && Exact(p.world.db.owned, p.world.db.drafts) && p.world.remote == w.remote
            && Rewrote(w.db, p.world.db, d.id, ReconciledRow(w.db.drafts[d.id], reply, now, cfg),
                       p.alive && !reply.LookupRaised?)
            && (!p.alive ==> (reply.LookupRaised? && reply.error.Permanent?)
                             || (reply.Found? && IS.InvoiceTaken(w.db.owned, TrialTag(d.id), reply.invoice)))
  {
    assert ExactDraft(w.db.owned, w.db.drafts, d.id);
    match reply
    case LookupRaised(_) =>
    case Found(x) => ExactTransition(w.db, d.id, DraftCreated, Some(x), None, now);
    case NotFound => ExactRewrite(w.db.owned, w.db.drafts, d.id, ReconciledRow(w.db.drafts[d.id], reply, now, cfg));
  }

  // ---- Saving, crediting and smoke bindings ----

  /** A save adds pending drafts without attempts, of its batch and below its length, and unbound rows. */
  ghost predicate SavedDrafts(drafts: map<DraftId, DraftRow>, drafts': map<DraftId, DraftRow>, batch: BatchId, n: nat) {
    && (forall d :: d in drafts ==> d in drafts' && drafts'[d] == drafts[d])
    && (forall d :: d in drafts' && d !in drafts ==>
          && d.batch == batch && 0 <= d.ordinal < n
          && drafts'[d].status.DraftPending? && drafts'[d].attempts == 0 && drafts'[d].reconciles == 0)
  }

  lemma SaveEffect(db: Db, batch: BatchId, amounts: seq<Cents>, at: Time)
    requires Exact(db.owned, db.drafts)
    ensures var db' := After(db, IS.Save(db, batch, amounts, at));
            && db' == db.(owned := db'.owned, drafts := db'.drafts)
            && Exact(db'.owned, db'.drafts) && BindsAtMost(db.owned, db'.owned, TrialTag(DraftId(batch, 0)), None)
            && SavedDrafts(db.drafts, db'.drafts, batch, |amounts|)
  {
    MirrorSave(db, batch, amounts, at);
    if IS.Save(db, batch, amounts, at).Committed? {
      var db' := IS.Save(db, batch, amounts, at).db;
      IS.SaveAddsRows(db, batch, amounts, at);
      ExactSavedRows(db.owned, db.drafts, db'.owned, db'.drafts, batch, |amounts|);
    }
  }

  lemma ExactSavedRows(owned: map<Tag, OwnedRow>, drafts: map<DraftId, DraftRow>, owned': map<Tag, OwnedRow>,
                       drafts': map<DraftId, DraftRow>, batch: BatchId, n: nat)
    requires Exact(owned, drafts) && Mirror(owned', drafts') && IS.SavedRows(owned, drafts, owned', drafts', batch, n)
    ensures Exact(owned', drafts') && BindsAtMost(owned, owned', TrialTag(DraftId(batch, 0)), None)
    ensures SavedDrafts(drafts, drafts', batch, n)
  {
    forall d | d in drafts' ensures ExactDraft(owned', drafts', d) {
      if d in drafts {
        assert ExactDraft(owned, drafts, d);
      } else {
        assert IS.AddedRows(owned, owned', drafts', d);
      }
    }
    forall t | t in owned' && t !in owned ensures owned'[t].provider.None? {
      assert IS.AddedRows(owned, owned', drafts', t.draft);
    }
    forall d | d in drafts' && d !in drafts ensures IS.AddedRows(owned, owned', drafts', d) {
      assert IS.Added(drafts, batch, n, d);
    }
  }

  /** A credit binds its tag at most, to its invoice, and leaves the draft of the tag created. */
  ghost predicate CreditsDraft(drafts: map<DraftId, DraftRow>, drafts': map<DraftId, DraftRow>, t: Tag, x: InvoiceId,
                               at: Time)
  {
    drafts' == drafts
    || (t.TrialTag? && t.draft in drafts
        && drafts' == drafts[t.draft := drafts[t.draft].(provider := Some(x), status := DraftCreated, updatedAt := at)])
  }

  lemma AttributeEffect(owned: map<Tag, OwnedRow>, drafts: map<DraftId, DraftRow>, x: InvoiceId, tags: seq<Tag>,
                        at: Time)
    requires Exact(owned, drafts)
    ensures var r := ES.Attribute(owned, drafts, x, tags, at);
            !r.AttributionConflict? && (r.Attributed? ==>
              && Exact(r.owned, r.drafts) && BindsAtMost(owned, r.owned, r.tag, Some(x))
              && CreditsDraft(drafts, r.drafts, r.tag, x, at)
              && ES.Bound(r.owned, r.tag, x) && ES.Attributable(owned, x, tags, r.tag))
  {
    MirrorAttribute(owned, drafts, x, tags, at);
    var r := ES.Attribute(owned, drafts, x, tags, at);
    if r.Attributed? {
      MirrorAttributeTo(owned, drafts, r.tag, x, tags, at);
      forall d | d in r.drafts ensures ExactDraft(r.owned, r.drafts, d) {
        assert ExactDraft(owned, drafts, d) && Linked(r.owned, r.drafts, d);
      }
    }
  }

  /** Writing the row of a smoke tag: it has no draft. */
  lemma ExactSmokeWrite(owned: map<Tag, OwnedRow>, drafts: map<DraftId, DraftRow>, key: string, row: OwnedRow)
    requires Exact(owned, drafts) && row.draft.None?
    requires SmokeTag(key) in owned && owned[SmokeTag(key)].provider.Some? ==>
               row.provider == owned[SmokeTag(key)].provider
    requires row.provider.Some? ==> !IS.InvoiceTaken(owned, SmokeTag(key), row.provider.value)
    ensures Exact(owned[SmokeTag(key) := row], drafts)
    ensures BindsAtMost(owned, owned[SmokeTag(key) := row], SmokeTag(key), row.provider)
  {
    var owned' := owned[SmokeTag(key) := row];
    forall d | d in drafts ensures Linked(owned', drafts, d) && ExactDraft(owned', drafts, d) {
      assert Linked(owned, drafts, d) && ExactDraft(owned, drafts, d);
    }
  }

  lemma SmokeRegisterEffect(db: Db, key: string, at: Time)
    requires Exact(db.owned, db.drafts)
    ensures var db' := IS.RegisterSmoke(db, SmokeTag(key), at);
            && db' == db.(owned := db'.owned)
            && Exact(db'.owned, db'.drafts) && BindsAtMost(db.owned, db'.owned, SmokeTag(key), None)
  {
    if SmokeTag(key) !in db.owned {
      ExactSmokeWrite(db.owned, db.drafts, key, OwnedRow(None, None, at, at));
    }
  }

  lemma SmokeBindEffect(db: Db, key: string, x: InvoiceId, at: Time)
    requires Exact(db.owned, db.drafts)
    ensures var db' := After(db, IS.Bind(db, SmokeTag(key), x, at));
            && db' == db.(owned := db'.owned)
            && Exact(db'.owned, db'.drafts) && BindsAtMost(db.owned, db'.owned, SmokeTag(key), Some(x))
  {
    var tag := SmokeTag(key);
    if tag in db.owned {
      var row := db.owned[tag];
      if row.provider == Some(x) {
        assert !IS.InvoiceTaken(db.owned, tag, x);
        ExactSmokeWrite(db.owned, db.drafts, key, row.(updatedAt := at));
      } else if row.provider.None? && !IS.InvoiceTaken(db.owned, tag, x) {
        ExactSmokeWrite(db.owned, db.drafts, key, row.(provider := Some(x), updatedAt := at));
      }
    }
  }
}
