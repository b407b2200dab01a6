/** Invoice drafts, the ownership of provider invoices, and the settlement of batches and runs
    (persistence/invoice_store.py). */
module InvoiceStore {
  import opened Domain
  import opened Tables
  import opened Collections
  import EventStore

  /** A draft as a query returned it. */
  datatype InvoiceDraft = InvoiceDraft(id: DraftId, attempts: nat)

  datatype DraftFailure = DraftFailure(id: DraftId, error: string, at: Time)

  const MAX_RECONCILIATION_ATTEMPTS: nat := 5

  // ---- Ownership ----

  ghost predicate InvoiceTaken(owned: map<Tag, OwnedRow>, t: Tag, invoice: InvoiceId) {
    exists u :: u in owned && u != t && owned[u].provider == Some(invoice)
  }

  function RegisterSmoke(db: Db, tag: Tag, at: Time): Db {
    if tag in db.owned then db else db.(owned := db.owned[tag := OwnedRow(None, None, at, at)])
  }

  /** Binds an owned tag to a provider invoice, once. */
  ghost function Bind(db: Db, tag: Tag, invoice: InvoiceId, at: Time): Tx<()> {
    if tag !in db.owned then RolledBack
    else if db.owned[tag].provider == Some(invoice) then
      Committed(db.(owned := db.owned[tag := db.owned[tag].(updatedAt := at)]), ())
    else if db.owned[tag].provider.Some? || InvoiceTaken(db.owned, tag, invoice) then RolledBack
    else Committed(db.(owned := db.owned[tag := db.owned[tag].(provider := Some(invoice), updatedAt := at)]), ())
  }

  // ---- Drafts ----

  function NewDraft(amount: Cents, at: Time): DraftRow {
    DraftRow(amount, DraftPending, None, 0, 0, None, at, at, at)
  }

  /** The drafts with those of ordinals below n added to a batch; stored drafts stay as they are. */
  function AddDrafts(drafts: map<DraftId, DraftRow>, batch: BatchId, amounts: seq<Cents>, at: Time, n: nat)
    : map<DraftId, DraftRow>
    requires n <= |amounts|
  {
    if n == 0 then drafts
    else
      var d := DraftId(batch, n - 1);
      var before := AddDrafts(drafts, batch, amounts, at, n - 1);
      if d in drafts then before else before[d := NewDraft(amounts[n - 1], at)]
  }

  /** The owned rows with one added, unbound, for each added draft. */
  function AddOwned(owned: map<Tag, OwnedRow>, drafts: map<DraftId, DraftRow>, batch: BatchId, at: Time, n: nat)
    : map<Tag, OwnedRow>
  {
    if n == 0 then owned
    else
      var d := DraftId(batch, n - 1);
      var before := AddOwned(owned, drafts, batch, at, n - 1);
      if d in drafts then before else before[TrialTag(d) := OwnedRow(None, Some(d), at, at)]
  }

  predicate Added(drafts: map<DraftId, DraftRow>, batch: BatchId, n: nat, d: DraftId) {
    d !in drafts && d.batch == batch && 0 <= d.ordinal < n
  }

  lemma {:induction false} AddDraftsAt(drafts: map<DraftId, DraftRow>, batch: BatchId, amounts: seq<Cents>, at: Time,
                                       n: nat, d: DraftId)
    requires n <= |amounts|
    ensures var r := AddDrafts(drafts, batch, amounts, at, n);
            if Added(drafts, batch, n, d) then d in r && r[d] == NewDraft(amounts[d.ordinal], at)
            else (d in r <==> d in drafts) && (d in drafts ==> r[d] == drafts[d])
  {
    if n > 0 {
      AddDraftsAt(drafts, batch, amounts, at, n - 1, d);
    }
  }

  lemma {:induction false} AddOwnedAt(owned: map<Tag, OwnedRow>, drafts: map<DraftId, DraftRow>, batch: BatchId,
                                      at: Time, n: nat, t: Tag)
    ensures var r := AddOwned(owned, drafts, batch, at, n);
            if t.TrialTag? && Added(drafts, batch, n, t.draft) then
              t in r && r[t] == OwnedRow(None, Some(t.draft), at, at)
            else (t in r <==> t in owned) && (t in owned ==> r[t] == owned[t])
  {
    if n > 0 {
      AddOwnedAt(owned, drafts, batch, at, n - 1, t);
    }
  }

  /** A new draft whose tag is owned already, or whose amount or batch the schema rejects. */
  predicate DraftRefused(db: Db, batch: BatchId, amounts: seq<Cents>, k: int)
    requires 0 <= k < |amounts|
  {
    var d := DraftId(batch, k);
    d !in db.drafts && (batch !in db.batches || TrialTag(d) in db.owned || amounts[k] <= 0)
  }

  /** Stores the missing drafts of a batch with their owned rows, all or none. */
  function Save(db: Db, batch: BatchId, amounts: seq<Cents>, at: Time): Tx<()> {
    if exists k :: 0 <= k < |amounts| && DraftRefused(db, batch, amounts, k) then RolledBack
    else
      Committed(db.(drafts := AddDrafts(db.drafts, batch, amounts, at, |amounts|),
                    owned := AddOwned(db.owned, db.drafts, batch, at, |amounts|)), ())
  }

  /** The tables after a save: the old rows, and for each added draft a pending row and an unbound owned row. */
  ghost predicate SavedRows(owned: map<Tag, OwnedRow>, drafts: map<DraftId, DraftRow>, owned': map<Tag, OwnedRow>,
                            drafts': map<DraftId, DraftRow>, batch: BatchId, n: nat)
  {
    && (forall d :: d in drafts ==> d in drafts' && drafts'[d] == drafts[d])
    && (forall t :: t in owned ==> t in owned' && owned'[t] == owned[t])
    && (forall d :: d in drafts' && d !in drafts ==> Added(drafts, batch, n, d))
    && (forall d :: Added(drafts, batch, n, d) ==> AddedRows(owned, owned', drafts', d))
    && (forall t :: t in owned' && t !in owned ==> t.TrialTag? && Added(drafts, batch, n, t.draft))
  }

  ghost predicate AddedRows(owned: map<Tag, OwnedRow>, owned': map<Tag, OwnedRow>, drafts': map<DraftId, DraftRow>,
                            d: DraftId)
  {
    && d in drafts' && drafts'[d].status.DraftPending? && drafts'[d].provider.None?
    && drafts'[d].attempts == 0 && drafts'[d].reconciles == 0
    && TrialTag(d) !in owned && TrialTag(d) in owned'
    && owned'[TrialTag(d)].provider.None? && owned'[TrialTag(d)].draft == Some(d)
  }

  lemma SaveAddsRows(db: Db, batch: BatchId, amounts: seq<Cents>, at: Time)
    requires Save(db, batch, amounts, at).Committed?
    ensures var db' := Save(db, batch, amounts, at).db;
            SavedRows(db.owned, db.drafts, db'.owned, db'.drafts, batch, |amounts|)
  {
    var db', n := Save(db, batch, amounts, at).db, |amounts|;
    forall d { AddDraftsAt(db.drafts, batch, amounts, at, n, d); }
    forall t { AddOwnedAt(db.owned, db.drafts, batch, at, n, t); }
    forall d | Added(db.drafts, batch, n, d) ensures AddedRows(db.owned, db'.owned, db'.drafts, d) {
      assert d == DraftId(batch, d.ordinal) && !DraftRefused(db, batch, amounts, d.ordinal);
    }
  }

  /** A draft row after one more attempt ended in a given status. */
  function Attempted(row: DraftRow, status: DraftStatus, provider: Option<InvoiceId>, error: Option<string>,
                     at: Time): DraftRow
  {
    row.(status := status, provider := provider, attempts := row.attempts + 1, lastError := error,
         nextAttemptAt := at, updatedAt := at,
         reconciles := if status.DraftCreated? then 0 else row.reconciles)
  }

  /** Moves a draft and the binding of its owned row together. */
  ghost function Transition(db: Db, d: DraftId, status: DraftStatus, provider: Option<InvoiceId>,
                            error: Option<string>, at: Time): Tx<()>
  {
    var tag := TrialTag(d);
    if provider.Some? && (EventStore.DraftProviderTaken(db.drafts, d, provider.value) && d in db.drafts) then RolledBack
    else if provider.Some? && tag in db.owned && db.owned[tag].draft == Some(d)
      && InvoiceTaken(db.owned, tag, provider.value) then RolledBack
    else
      Committed(db.(
        drafts := if d in db.drafts then db.drafts[d := Attempted(db.drafts[d], status, provider, error, at)]
                  else db.drafts,
        owned := if tag in db.owned && db.owned[tag].draft == Some(d) then
                   db.owned[tag := db.owned[tag].(provider := provider, updatedAt := at)] else db.owned), ())
  }

  ghost function Created(db: Db, d: DraftId, invoice: InvoiceId, at: Time): Tx<()> {
    Transition(db, d, DraftCreated, Some(invoice), None, at)
  }

  ghost function UnknownResult(db: Db, f: DraftFailure): Tx<()> {
    Transition(db, f.id, DraftUnknown, None, Some(f.error), f.at)
  }

  ghost function Failed(db: Db, f: DraftFailure): Tx<()> {
    Transition(db, f.id, DraftFailed, None, Some(f.error), f.at)
  }

  function Retried(row: DraftRow, error: string, at: Time, delay: int, maxAttempts: int): DraftRow {
    var attempts := row.attempts + 1;
    var exhausted := attempts >= maxAttempts;
    row.(status := if exhausted then DraftFailed else DraftPending, provider := None, attempts := attempts,
         lastError := Some(if exhausted then "retry_exhausted" else error),
         nextAttemptAt := if exhausted then at else at + delay, updatedAt := at)
  }

  /** Counts a failed attempt. The result says whether the draft may be tried again. */
  function Retry(db: Db, f: DraftFailure, delay: int, maxAttempts: int): Tx<bool> {
    if f.id !in db.drafts then RolledBack
    else
      Committed(db.(drafts := db.drafts[f.id := Retried(db.drafts[f.id], f.error, f.at, delay, maxAttempts)]),
                db.drafts[f.id].attempts + 1 < maxAttempts)
  }

  /** A draft row after a lookup that did not find its invoice. */
  function Missed(row: DraftRow, seen: nat, at: Time, maxAttempts: int, maxReconciles: int, delay: int): DraftRow {
    var next := row.reconciles + 1;
    var back := next >= maxReconciles;
    var exhausted := back && seen >= maxAttempts;
    row.(status := if exhausted then DraftFailed else if back then DraftPending else DraftUnknown,
         reconciles := if back then 0 else next,
         lastError := Some(if exhausted then "retry_exhausted" else "reconciliation_not_found"),
         nextAttemptAt := if exhausted then at else at + delay, updatedAt := at)
  }

  ghost function Reconcile(db: Db, draft: InvoiceDraft, found: Option<InvoiceId>, at: Time, maxAttempts: int,
                           maxReconciles: int, delay: int): Tx<()>
  {
    if found.Some? then Created(db, draft.id, found.value, at)
    else if draft.id !in db.drafts then RolledBack
    else
      Committed(db.(drafts := db.drafts[draft.id :=
        Missed(db.drafts[draft.id], draft.attempts, at, maxAttempts, maxReconciles, delay)]), ())
  }

  // ---- Queries ----

  predicate Due(drafts: map<DraftId, DraftRow>, d: DraftId, status: DraftStatus, now: Time) {
    d in drafts && drafts[d].status == status && drafts[d].nextAttemptAt <= now
  }

  predicate Fresh(drafts: map<DraftId, DraftRow>, draft: InvoiceDraft) {
    draft.id in drafts && draft.attempts == drafts[draft.id].attempts
  }

  ghost predicate Distinct(page: seq<InvoiceDraft>) {
    forall i, j :: 0 <= i < j < |page| ==> page[i].id != page[j].id
  }

  ghost predicate Lists(page: seq<InvoiceDraft>, d: DraftId) {
    exists i :: 0 <= i < |page| && page[i].id == d
  }

  lemma ListsNext(page: seq<InvoiceDraft>, x: InvoiceDraft)
    ensures forall d :: Lists(page + [x], d) <==> Lists(page, d) || d == x.id
  {
    var more := page + [x];
    forall d ensures Lists(more, d) <==> Lists(page, d) || d == x.id {
      if Lists(page, d) {
        var i :| 0 <= i < |page| && page[i].id == d;
        assert more[i].id == d;
      }
      assert more[|page|].id == x.id;
      if Lists(more, d) && d != x.id {
        var i :| 0 <= i < |more| && more[i].id == d;
        assert page[i].id == d;
      }
    }
  }

  /** The due pending drafts of a batch in the order of their ordinals. */
  ghost predicate IsPendingPage(drafts: map<DraftId, DraftRow>, batch: BatchId, now: Time, page: seq<InvoiceDraft>) {
    && Distinct(page)
    && (forall i :: 0 <= i < |page| ==> Fresh(drafts, page[i]) && page[i].id.batch == batch
                                        && Due(drafts, page[i].id, DraftPending, now))
    && (forall d :: Due(drafts, d, DraftPending, now) && d.batch == batch ==> Lists(page, d))
    && (forall i, j :: 0 <= i < j < |page| ==> page[i].id.ordinal < page[j].id.ordinal)
  }

  /** Up to `limit` due unknown drafts, those updated longest ago first. */
  ghost predicate IsUnknownPage(drafts: map<DraftId, DraftRow>, now: Time, limit: nat, page: seq<InvoiceDraft>) {
    && Distinct(page) && |page| <= limit
    && (forall i :: 0 <= i < |page| ==> Fresh(drafts, page[i]) && Due(drafts, page[i].id, DraftUnknown, now))
    && (forall i, j :: 0 <= i < j < |page| ==> drafts[page[i].id].updatedAt <= drafts[page[j].id].updatedAt)
    && (forall d :: Due(drafts, d, DraftUnknown, now) && !Lists(page, d) ==>
          |page| == limit && forall i :: 0 <= i < |page| ==> drafts[page[i].id].updatedAt <= drafts[d].updatedAt)
  }

  /** The rows of the pending query read so far, and those still to come. */
  ghost predicate PendingSoFar(drafts: map<DraftId, DraftRow>, batch: BatchId, now: Time, page: seq<InvoiceDraft>,
                               rest: set<DraftId>)
  {
    && (forall i :: 0 <= i < |page| ==> Fresh(drafts, page[i]) && page[i].id.batch == batch
                                        && Due(drafts, page[i].id, DraftPending, now))
    && (forall d :: d in rest ==> d.batch == batch && Due(drafts, d, DraftPending, now))
    && (forall d :: Due(drafts, d, DraftPending, now) && d.batch == batch ==> d in rest || Lists(page, d))
    && (forall i, j :: 0 <= i < j < |page| ==> page[i].id.ordinal < page[j].id.ordinal)
    && (forall i, d :: 0 <= i < |page| && d in rest ==> page[i].id.ordinal < d.ordinal)
  }

  lemma PendingNext(drafts: map<DraftId, DraftRow>, batch: BatchId, now: Time, page: seq<InvoiceDraft>,
                    rest: set<DraftId>, d: DraftId)
    requires PendingSoFar(drafts, batch, now, page, rest) && d in rest && d in drafts
    requires forall e :: e in rest ==> d.ordinal <= e.ordinal
    ensures PendingSoFar(drafts, batch, now, page + [InvoiceDraft(d, drafts[d].attempts)], rest - {d})
  {
    ListsNext(page, InvoiceDraft(d, drafts[d].attempts));
  }

  /** The rows of the unknown query read so far, and those still to come. */
  ghost predicate UnknownSoFar(drafts: map<DraftId, DraftRow>, now: Time, page: seq<InvoiceDraft>, rest: set<DraftId>) {
    && Distinct(page)
    && (forall i :: 0 <= i < |page| ==> Fresh(drafts, page[i]) && Due(drafts, page[i].id, DraftUnknown, now))
    && (forall d :: d in rest ==> Due(drafts, d, DraftUnknown, now))
    && (forall d :: Due(drafts, d, DraftUnknown, now) ==> d in rest || Lists(page, d))
    && (forall i, j :: 0 <= i < j < |page| ==> drafts[page[i].id].updatedAt <= drafts[page[j].id].updatedAt)
    && (forall i, d :: 0 <= i < |page| && d in rest ==>
          page[i].id != d && drafts[page[i].id].updatedAt <= drafts[d].updatedAt)
  }

  lemma UnknownNext(drafts: map<DraftId, DraftRow>, now: Time, page: seq<InvoiceDraft>, rest: set<DraftId>, d: DraftId)
    requires UnknownSoFar(drafts, now, page, rest) && d in rest && d in drafts
    requires forall e :: e in rest ==> e in drafts && drafts[d].updatedAt <= drafts[e].updatedAt
    ensures UnknownSoFar(drafts, now, page + [InvoiceDraft(d, drafts[d].attempts)], rest - {d})
  {
    ListsNext(page, InvoiceDraft(d, drafts[d].attempts));
  }

  // ---- Settlement ----

  function OfBatch(drafts: map<DraftId, DraftRow>, batch: BatchId, status: DraftStatus): set<DraftId> {
    set d | d in drafts && d.batch == batch && drafts[d].status == status
  }

  function SettledStatus(drafts: map<DraftId, DraftRow>, batch: BatchId, target: nat): BatchStatus {
    if |OfBatch(drafts, batch, DraftCreated)| == target then BatchCompleted
    else if OfBatch(drafts, batch, DraftFailed) != {} then BatchDegraded
    else if OfBatch(drafts, batch, DraftUnknown) != {} then BatchReconciling
    else BatchScheduled
  }

  function DegradeRun(runs: map<RunId, RunRow>, r: RunId): map<RunId, RunRow> {
    if r in runs then runs[r := runs[r].(status := RunDegraded, marker := false)] else runs
  }

  predicate AllCompleted(batches: map<BatchId, BatchRow>, r: RunId) {
    forall b :: b in batches && b.run == r ==> batches[b].status.BatchCompleted?
  }

  function SettleRun(batches: map<BatchId, BatchRow>, runs: map<RunId, RunRow>, r: RunId, status: BatchStatus,
                     now: Time): map<RunId, RunRow>
  {
    if status.BatchDegraded? then DegradeRun(runs, r)
    else if AllCompleted(batches, r) && r in runs then
      runs[r := runs[r].(status := RunCompleted, marker := false, completedAt := Some(now))]
    else runs
  }

  function Settle(db: Db, batch: BatchId, now: Time): Tx<BatchStatus> {
    if batch !in db.batches then RolledBack
    else
      var status := SettledStatus(db.drafts, batch, db.batches[batch].target);
      var batches := db.batches[batch := db.batches[batch].(
        status := status, leaseUntil := None, completedAt := if status.BatchCompleted? then Some(now) else None)];
      Committed(db.(batches := batches, runs := SettleRun(batches, db.runs, batch.run, status, now)), status)
  }

  // ---- The store ----

  class InvoiceStore {
    const db: Database

    constructor (db: Database)
      ensures this.db == db
    {
      this.db := db;
    }

    /** False is an integrity error: nothing was stored. */
    method SaveDrafts(batch: BatchId, amounts: seq<Cents>, at: Time) returns (ok: bool)
      modifies db
      ensures db.View() == After(old(db.View()), Save(old(db.View()), batch, amounts, at))
      ensures ok == Save(old(db.View()), batch, amounts, at).Committed?
    {
      var start := db.View();
      var k := 0;
      while k < |amounts|
        invariant 0 <= k <= |amounts|
        invariant db.View() == start.(drafts := AddDrafts(start.drafts, batch, amounts, at, k),
                                      owned := AddOwned(start.owned, start.drafts, batch, at, k))
        invariant forall i :: 0 <= i < k ==> !DraftRefused(start, batch, amounts, i)
      {
        var d := DraftId(batch, k);
        if d !in start.drafts {
          AddOwnedAt(start.owned, start.drafts, batch, at, k, TrialTag(d));
          if batch !in db.batches || TrialTag(d) in db.owned || amounts[k] <= 0 {
            assert DraftRefused(start, batch, amounts, k);
            db.Rollback(start);
            return false;
          }
          db.drafts := db.drafts[d := NewDraft(amounts[k], at)];
          db.owned := db.owned[TrialTag(d) := OwnedRow(None, Some(d), at, at)];
        }
        k := k + 1;
      }
      return true;
    }

    method Register(tag: Tag, at: Time)
      modifies db`owned
      ensures db.View() == RegisterSmoke(old(db.View()), tag, at)
    {
      if tag !in db.owned {
        db.owned := db.owned[tag := OwnedRow(None, None, at, at)];
      }
    }

    method BindProviderInvoice(tag: Tag, invoice: InvoiceId, at: Time) returns (ok: bool)
      modifies db`owned
      ensures db.View() == After(old(db.View()), Bind(old(db.View()), tag, invoice, at))
      ensures ok == Bind(old(db.View()), tag, invoice, at).Committed?
    {
      if tag !in db.owned {
        return false;
      }
      var current := db.owned[tag].provider;
      if current != Some(invoice) {
        if current.Some? || exists u :: u in db.owned && u != tag && db.owned[u].provider == Some(invoice) {
          return false;
        }
        db.owned := db.owned[tag := db.owned[tag].(provider := Some(invoice), updatedAt := at)];
        return true;
      }
      db.owned := db.owned[tag := db.owned[tag].(updatedAt := at)];
      return true;
    }

    method RecordSmoke(tag: Tag, invoice: InvoiceId, at: Time) returns (ok: bool)
      modifies db`owned
      ensures var registered := RegisterSmoke(old(db.View()), tag, at);
              db.View() == After(registered, Bind(registered, tag, invoice, at))
              && ok == Bind(registered, tag, invoice, at).Committed?
    {
      Register(tag, at);
      ok := BindProviderInvoice(tag, invoice, at);
    }

    method Pending(batch: BatchId, now: Time) returns (page: seq<InvoiceDraft>)
      ensures IsPendingPage(db.drafts, batch, now, page)
    {
      page := [];
      var rows := db.drafts;
      var rest := set d | d in rows && d.batch == batch && Due(rows, d, DraftPending, now);
      while rest != {}
        invariant PendingSoFar(rows, batch, now, page, rest)
        decreases rest
      {
        LeastExists(rest, (d: DraftId) => d.ordinal);
        var d :| d in rest && forall e :: e in rest ==> d.ordinal <= e.ordinal;
        PendingNext(rows, batch, now, page, rest, d);
        page := page + [InvoiceDraft(d, rows[d].attempts)];
        rest := rest - {d};
      }
    }

    method Unknown(now: Time, limit: nat := 100) returns (page: seq<InvoiceDraft>)
      ensures IsUnknownPage(db.drafts, now, limit, page)
    {
      page := [];
      var rows := db.drafts;
      var rest := set d | d in rows && Due(rows, d, DraftUnknown, now);
      while rest != {} && |page| < limit
        invariant |page| <= limit && UnknownSoFar(rows, now, page, rest)
        decreases rest
      {
        LeastExists(rest, (d: DraftId) => if d in rows then rows[d].updatedAt else 0);
        var d :| d in rest && forall e :: e in rest ==> rows[d].updatedAt <= rows[e].updatedAt;
        UnknownNext(rows, now, page, rest, d);
        page := page + [InvoiceDraft(d, rows[d].attempts)];
        rest := rest - {d};
      }
    }

    method MoveDraft(d: DraftId, status: DraftStatus, provider: Option<InvoiceId>, error: Option<string>, at: Time)
      returns (ok: bool)
      modifies db
      ensures db.View() == After(old(db.View()), Transition(old(db.View()), d, status, provider, error, at))
      ensures ok == Transition(old(db.View()), d, status, provider, error, at).Committed?
    {
      var start := db.View();
      var tag := TrialTag(d);
      if d in db.drafts {
        if provider.Some? && exists e :: e in db.drafts && e != d && db.drafts[e].provider == provider {
          return false;
        }
        db.drafts := db.drafts[d := Attempted(db.drafts[d], status, provider, error, at)];
      }
      if tag in db.owned && db.owned[tag].draft == Some(d) {
        if provider.Some? && exists u :: u in db.owned && u != tag && db.owned[u].provider == provider {
          db.Rollback(start);
          return false;
        }
        db.owned := db.owned[tag := db.owned[tag].(provider := provider, updatedAt := at)];
      }
      return true;
    }

    method RetryDraft(f: DraftFailure, delay: int, maxAttempts: int) returns (r: Option<bool>)
      modifies db`drafts
      ensures db.View() == After(old(db.View()), Retry(old(db.View()), f, delay, maxAttempts))
      ensures match Retry(old(db.View()), f, delay, maxAttempts)
              case RolledBack => r.None?
              case Committed(_, again) => r == Some(again)
    {
      if f.id !in db.drafts {
        return None;
      }
      var row := db.drafts[f.id];
      var attempts := row.attempts + 1;
      var exhausted := attempts >= maxAttempts;
      db.drafts := db.drafts[f.id := row.(
        status := if exhausted then DraftFailed else DraftPending,
        provider := None,
        attempts := attempts,
        lastError := Some(if exhausted then "retry_exhausted" else f.error),
        nextAttemptAt := if exhausted then f.at else f.at + delay,
        updatedAt := f.at)];
      return Some(!exhausted);
    }

    method ReconcileDraft(draft: InvoiceDraft, found: Option<InvoiceId>, at: Time, maxAttempts: int,
                          maxReconciles: int := MAX_RECONCILIATION_ATTEMPTS, delay: int := 5)
      returns (ok: bool)
      modifies db
      ensures db.View() == After(old(db.View()),
                                 Reconcile(old(db.View()), draft, found, at, maxAttempts, maxReconciles, delay))
      ensures ok == Reconcile(old(db.View()), draft, found, at, maxAttempts, maxReconciles, delay).Committed?
    {
      if found.Some? {
        ok := MoveDraft(draft.id, DraftCreated, found, None, at);
        return;
      }
      if draft.id !in db.drafts {
        return false;
      }
      var row := db.drafts[draft.id];
      var next := row.reconciles + 1;
      var status := if next >= maxReconciles then DraftPending else DraftUnknown;
      var exhausted := status.DraftPending? && draft.attempts >= maxAttempts;
      db.drafts := db.drafts[draft.id := row.(
        status := if exhausted then DraftFailed else status,
        reconciles := if status.DraftPending? then 0 else next,
        lastError := Some(if exhausted then "retry_exhausted" else "reconciliation_not_found"),
        nextAttemptAt := if exhausted then at else at + delay,
        updatedAt := at)];
      return true;
    }

    method SettleBatch(batch: BatchId, now: Time) returns (r: Option<BatchStatus>)
      modifies db`batches, db`runs
      ensures db.View() == After(old(db.View()), Settle(old(db.View()), batch, now))
      ensures match Settle(old(db.View()), batch, now)
              case RolledBack => r.None?
              case Committed(_, status) => r == Some(status)
    {
      if batch !in db.batches {
        return None;
      }
      var created := |OfBatch(db.drafts, batch, DraftCreated)|;
      var failed := |OfBatch(db.drafts, batch, DraftFailed)|;
      var unknown := |OfBatch(db.drafts, batch, DraftUnknown)|;
      var status;
      if created == db.batches[batch].target {
        status := BatchCompleted;
      } else if failed > 0 {
        status := BatchDegraded;
      } else if unknown > 0 {
        status := BatchReconciling;
      } else {
        status := BatchScheduled;
      }
      db.batches := db.batches[batch := db.batches[batch].(
        status := status,
        leaseUntil := None,
        completedAt := if status.BatchCompleted? then Some(now) else None)];
      if status.BatchDegraded? {
        if batch.run in db.runs {
          db.runs := db.runs[batch.run := db.runs[batch.run].(status := RunDegraded, marker := false)];
        }
      } else if forall b :: b in db.batches && b.run == batch.run ==> db.batches[b].status.BatchCompleted? {
        if batch.run in db.runs {
          db.runs := db.runs[batch.run := db.runs[batch.run].(
            status := RunCompleted, marker := false, completedAt := Some(now))];
        }
      }
      return Some(status);
    }
  }
}
