/** What whole passes leave behind: a tick of the scheduler over a batch, and a reconciliation pass. Every listed draft
    is taken up once, with the answer of its own, every other draft stays, and the batches are settled by the result. */
module TickOutcomes {
  import opened Domain
  import opened Tables
  import opened InvoiceProvider
  import opened TrialService
  import opened DraftProtocol
  import opened ServiceMoves
  import opened DraftOutcomes
  import opened Settlement
  import ES = EventStore
  import IS = InvoiceStore
  import RS = TrialStore

  lemma ListsFirst(page: seq<IS.InvoiceDraft>, d: DraftId)
    requires page != []
    ensures IS.Lists(page, d) <==> d == page[0].id || IS.Lists(page[1..], d)
  {
    if IS.Lists(page, d) && d != page[0].id {
      var i :| 0 <= i < |page| && page[i].id == d;
      assert page[1..][i - 1].id == d;
    }
    if IS.Lists(page[1..], d) {
      var i :| 0 <= i < |page[1..]| && page[1..][i].id == d;
      assert page[i + 1].id == d;
    }
  }

  lemma FirstIsOnce(page: seq<IS.InvoiceDraft>)
    requires page != [] && IS.Distinct(page)
    ensures !IS.Lists(page[1..], page[0].id)
  {
  }

  // ---- Issuing a page ----

  /** Every draft of the page is issued with its own answer, and the others stay as they are. */
  ghost predicate AllIssued(drafts: map<DraftId, DraftRow>, page: seq<IS.InvoiceDraft>, answers: DraftId -> Answer,
                            drafts': map<DraftId, DraftRow>, now: Time, cfg: TrialConfig)
  {
    && drafts'.Keys == drafts.Keys
    && forall d :: d in drafts ==>
         if IS.Lists(page, d) then IssuedAs(drafts[d], answers(d), drafts'[d], now, cfg) else drafts'[d] == drafts[d]
  }

  lemma IssuedThen(drafts: map<DraftId, DraftRow>, page: seq<IS.InvoiceDraft>, answers: DraftId -> Answer,
                   mid: map<DraftId, DraftRow>, drafts': map<DraftId, DraftRow>, now: Time, cfg: TrialConfig)
    requires page != [] && IS.Distinct(page) && page[0].id in drafts && page[0].id in mid
    requires mid == drafts[page[0].id := mid[page[0].id]]
    requires IssuedAs(drafts[page[0].id], answers(page[0].id), mid[page[0].id], now, cfg)
    requires AllIssued(mid, page[1..], answers, drafts', now, cfg)
    ensures AllIssued(drafts, page, answers, drafts', now, cfg)
  {
    FirstIsOnce(page);
    forall d | d in drafts
      ensures if IS.Lists(page, d) then IssuedAs(drafts[d], answers(d), drafts'[d], now, cfg)
              else drafts'[d] == drafts[d]
    {
      ListsFirst(page, d);
    }
  }

  lemma {:induction false} IssueAllLeaves(w: World, page: seq<IS.InvoiceDraft>, answers: DraftId -> Answer, now: Time,
                                          cfg: TrialConfig)
    requires ExactIn(w) && AllListed(w.db.drafts, page, DraftPending)
    ensures var p := IssueAll(w, page, answers, Lives, now, cfg);
            && ExactIn(p.world) && p.world.db == w.db.(owned := p.world.db.owned, drafts := p.world.db.drafts)
            && (p.alive ==> AllIssued(w.db.drafts, page, answers, p.world.db.drafts, now, cfg))
    decreases |page|
  {
    if page != [] {
      var a := answers(page[0].id);
      assert Listed(w.db.drafts, page[0], DraftPending);
      IssueEffect(w, page[0], a, false, now, cfg);
      IssueLeaves(w, page[0], a, now, cfg);
      var p := Issue(w, page[0], a, false, now, cfg);
      if p.alive {
        RestListed(w.db.drafts, p.world.db.drafts, page, DraftPending, p.world.db.drafts[page[0].id]);
        IssueAllLeaves(p.world, page[1..], answers, now, cfg);
        var q := IssueAll(p.world, page[1..], answers, Lives, now, cfg);
        if q.alive {
          IssuedThen(w.db.drafts, page, answers, p.world.db.drafts, q.world.db.drafts, now, cfg);
        }
      }
    }
  }

  /** The invoices that the drafts of a page get belong to no other tag, and no two are the same. */
  ghost predicate FreeInvoices(owned: map<Tag, OwnedRow>, drafts: map<DraftId, DraftRow>, page: seq<IS.InvoiceDraft>,
                               answers: DraftId -> Answer)
    requires forall i :: 0 <= i < |page| ==> page[i].id in drafts
  {
    && (forall i :: 0 <= i < |page| ==>
          !TakenByAnother(owned, page[i].id, InvoiceFrom(drafts[page[i].id], answers(page[i].id))))
    && (forall i, k :: 0 <= i < k < |page| && InvoiceFrom(drafts[page[i].id], answers(page[i].id)).Some? ==>
          InvoiceFrom(drafts[page[i].id], answers(page[i].id)) != InvoiceFrom(drafts[page[k].id], answers(page[k].id)))
  }

  /** Then no draft of the page ends the tick. */
  lemma {:induction false} IssueAllGoesOn(w: World, page: seq<IS.InvoiceDraft>, answers: DraftId -> Answer, now: Time,
                                          cfg: TrialConfig)
    requires ExactIn(w) && AllListed(w.db.drafts, page, DraftPending)
    requires FreeInvoices(w.db.owned, w.db.drafts, page, answers)
    ensures IssueAll(w, page, answers, Lives, now, cfg).alive
    decreases |page|
  {
    if page != [] {
      var a := answers(page[0].id);
      assert Listed(w.db.drafts, page[0], DraftPending);
      IssueEffect(w, page[0], a, false, now, cfg);
      IssueLeaves(w, page[0], a, now, cfg);
      var p := Issue(w, page[0], a, false, now, cfg);
      RestListed(w.db.drafts, p.world.db.drafts, page, DraftPending, p.world.db.drafts[page[0].id]);
      StillFree(w, p.world, page, answers);
      IssueAllGoesOn(p.world, page[1..], answers, now, cfg);
    }
  }

  lemma StillFree(w: World, w': World, page: seq<IS.InvoiceDraft>, answers: DraftId -> Answer)
    requires page != [] && AllListed(w.db.drafts, page, DraftPending)
    requires AllListed(w'.db.drafts, page[1..], DraftPending)
    requires FreeInvoices(w.db.owned, w.db.drafts, page, answers)
    requires page[0].id in w'.db.drafts && w'.db.drafts == w.db.drafts[page[0].id := w'.db.drafts[page[0].id]]
    requires BindsAtMost(w.db.owned, w'.db.owned, TrialTag(page[0].id),
                         InvoiceFrom(w.db.drafts[page[0].id], answers(page[0].id)))
    ensures FreeInvoices(w'.db.owned, w'.db.drafts, page[1..], answers)
  {
    var z := InvoiceFrom(w.db.drafts[page[0].id], answers(page[0].id));
    forall i | 0 <= i < |page| - 1
      ensures w'.db.drafts[page[1..][i].id] == w.db.drafts[page[i + 1].id]
      ensures var d := page[1..][i].id;
              !TakenByAnother(w'.db.owned, d, InvoiceFrom(w'.db.drafts[d], answers(d)))
    {
      var d := page[i + 1].id;
      assert page[0].id != d;
      var x := InvoiceFrom(w.db.drafts[d], answers(d));
      if x.Some? {
        StaysFree(w.db.owned, w'.db.owned, TrialTag(page[0].id), z, TrialTag(d), x.value);
      }
    }
  }

  // ---- A tick ----

  /** The row of a draft once its batch is open: the stored one, or a new one with its payer's amount, due at once. */
  function OpenedRow(drafts: map<DraftId, DraftRow>, payers: DraftId -> Cents, d: DraftId, now: Time): DraftRow {
    if d in drafts then drafts[d] else DraftRow(payers(d), DraftPending, None, 0, 0, None, now, now, now)
  }

  predicate OfOrdinals(b: BatchId, n: nat, d: DraftId) {
    d.batch == b && 0 <= d.ordinal < n
  }

  /** The drafts of an open batch: those stored, and one for every ordinal below the target. */
  ghost predicate Opened(drafts: map<DraftId, DraftRow>, b: BatchId, n: nat, payers: DraftId -> Cents,
                         drafts': map<DraftId, DraftRow>, now: Time)
  {
    && (forall d :: d in drafts' <==> d in drafts || OfOrdinals(b, n, d))
    && (forall d :: d in drafts' ==> drafts'[d] == OpenedRow(drafts, payers, d, now))
  }

  lemma SaveOpens(db: Db, b: BatchId, n: nat, payers: DraftId -> Cents, now: Time)
    requires IS.Save(db, b, Amounts(payers, b, n), now).Committed?
    ensures Opened(db.drafts, b, n, payers, IS.Save(db, b, Amounts(payers, b, n), now).db.drafts, now)
  {
    var amounts := Amounts(payers, b, n);
    forall d { IS.AddDraftsAt(db.drafts, b, amounts, now, n, d); }
    forall d | OfOrdinals(b, n, d) && d !in db.drafts ensures amounts[d.ordinal] == payers(d) {
      assert d == DraftId(b, d.ordinal);
    }
  }

  /** The claim of the batch, its drafts and their owned rows, and the page of the tick. */
  lemma BatchOpens(w: World, b: BatchId, payers: DraftId -> Cents, page: seq<IS.InvoiceDraft>, now: Time,
                   cfg: TrialConfig)
    requires ExactIn(w) && b in w.db.batches && IsTickPage(w.db, b, payers, page, now, cfg)
    requires OpenBatch(w.db, b, payers, now, cfg).Committed?
    ensures var db, row := OpenBatch(w.db, b, payers, now, cfg).db, w.db.batches[b];
            && db == w.db.(owned := db.owned, drafts := db.drafts, batches := db.batches)
            && b in db.batches && db.batches == w.db.batches[b := db.batches[b]]
            && db.batches[b].target == row.target && db.batches[b].scheduledAt == row.scheduledAt
            && db.batches[b].attempts == row.attempts + 1
            && Exact(db.owned, db.drafts) && AllListed(db.drafts, page, DraftPending)
            && Opened(w.db.drafts, b, row.target, payers, db.drafts, now)
            && (forall t, x :: ES.Bound(db.owned, t, x) ==> ES.Bound(w.db.owned, t, x))
  {
    var row := w.db.batches[b];
    var claimed := RS.ClaimBatch(w.db, b, now + cfg.leaseSeconds);
    SaveEffect(claimed, b, Amounts(payers, b, row.target), now);
    SaveOpens(claimed, b, row.target, payers, now);
    var db := OpenBatch(w.db, b, payers, now, cfg).db;
    forall i | 0 <= i < |page| ensures Listed(db.drafts, page[i], DraftPending) {
      assert IS.Fresh(db.drafts, page[i]) && IS.Due(db.drafts, page[i].id, DraftPending, now);
    }
  }

  /** The draft is taken up by a tick over the batch: it is pending there and its time has come. */
  predicate TakenUp(row: DraftRow, d: DraftId, b: BatchId, now: Time) {
    d.batch == b && row.status.DraftPending? && row.nextAttemptAt <= now
  }

  /** A draft exists for every ordinal, those taken up are issued, and the others stay. */
  ghost predicate TickedDrafts(drafts: map<DraftId, DraftRow>, b: BatchId, n: nat, payers: DraftId -> Cents,
                               answers: DraftId -> Answer, drafts': map<DraftId, DraftRow>, now: Time, cfg: TrialConfig)
  {
    && (forall d :: d in drafts' <==> d in drafts || OfOrdinals(b, n, d))
    && (forall d :: d in drafts' ==>
          var row := OpenedRow(drafts, payers, d, now);
          if TakenUp(row, d, b, now) then IssuedAs(row, answers(d), drafts'[d], now, cfg) else drafts'[d] == row)
  }

  lemma OpenedAndIssued(drafts: map<DraftId, DraftRow>, b: BatchId, n: nat, payers: DraftId -> Cents,
                        mid: map<DraftId, DraftRow>, page: seq<IS.InvoiceDraft>, answers: DraftId -> Answer,
                        drafts': map<DraftId, DraftRow>, now: Time, cfg: TrialConfig)
    requires Opened(drafts, b, n, payers, mid, now) && IS.IsPendingPage(mid, b, now, page)
    requires AllIssued(mid, page, answers, drafts', now, cfg)
    ensures TickedDrafts(drafts, b, n, payers, answers, drafts', now, cfg)
  {
    assert forall d :: d in drafts' <==> d in mid;
    forall d | d in drafts'
      ensures var row := OpenedRow(drafts, payers, d, now);
              if TakenUp(row, d, b, now) then IssuedAs(row, answers(d), drafts'[d], now, cfg) else drafts'[d] == row
    {
      PendingPageLists(mid, b, now, page, d);
    }
  }

  /** What a tick that gets through makes of the drafts and of its batch. */
  ghost predicate TickedOver(db: Db, b: BatchId, payers: DraftId -> Cents, answers: DraftId -> Answer, db': Db,
                             now: Time, cfg: TrialConfig)
    requires b in db.batches
  {
    && b in db'.batches && db'.batches == db.batches[b := db'.batches[b]]
    && TickedDrafts(db.drafts, b, db.batches[b].target, payers, answers, db'.drafts, now, cfg)
    && SettledRow(db'.drafts, b, db.batches[b].(attempts := db.batches[b].attempts + 1), db'.batches[b], now)
  }

  /** A tick over a claimed batch that gets through: one claim is counted, a draft exists for every ordinal, each draft
      that is due is issued once with its own answer and the others stay, and the batch is settled by what came out. */
  lemma TickLeaves(w: World, b: BatchId, payers: DraftId -> Cents, page: seq<IS.InvoiceDraft>,
                   answers: DraftId -> Answer, now: Time, cfg: TrialConfig)
    requires ExactIn(w) && b in w.db.batches && IsTickPage(w.db, b, payers, page, now, cfg)
    requires TickBatch(w, b, payers, page, answers, true, Lives, true, now, cfg).alive
    ensures var p := TickBatch(w, b, payers, page, answers, true, Lives, true, now, cfg);
            ExactIn(p.world) && TickedOver(w.db, b, payers, answers, p.world.db, now, cfg)
  {
    BatchOpens(w, b, payers, page, now, cfg);
    var db := OpenBatch(w.db, b, payers, now, cfg).db;
    IssueAllLeaves(w.(db := db), page, answers, now, cfg);
    var issued := IssueAll(w.(db := db), page, answers, Lives, now, cfg).world.db;
    OpenedAndIssued(w.db.drafts, b, w.db.batches[b].target, payers, db.drafts, page, answers, issued.drafts, now, cfg);
    TickSettles(w, b, db, issued, IS.Settle(issued, b, now), payers, answers, now, cfg);
  }

  lemma TickSettles(w: World, b: BatchId, db: Db, issued: Db, tx: Tx<BatchStatus>, payers: DraftId -> Cents,
                    answers: DraftId -> Answer, now: Time, cfg: TrialConfig)
    requires b in w.db.batches && b in db.batches && db.batches == w.db.batches[b := db.batches[b]]
    requires db.batches[b].target == w.db.batches[b].target && db.batches[b].scheduledAt == w.db.batches[b].scheduledAt
    requires db.batches[b].attempts == w.db.batches[b].attempts + 1
    requires issued.batches == db.batches && tx == IS.Settle(issued, b, now)
    requires TickedDrafts(w.db.drafts, b, w.db.batches[b].target, payers, answers, issued.drafts, now, cfg)
    ensures tx.Committed? && TickedOver(w.db, b, payers, answers, tx.db, now, cfg)
  {
    SettlesExactly(issued, b, now);
  }

  // ---- A tick that completes its batch ----

  function Ordinals(b: BatchId, n: nat): set<DraftId> {
    set i | 0 <= i < n :: DraftId(b, i)
  }

  lemma {:induction false} OrdinalsCount(b: BatchId, n: nat)
    ensures |Ordinals(b, n)| == n
  {
    if n > 0 {
      OrdinalsCount(b, n - 1);
      assert Ordinals(b, n) == Ordinals(b, n - 1) + {DraftId(b, n - 1)};
    }
  }

  /** The provider accepts a create for every ordinal of the batch, with invoices that are new and all different. */
  ghost predicate AcceptsAll(owned: map<Tag, OwnedRow>, b: BatchId, n: nat, answers: DraftId -> Answer) {
    && (forall d :: OfOrdinals(b, n, d) ==>
          answers(d).creation.reply.Ok? && forall t :: !ES.Bound(owned, t, answers(d).creation.reply.invoice))
    && (forall d, e :: OfOrdinals(b, n, d) && OfOrdinals(b, n, e) && d != e ==>
          answers(d).creation.reply != answers(e).creation.reply)
  }

  /** Nothing of the batch is stored yet, and its payers owe something. */
  ghost predicate IsNewBatch(w: World, b: BatchId, payers: DraftId -> Cents)
    requires b in w.db.batches
  {
    && (forall d :: d in w.db.drafts ==> d.batch != b)
    && (forall d :: OfOrdinals(b, w.db.batches[b].target, d) ==> payers(d) > 0 && TrialTag(d) !in w.db.owned)
  }

  lemma NewBatchOpens(w: World, b: BatchId, payers: DraftId -> Cents, now: Time, cfg: TrialConfig)
    requires b in w.db.batches && IsNewBatch(w, b, payers)
    ensures OpenBatch(w.db, b, payers, now, cfg).Committed?
  {
    var n := w.db.batches[b].target;
    var claimed, amounts := RS.ClaimBatch(w.db, b, now + cfg.leaseSeconds), Amounts(payers, b, n);
    if k :| 0 <= k < n && IS.DraftRefused(claimed, b, amounts, k) {
      assert OfOrdinals(b, n, DraftId(b, k));
      assert false;
    }
  }

  lemma AcceptedPageGoesOn(w: World, b: BatchId, payers: DraftId -> Cents, page: seq<IS.InvoiceDraft>,
                           answers: DraftId -> Answer, now: Time, cfg: TrialConfig)
    requires ExactIn(w) && b in w.db.batches && IsTickPage(w.db, b, payers, page, now, cfg)
    requires IsNewBatch(w, b, payers) && AcceptsAll(w.db.owned, b, w.db.batches[b].target, answers)
    requires OpenBatch(w.db, b, payers, now, cfg).Committed?
    ensures TickBatch(w, b, payers, page, answers, true, Lives, true, now, cfg).alive
  {
    BatchOpens(w, b, payers, page, now, cfg);
    var db, n := OpenBatch(w.db, b, payers, now, cfg).db, w.db.batches[b].target;
    forall i | 0 <= i < |page|
      ensures page[i].id in db.drafts && OfOrdinals(b, n, page[i].id)
      ensures InvoiceFrom(db.drafts[page[i].id], answers(page[i].id))
                == Some(answers(page[i].id).creation.reply.invoice)
      ensures !TakenByAnother(db.owned, page[i].id, InvoiceFrom(db.drafts[page[i].id], answers(page[i].id)))
    {
      var d := page[i].id;
      assert IS.Fresh(db.drafts, page[i]) && d.batch == b;
      forall t | t in db.owned ensures db.owned[t].provider != Some(answers(d).creation.reply.invoice) {
        assert !ES.Bound(db.owned, t, answers(d).creation.reply.invoice);
      }
    }
    IssueAllGoesOn(w.(db := db), page, answers, now, cfg);
    IssueAllLeaves(w.(db := db), page, answers, now, cfg);
  }

  /** The first tick over a batch completes it when the provider accepts all its creates: one draft for each ordinal,
      each created with the invoice it was answered. */
  lemma AcceptedTickCompletes(w: World, b: BatchId, payers: DraftId -> Cents, page: seq<IS.InvoiceDraft>,
                              answers: DraftId -> Answer, now: Time, cfg: TrialConfig)
    requires ExactIn(w) && b in w.db.batches && IsTickPage(w.db, b, payers, page, now, cfg)
    requires IsNewBatch(w, b, payers) && AcceptsAll(w.db.owned, b, w.db.batches[b].target, answers)
    ensures var p := TickBatch(w, b, payers, page, answers, true, Lives, true, now, cfg);
            && p.alive && b in p.world.db.batches && p.world.db.batches[b].status.BatchCompleted?
            && (forall d :: OfOrdinals(b, w.db.batches[b].target, d) ==>
                  && d in p.world.db.drafts && p.world.db.drafts[d].status.DraftCreated?
                  && p.world.db.drafts[d].provider == Some(answers(d).creation.reply.invoice)
                  && p.world.db.drafts[d].amount == payers(d))
  {
    NewBatchOpens(w, b, payers, now, cfg);
    AcceptedPageGoesOn(w, b, payers, page, answers, now, cfg);
    TickLeaves(w, b, payers, page, answers, now, cfg);
    var drafts' := TickBatch(w, b, payers, page, answers, true, Lives, true, now, cfg).world.db.drafts;
    forall d | OfOrdinals(b, w.db.batches[b].target, d)
      ensures d in drafts' && drafts'[d].status.DraftCreated? && drafts'[d].amount == payers(d)
      ensures drafts'[d].provider == Some(answers(d).creation.reply.invoice)
    {
      assert TakenUp(OpenedRow(w.db.drafts, payers, d, now), d, b, now);
    }
    AllCreatedIsFull(drafts', b, w.db.batches[b].target);
  }

  lemma AllCreatedIsFull(drafts: map<DraftId, DraftRow>, b: BatchId, n: nat)
    requires forall d :: OfOrdinals(b, n, d) ==> d in drafts && drafts[d].status.DraftCreated?
    requires forall d :: d in drafts && d.batch == b ==> OfOrdinals(b, n, d)
    ensures IsFull(drafts, b, n)
  {
    var created := set d | d in drafts && d.batch == b && drafts[d].status.DraftCreated?;
    OrdinalsCount(b, n);
    forall d | OfOrdinals(b, n, d) ensures d in Ordinals(b, n) {
      assert d == DraftId(b, d.ordinal);
    }
    assert created == Ordinals(b, n);
  }

  // ---- A reconciliation pass ----

  /** Every draft of the page that got an answer is rewritten by it, no lookup was refused for good, and the others
      stay as they are. */
  ghost predicate AllReconciled(drafts: map<DraftId, DraftRow>, page: seq<IS.InvoiceDraft>, replies: DraftId -> Lookup,
                                drafts': map<DraftId, DraftRow>, now: Time, cfg: TrialConfig)
  {
    && drafts'.Keys == drafts.Keys
    && (forall d :: IS.Lists(page, d) ==> replies(d) != LookupRaised(Permanent))
    && forall d :: d in drafts ==>
         if IS.Lists(page, d) && replies(d).Found? then FoundAs(drafts[d], replies(d).invoice, drafts'[d])
         else if IS.Lists(page, d) && replies(d).NotFound? then MissedAs(drafts[d], drafts'[d], now, cfg)
         else drafts'[d] == drafts[d]
  }

  lemma ReconciledThen(drafts: map<DraftId, DraftRow>, page: seq<IS.InvoiceDraft>, replies: DraftId -> Lookup,
                       mid: map<DraftId, DraftRow>, drafts': map<DraftId, DraftRow>, now: Time, cfg: TrialConfig)
    requires page != [] && IS.Distinct(page) && page[0].id in drafts && page[0].id in mid
    requires mid == drafts[page[0].id := mid[page[0].id]]
    requires match replies(page[0].id)
             case Found(x) => FoundAs(drafts[page[0].id], x, mid[page[0].id])
             case NotFound => MissedAs(drafts[page[0].id], mid[page[0].id], now, cfg)
             case LookupRaised(e) => mid == drafts && !e.Permanent?
    requires AllReconciled(mid, page[1..], replies, drafts', now, cfg)
    ensures AllReconciled(drafts, page, replies, drafts', now, cfg)
  {
    FirstIsOnce(page);
    forall d | IS.Lists(page, d) ensures replies(d) != LookupRaised(Permanent) {
      ListsFirst(page, d);
    }
    forall d | d in drafts
      ensures if IS.Lists(page, d) && replies(d).Found? then FoundAs(drafts[d], replies(d).invoice, drafts'[d])
              else if IS.Lists(page, d) && replies(d).NotFound? then MissedAs(drafts[d], drafts'[d], now, cfg)
              else drafts'[d] == drafts[d]
    {
      ListsFirst(page, d);
    }
  }

  /** The first draft of a page, and the others as listed. */
  lemma ReconcileFirst(w: World, page: seq<IS.InvoiceDraft>, reply: Lookup, now: Time, cfg: TrialConfig)
    requires ExactIn(w) && page != [] && AllListed(w.db.drafts, page, DraftUnknown)
    ensures var d, p := page[0].id, ReconcileOne(w, page[0], reply, now, cfg);
            && ExactIn(p.world) && p.world.remote == w.remote
            && p.world.db == w.db.(owned := p.world.db.owned, drafts := p.world.db.drafts)
            && d in w.db.drafts && (p.alive ==>
                  && reply != LookupRaised(Permanent)
                  && AllListed(p.world.db.drafts, page[1..], DraftUnknown)
                  && d in p.world.db.drafts && p.world.db.drafts == w.db.drafts[d := p.world.db.drafts[d]]
                  && match reply
                     case Found(x) => FoundAs(w.db.drafts[d], x, p.world.db.drafts[d])
                     case NotFound => MissedAs(w.db.drafts[d], p.world.db.drafts[d], now, cfg)
                     case LookupRaised(_) => p.world.db.drafts == w.db.drafts)
  {
    assert Listed(w.db.drafts, page[0], DraftUnknown);
    ReconcileEffect(w, page[0], reply, now, cfg);
    ReconcileLeaves(w, page[0], reply, now, cfg);
    var p := ReconcileOne(w, page[0], reply, now, cfg);
    if p.alive {
      assert p.world.db.drafts == w.db.drafts[page[0].id := p.world.db.drafts[page[0].id]];
      RestListed(w.db.drafts, p.world.db.drafts, page, DraftUnknown, p.world.db.drafts[page[0].id]);
    }
  }

  lemma {:induction false} ReconcileAllLeaves(w: World, page: seq<IS.InvoiceDraft>, replies: DraftId -> Lookup,
                                              now: Time, cfg: TrialConfig)
    requires ExactIn(w) && AllListed(w.db.drafts, page, DraftUnknown)
    ensures var p := ReconcileAll(w, page, replies, Lives, now, cfg);
            && ExactIn(p.world) && p.world.remote == w.remote
            && p.world.db == w.db.(owned := p.world.db.owned, drafts := p.world.db.drafts)
            && (p.alive ==> AllReconciled(w.db.drafts, page, replies, p.world.db.drafts, now, cfg))
    decreases |page|
  {
    if page != [] {
      ReconcileFirst(w, page, replies(page[0].id), now, cfg);
      var p := ReconcileOne(w, page[0], replies(page[0].id), now, cfg);
      if p.alive {
        ReconcileAllLeaves(p.world, page[1..], replies, now, cfg);
        var q := ReconcileAll(p.world, page[1..], replies, Lives, now, cfg);
        if q.alive {
          ReconciledThen(w.db.drafts, page, replies, p.world.db.drafts, q.world.db.drafts, now, cfg);
        }
      }
    }
  }

  /** Each batch of the order is settled by the drafts, and the others stay as they are. */
  ghost predicate AllSettled(db: Db, order: seq<BatchId>, batches': map<BatchId, BatchRow>, now: Time) {
    && batches'.Keys == db.batches.Keys
    && forall b :: b in db.batches ==>
         if b in order then SettledRow(db.drafts, b, db.batches[b], batches'[b], now) else batches'[b] == db.batches[b]
  }

  lemma SettledThen(db: Db, before: seq<BatchId>, mid: Db, last: BatchId, db': Db, now: Time)
    requires AllSettled(db, before, mid.batches, now) && last !in before && last in db.batches
    requires mid.drafts == db.drafts
    requires last in db'.batches && db'.batches == mid.batches[last := db'.batches[last]]
    requires SettledRow(mid.drafts, last, mid.batches[last], db'.batches[last], now)
    ensures AllSettled(db, before + [last], db'.batches, now)
  {
  }

  lemma {:induction false} SettleAllLeaves(w: World, order: seq<BatchId>, now: Time)
    requires forall i, k :: 0 <= i < k < |order| ==> order[i] != order[k]
    ensures var p := SettleAll(w, order, now);
            && (p.alive <==> forall b :: b in order ==> b in w.db.batches)
            && p.world == w.(db := w.db.(batches := p.world.db.batches, runs := p.world.db.runs))
            && (p.alive ==> AllSettled(w.db, order, p.world.db.batches, now))
    decreases |order|
  {
    if order != [] {
      var before, last := order[..|order| - 1], order[|order| - 1];
      assert last in order;
      forall b | b in before ensures b in order && b != last {
        var i :| 0 <= i < |before| && before[i] == b;
        assert order[i] == b;
      }
      SettleAllLeaves(w, before, now);
      assert order == before + [last];
      var p := SettleAll(w, before, now);
      if p.alive && last in w.db.batches {
        SettlesExactly(p.world.db, last, now);
        SettledThen(w.db, before, p.world.db, last, SettleAll(w, order, now).world.db, now);
      }
    }
  }

  /** A reconciliation pass that gets through: every draft of the page that got an answer is rewritten by it and every
      other draft stays; no lookup was refused for good; and the batches of the drafts with an answer, and no others,
      are settled by what came out. */
  lemma ReconcilePassLeaves(w: World, page: seq<IS.InvoiceDraft>, replies: DraftId -> Lookup, order: seq<BatchId>,
                            now: Time, cfg: TrialConfig)
    requires ExactIn(w) && IS.IsUnknownPage(w.db.drafts, now, 100, page)
    requires IsOrderOf(AnsweredBatches(page, replies), order)
    requires ReconcilePass(w, page, replies, Lives, order, now, cfg).alive
    ensures var db' := ReconcilePass(w, page, replies, Lives, order, now, cfg).world.db;
            && AllReconciled(w.db.drafts, page, replies, db'.drafts, now, cfg)
            && db'.batches.Keys == w.db.batches.Keys
            && (forall b :: b in w.db.batches ==>
                  if exists i :: 0 <= i < |page| && page[i].id.batch == b && !replies(page[i].id).LookupRaised?
                  then SettledRow(db'.drafts, b, w.db.batches[b], db'.batches[b], now)
                  else db'.batches[b] == w.db.batches[b])
  {
    forall i | 0 <= i < |page| ensures Listed(w.db.drafts, page[i], DraftUnknown) {
      assert IS.Fresh(w.db.drafts, page[i]) && IS.Due(w.db.drafts, page[i].id, DraftUnknown, now);
    }
    ReconcileAllLeaves(w, page, replies, now, cfg);
    var p := ReconcileAll(w, page, replies, Lives, now, cfg);
    SettleAllLeaves(p.world, order, now);
    forall b ensures b in order
      <==> exists i :: 0 <= i < |page| && page[i].id.batch == b && !replies(page[i].id).LookupRaised?
    {
      assert b in order <==> b in AnsweredBatches(page, replies);
    }
  }
}
