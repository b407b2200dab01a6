/** What issuing and reconciling make of a draft, told from its row and the provider's answers alone: when it is
    created, fails, stays unknown, or waits; and which drafts a pass takes up. */
module DraftOutcomes {
  import opened Domain
  import opened Tables
  import opened Transactions
  import opened InvoiceProvider
  import opened OwnershipMirror
  import opened TrialService
  import opened DraftProtocol
  import opened ServiceMoves
  import ES = EventStore
  import IS = InvoiceStore

  // ---- Issuing ----

  /** A draft attempted before is looked up first, and only a lookup that finds nothing lets it be created. */
  predicate LookedUp(row: DraftRow, a: Answer) {
    row.attempts > 0 && !a.lookup.NotFound?
  }

  function InvoiceFrom(row: DraftRow, a: Answer): Option<InvoiceId> {
    if LookedUp(row, a) then if a.lookup.Found? then Some(a.lookup.invoice) else None
    else if a.creation.reply.Ok? then Some(a.creation.reply.invoice)
    else None
  }

  predicate IsRefused(row: DraftRow, a: Answer) {
    if LookedUp(row, a) then a.lookup == LookupRaised(Permanent)
    else a.creation.reply == InvoiceReply.CreateRaised(Permanent)
  }

  /** The create may have taken effect: it timed out, or its outcome is unknown. */
  predicate IsOpen(row: DraftRow, a: Answer) {
    && !LookedUp(row, a)
    && (a.creation.reply == InvoiceReply.CreateRaised(TimedOut)
        || a.creation.reply == InvoiceReply.CreateRaised(UnknownOutcome))
  }

  /** A lookup that failed for now, or a create that failed for now without effect. */
  predicate MayBeRetried(row: DraftRow, a: Answer) {
    if LookedUp(row, a) then a.lookup.LookupRaised? && a.lookup.error != Permanent
    else a.creation.reply == InvoiceReply.CreateRaised(Transient)
  }

  /** The time until the next attempt: the base, doubled for each earlier attempt, at most eight times. */
  function DraftWait(cfg: TrialConfig, row: DraftRow): int {
    cfg.retryBase * Pow2(if row.attempts < 8 then row.attempts else 8)
  }

  /** What is noted about a draft that was not created. */
  function DraftNote(row: DraftRow, a: Answer, cfg: TrialConfig): string {
    if IsRefused(row, a) then "ProviderPermanentError"
    else if MayBeRetried(row, a) && row.attempts + 1 >= cfg.maxAttempts then "retry_exhausted"
    else if LookedUp(row, a) then (if a.lookup.LookupRaised? then a.lookup.error.Name() else "")
    else if a.creation.reply.CreateRaised? then a.creation.reply.error.Name() else ""
  }

  /** The row of an issued draft. It fails exactly when the provider refused it for good or its attempts are used up. */
  predicate IssuedAs(row: DraftRow, a: Answer, row': DraftRow, now: Time, cfg: TrialConfig) {
    && row'.amount == row.amount && row'.createdAt == row.createdAt && row'.attempts == row.attempts + 1
    && row'.provider == InvoiceFrom(row, a) && row'.updatedAt == now
    && row'.reconciles == (if InvoiceFrom(row, a).Some? then 0 else row.reconciles)
    && (row'.status.DraftCreated? <==> InvoiceFrom(row, a).Some?)
    && (row'.status.DraftUnknown? <==> IsOpen(row, a))
    && (row'.status.DraftFailed? <==>
          IsRefused(row, a) || (MayBeRetried(row, a) && row.attempts + 1 >= cfg.maxAttempts))
    && (row'.status.DraftPending? <==> MayBeRetried(row, a) && row.attempts + 1 < cfg.maxAttempts)
    && row'.nextAttemptAt == (if row'.status.DraftPending? then now + DraftWait(cfg, row) else now)
    && row'.lastError == (if row'.status.DraftCreated? then None else Some(DraftNote(row, a, cfg)))
  }

  lemma IssuedRowTells(row: DraftRow, a: Answer, now: Time, cfg: TrialConfig)
    requires row.status.DraftPending? && row.provider.None?
    ensures IssuedAs(row, a, IssuedRow(row, a, now, cfg), now, cfg)
  {
  }

  ghost predicate TakenByAnother(owned: map<Tag, OwnedRow>, d: DraftId, x: Option<InvoiceId>) {
    x.Some? && IS.InvoiceTaken(owned, TrialTag(d), x.value)
  }

  /** Moving a draft commits unless its invoice belongs to another tag. */
  lemma TransitionCommits(db: Db, d: DraftId, status: DraftStatus, x: Option<InvoiceId>, error: Option<string>,
                          at: Time)
    requires Exact(db.owned, db.drafts) && d in db.drafts
    ensures IS.Transition(db, d, status, x, error, at).Committed? <==> !TakenByAnother(db.owned, d, x)
  {
    assert Linked(db.owned, db.drafts, d);
    if x.Some? && ES.DraftProviderTaken(db.drafts, d, x.value) {
      MirrorOwnerOfDraft(db.owned, db.drafts, d, x.value);
    }
  }

  lemma IssueGoesOn(w: World, d: IS.InvoiceDraft, a: Answer, now: Time, cfg: TrialConfig)
    requires ExactIn(w) && Listed(w.db.drafts, d, DraftPending)
    ensures Issue(w, d, a, false, now, cfg).alive
       <==> !TakenByAnother(w.db.owned, d.id, InvoiceFrom(w.db.drafts[d.id], a))
  {
    if InvoiceFrom(w.db.drafts[d.id], a).Some? {
      TransitionCommits(w.db, d.id, DraftCreated, InvoiceFrom(w.db.drafts[d.id], a), None, now);
    }
  }

  /** The issue of a draft that is as its page listed it. A create is called unless the draft was looked up; the tick
      goes on unless the invoice belongs to another tag. */
  lemma IssueLeaves(w: World, d: IS.InvoiceDraft, a: Answer, now: Time, cfg: TrialConfig)
    requires ExactIn(w) && Listed(w.db.drafts, d, DraftPending)
    ensures var p, row := Issue(w, d, a, false, now, cfg), w.db.drafts[d.id];
            && p.world.remote == (if LookedUp(row, a) then w.remote
                                  else AdmitInvoice(w.remote, TrialTag(d.id), a.creation))
            && (p.alive <==> !TakenByAnother(w.db.owned, d.id, InvoiceFrom(row, a)))
            && (p.alive ==> d.id in p.world.db.drafts
                            && p.world.db.drafts == w.db.drafts[d.id := p.world.db.drafts[d.id]]
                            && IssuedAs(row, a, p.world.db.drafts[d.id], now, cfg))
  {
    assert ExactDraft(w.db.owned, w.db.drafts, d.id);
    IssueEffect(w, d, a, false, now, cfg);
    IssueHistory(w, d, a, false, now, cfg);
    IssueGoesOn(w, d, a, now, cfg);
    IssuedRowTells(w.db.drafts[d.id], a, now, cfg);
  }

  // ---- Reconciling ----

  /** The row of an unknown draft after a lookup that found nothing. Below the limit of lookups it stays unknown; with
      the last one it may be created again, or fails when its attempts are used up. */
  predicate MissedAs(row: DraftRow, row': DraftRow, now: Time, cfg: TrialConfig) {
    && row'.amount == row.amount && row'.createdAt == row.createdAt && row'.attempts == row.attempts
    && row'.provider == row.provider
    && (row'.status.DraftUnknown? <==> row.reconciles + 1 < cfg.maxReconciles)
    && (row'.status.DraftFailed? <==> row.reconciles + 1 >= cfg.maxReconciles && row.attempts >= cfg.maxAttempts)
    && (row'.status.DraftPending? <==> row.reconciles + 1 >= cfg.maxReconciles && row.attempts < cfg.maxAttempts)
    && row'.reconciles == (if row'.status.DraftUnknown? then row.reconciles + 1 else 0)
    && row'.nextAttemptAt == (if row'.status.DraftFailed? then now else now + DraftWait(cfg, row))
    && row'.lastError == Some(if row'.status.DraftFailed? then "retry_exhausted" else "reconciliation_not_found")
  }

  predicate FoundAs(row: DraftRow, x: InvoiceId, row': DraftRow) {
    && row'.amount == row.amount && row'.createdAt == row.createdAt && row'.attempts == row.attempts + 1
    && row'.status.DraftCreated? && row'.provider == Some(x) && row'.reconciles == 0
  }

  /** The lookup of an unknown draft that is as its page listed it. An error changes nothing, and ends the pass only
      when it is permanent; an invoice of another tag ends it too. */
  lemma ReconcileLeaves(w: World, d: IS.InvoiceDraft, reply: Lookup, now: Time, cfg: TrialConfig)
    requires ExactIn(w) && Listed(w.db.drafts, d, DraftUnknown)
    ensures var p, row := ReconcileOne(w, d, reply, now, cfg), w.db.drafts[d.id];
            && p.world.remote == w.remote
            && (p.alive <==> reply != LookupRaised(Permanent)
                             && !TakenByAnother(w.db.owned, d.id, FoundIn(reply)))
            && (reply.LookupRaised? ==> p.world == w)
            && (p.alive && !reply.LookupRaised? ==>
                  && d.id in p.world.db.drafts && p.world.db.drafts == w.db.drafts[d.id := p.world.db.drafts[d.id]]
                  && if reply.Found? then FoundAs(row, reply.invoice, p.world.db.drafts[d.id])
                     else MissedAs(row, p.world.db.drafts[d.id], now, cfg))
  {
    assert ExactDraft(w.db.owned, w.db.drafts, d.id);
    ReconcileEffect(w, d, reply, now, cfg);
    if reply.Found? {
      TransitionCommits(w.db, d.id, DraftCreated, Some(reply.invoice), None, now);
    }
  }

  // ---- Which drafts are taken up ----

  /** A page of pending drafts lists a draft of its batch exactly when the draft is pending and its time has come. */
  lemma PendingPageLists(drafts: map<DraftId, DraftRow>, batch: BatchId, now: Time, page: seq<IS.InvoiceDraft>,
                         d: DraftId)
    requires IS.IsPendingPage(drafts, batch, now, page)
    ensures IS.Lists(page, d)
       <==> d in drafts && d.batch == batch && drafts[d].status.DraftPending? && drafts[d].nextAttemptAt <= now
  {
  }

  /** A page of unknown drafts lists none but unknown ones whose time has come; it leaves such a draft out only when
      it is full of drafts that were updated no later. */
  lemma UnknownPageLists(drafts: map<DraftId, DraftRow>, now: Time, limit: nat, page: seq<IS.InvoiceDraft>, d: DraftId)
    requires IS.IsUnknownPage(drafts, now, limit, page)
    ensures IS.Lists(page, d) ==> d in drafts && drafts[d].status.DraftUnknown? && drafts[d].nextAttemptAt <= now
    ensures d in drafts && drafts[d].status.DraftUnknown? && drafts[d].nextAttemptAt <= now && !IS.Lists(page, d) ==>
              |page| == limit && forall i :: 0 <= i < |page| ==>
                page[i].id in drafts && drafts[page[i].id].updatedAt <= drafts[d].updatedAt
  {
  }

  /** How many drafts of a page were found, in other words. */
  lemma {:induction false} FoundCountCounts(page: seq<IS.InvoiceDraft>, replies: DraftId -> Lookup)
    ensures FoundCount(page, replies) == |set i | 0 <= i < |page| && replies(page[i].id).Found?|
  {
    var found := set i | 0 <= i < |page| && replies(page[i].id).Found?;
    if page != [] {
      var before := page[..|page| - 1];
      var earlier := set i | 0 <= i < |before| && replies(before[i].id).Found?;
      FoundCountCounts(before, replies);
      assert found == earlier + if replies(page[|page| - 1].id).Found? then {|page| - 1} else {};
    }
  }

  // ---- Why a draft fails ----

  /** The drafts that a move's answer refuses for good. */
  ghost function RefusedBy(w: World, m: Move): set<DraftId> {
    if m.IssueDraft? && CanMove(w, m) && IsRefused(w.db.drafts[m.draft.id], m.answer) then {m.draft.id} else {}
  }

  ghost function DraftsRefusedIn(s: Service, moves: seq<Move>, cfg: TrialConfig): set<DraftId>
    decreases |moves|
  {
    if moves == [] then {}
    else RefusedBy(s.world, moves[0]) + DraftsRefusedIn(AfterMove(s, moves[0], cfg), moves[1..], cfg)
  }

  ghost predicate FailuresCaused(drafts: map<DraftId, DraftRow>, refused: set<DraftId>, cfg: TrialConfig) {
    forall d :: d in drafts && drafts[d].status.DraftFailed? ==> d in refused || drafts[d].attempts >= cfg.maxAttempts
  }

  lemma CausedIssue(w: World, m: Move, refused: set<DraftId>, cfg: TrialConfig)
    requires m.IssueDraft? && ExactIn(w) && CanMove(w, m)
    requires FailuresCaused(w.db.drafts, refused, cfg) && RefusedBy(w, m) <= refused
    ensures FailuresCaused(MoveWorld(w, m, cfg).db.drafts, refused, cfg)
  {
    var d := m.draft.id;
    var row := IssuedRow(w.db.drafts[d], m.answer, m.at, cfg);
    assert ExactDraft(w.db.owned, w.db.drafts, d);
    IssuedRowTells(w.db.drafts[d], m.answer, m.at, cfg);
    IssuedOrKept(w, m, cfg);
    assert row.status.DraftFailed? ==> d in refused || row.attempts >= cfg.maxAttempts;
  }

  lemma IssuedOrKept(w: World, m: Move, cfg: TrialConfig)
    requires m.IssueDraft? && ExactIn(w) && CanMove(w, m)
    ensures var drafts, drafts' := w.db.drafts, MoveWorld(w, m, cfg).db.drafts;
            drafts' == drafts || drafts' == drafts[m.draft.id := IssuedRow(drafts[m.draft.id], m.answer, m.at, cfg)]
  {
    IssueEffect(w, m.draft, m.answer, m.dies, m.at, cfg);
  }

  lemma CausedDelivery(db: Db, txn: EventTxn, refused: set<DraftId>, cfg: TrialConfig)
    requires Exact(db.owned, db.drafts) && FailuresCaused(db.drafts, refused, cfg)
    ensures FailuresCaused(EventStep(db, txn).drafts, refused, cfg)
  {
    DeliverEffect(db, txn);
  }

  lemma CausedOther(w: World, m: Move, refused: set<DraftId>, cfg: TrialConfig)
    requires !m.IssueDraft? && !m.LookUpDraft? && ExactIn(w) && FailuresCaused(w.db.drafts, refused, cfg)
    ensures FailuresCaused(MoveWorld(w, m, cfg).db.drafts, refused, cfg)
  {
    match m
    case SaveBatch(b, amounts, at) => SaveEffect(w.db, b, amounts, at);
    case OnRuns(txn) => RunFrame(w.db, txn, cfg.maxClaims);
    case OnEvents(txn) => CausedDelivery(w.db, txn, refused, cfg);
    case RegisterSmokeTag(key, at) => SmokeRegisterEffect(w.db, key, at);
    case BindSmoke(key, x, at) => SmokeBindEffect(w.db, key, x, at);
    case _ =>
  }

  lemma CausedMove(w: World, m: Move, refused: set<DraftId>, cfg: TrialConfig)
    requires ExactIn(w) && CanMove(w, m) && FailuresCaused(w.db.drafts, refused, cfg) && RefusedBy(w, m) <= refused
    ensures FailuresCaused(MoveWorld(w, m, cfg).db.drafts, refused, cfg)
  {
    if m.IssueDraft? {
      CausedIssue(w, m, refused, cfg);
    } else if m.LookUpDraft? {
      ReconcileLeaves(w, m.draft, m.reply, m.at, cfg);
      ReconcileEffect(w, m.draft, m.reply, m.at, cfg);
    } else {
      CausedOther(w, m, refused, cfg);
    }
  }

  lemma {:induction false} CausedMoves(s: Service, moves: seq<Move>, refused: set<DraftId>, cfg: TrialConfig)
    requires ExactIn(s.world) && FailuresCaused(s.world.db.drafts, refused, cfg)
    requires DraftsRefusedIn(s, moves, cfg) <= refused
    ensures FailuresCaused(RunMoves(s, moves, cfg).world.db.drafts, refused, cfg)
    decreases |moves|
  {
    if moves != [] {
      if CanMove(s.world, moves[0]) {
        KeptMove(s.world, moves[0], cfg);
        CausedMove(s.world, moves[0], refused, cfg);
      }
      CausedMoves(AfterMove(s, moves[0], cfg), moves[1..], refused, cfg);
    }
  }

  /** Over any run of the services' moves, a failed draft was refused for good by the provider at some point of the
      run, or used up its attempts. */
  lemma DraftFailsForCause(moves: seq<Move>, cfg: TrialConfig, d: DraftId)
    requires var drafts := RunMoves(FRESH_SERVICE, moves, cfg).world.db.drafts;
             d in drafts && drafts[d].status.DraftFailed?
    ensures d in DraftsRefusedIn(FRESH_SERVICE, moves, cfg)
            || RunMoves(FRESH_SERVICE, moves, cfg).world.db.drafts[d].attempts >= cfg.maxAttempts
  {
    CausedMoves(FRESH_SERVICE, moves, DraftsRefusedIn(FRESH_SERVICE, moves, cfg), cfg);
  }
}
