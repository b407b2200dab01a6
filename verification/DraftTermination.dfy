/** Every draft ends: its create calls, its fruitless lookups and its stored answers are bounded, and each
    stored answer brings it closer to an end. */
module DraftTermination {
  import opened Domain
  import opened Tables
  import opened Transactions
  import opened InvoiceProvider
  import opened TrialService
  import opened DraftProtocol
  import opened ServiceMoves
  import IS = InvoiceStore

  function Phase(row: DraftRow): nat {
    if row.status.DraftUnknown? then 1 else 0
  }

  /** Closer to the end: by attempts first, then by phase, then by the reconciler's lookups. */
  predicate Descends(row: DraftRow, row': DraftRow) {
    || row'.attempts > row.attempts
    || (row'.attempts == row.attempts && Phase(row') < Phase(row))
    || (row'.attempts == row.attempts && Phase(row') == Phase(row) && row'.reconciles > row.reconciles)
  }

  /** How many more answers a draft can take: a round of R + 1 for each attempt left, and in an unknown draft the
      rest of its round. */
  function Rank(row: DraftRow, cfg: TrialConfig): int {
    match row.status
    case DraftPending => (cfg.maxAttempts - row.attempts) * (cfg.maxReconciles + 1)
    case DraftUnknown => (cfg.maxAttempts - row.attempts) * (cfg.maxReconciles + 1) + cfg.maxReconciles - row.reconciles
    case _ => 0
  }

  /** The most fruitless lookups a draft can have behind it. */
  function MissesAllowed(row: DraftRow, cfg: TrialConfig): int {
    match row.status
    case DraftPending => cfg.maxReconciles * row.attempts
    case DraftUnknown => cfg.maxReconciles * (row.attempts - 1) + row.reconciles
    case _ => cfg.maxReconciles * cfg.maxAttempts
  }

  predicate WithinBounds(row: DraftRow, t: Tally, cfg: TrialConfig) {
    && row.attempts <= cfg.maxAttempts + (if row.status.DraftCreated? then 1 else 0)
    && (row.status.DraftPending? ==> row.attempts < cfg.maxAttempts && row.reconciles == 0)
    && (row.status.DraftUnknown? ==> row.attempts >= 1 && row.reconciles < cfg.maxReconciles)
    && t.creates <= row.attempts + t.unrecorded && t.creates <= cfg.maxAttempts + t.unrecorded
    && t.misses <= MissesAllowed(row, cfg)
    && t.answers + Rank(row, cfg) <= cfg.maxAttempts * (cfg.maxReconciles + 1)
  }

  /** A draft has ended exactly when it can take no more answers. */
  lemma RankZeroIsTerminal(row: DraftRow, t: Tally, cfg: TrialConfig)
    requires ValidTrialConfig(cfg) && WithinBounds(row, t, cfg)
    ensures Rank(row, cfg) >= 0
    ensures Rank(row, cfg) == 0 <==> row.status.DraftCreated? || row.status.DraftFailed?
    ensures row.status.DraftPending? ==> Rank(row, cfg) >= cfg.maxReconciles + 1
  {
    var left := cfg.maxAttempts - row.attempts;
    if row.status.DraftPending? {
      Monotone(1, left, cfg.maxReconciles + 1);
    } else if row.status.DraftUnknown? {
      Monotone(0, left, cfg.maxReconciles + 1);
    }
  }

  lemma Monotone(a: int, b: int, k: int)
    requires a <= b && k >= 0
    ensures a * k <= b * k
  {
  }

  /** One more attempt costs a whole round of answers and allows a whole round of lookups. */
  lemma OneMoreAttempt(attempts: nat, cfg: TrialConfig)
    ensures (cfg.maxAttempts - attempts - 1) * (cfg.maxReconciles + 1)
         == (cfg.maxAttempts - attempts) * (cfg.maxReconciles + 1) - (cfg.maxReconciles + 1)
    ensures cfg.maxReconciles * (attempts + 1) == cfg.maxReconciles * attempts + cfg.maxReconciles
  {
  }

  lemma IssuedWithinBounds(row: DraftRow, t: Tally, a: Answer, now: Time, cfg: TrialConfig)
    requires ValidTrialConfig(cfg) && WithinBounds(row, t, cfg) && row.status.DraftPending?
    ensures var row' := IssuedRow(row, a, now, cfg);
            var creates := if row.attempts > 0 && !a.lookup.NotFound? then t.creates else t.creates + 1;
            WithinBounds(row', t.(creates := creates, answers := t.answers + 1), cfg) && Descends(row, row')
  {
    OneMoreAttempt(row.attempts, cfg);
    Monotone(row.attempts, cfg.maxAttempts, cfg.maxReconciles);
    Monotone(1, cfg.maxAttempts - row.attempts, cfg.maxReconciles + 1);
  }

  lemma ReconciledWithinBounds(row: DraftRow, t: Tally, reply: Lookup, now: Time, cfg: TrialConfig)
    requires ValidTrialConfig(cfg) && WithinBounds(row, t, cfg) && row.status.DraftUnknown? && !reply.LookupRaised?
    ensures var row' := ReconciledRow(row, reply, now, cfg);
            var misses := t.misses + if reply.NotFound? then 1 else 0;
            WithinBounds(row', t.(misses := misses, answers := t.answers + 1), cfg) && Descends(row, row')
  {
    OneMoreAttempt(row.attempts - 1, cfg);
    Monotone(row.attempts, cfg.maxAttempts, cfg.maxReconciles);
    Monotone(0, cfg.maxAttempts - row.attempts, cfg.maxReconciles + 1);
  }

  /** The slowest answer: a create that times out, or a lookup that finds nothing. */
  function Slowest(row: DraftRow, now: Time, cfg: TrialConfig): DraftRow {
    match row.status
    case DraftPending => IssuedRow(row, Answer(NotFound, Creation(None, CreateRaised(TimedOut))), now, cfg)
    case DraftUnknown => ReconciledRow(row, NotFound, now, cfg)
    case _ => row
  }

  /** It uses up exactly one of the answers a draft can take. */
  lemma SlowestUsesOne(row: DraftRow, t: Tally, now: Time, cfg: TrialConfig)
    requires ValidTrialConfig(cfg) && WithinBounds(row, t, cfg) && Rank(row, cfg) > 0
    ensures Rank(Slowest(row, now, cfg), cfg) == Rank(row, cfg) - 1
    ensures exists t' :: WithinBounds(Slowest(row, now, cfg), t', cfg)
  {
    OneMoreAttempt(row.attempts, cfg);
    if row.status.DraftPending? {
      var a := Answer(NotFound, Creation(None, CreateRaised(TimedOut)));
      IssuedWithinBounds(row, t, a, now, cfg);
    } else {
      ReconciledWithinBounds(row, t, NotFound, now, cfg);
    }
  }

  function SlowestRun(row: DraftRow, n: nat, now: Time, cfg: TrialConfig): DraftRow
    decreases n
  {
    if n == 0 then row else SlowestRun(Slowest(row, now, cfg), n - 1, now, cfg)
  }

  lemma {:induction false} SlowestRunRank(row: DraftRow, t: Tally, n: nat, now: Time, cfg: TrialConfig)
    requires ValidTrialConfig(cfg) && WithinBounds(row, t, cfg) && n <= Rank(row, cfg)
    ensures Rank(SlowestRun(row, n, now, cfg), cfg) == Rank(row, cfg) - n
    ensures exists t' :: WithinBounds(SlowestRun(row, n, now, cfg), t', cfg)
    decreases n
  {
    if n > 0 {
      SlowestUsesOne(row, t, now, cfg);
      var t' :| WithinBounds(Slowest(row, now, cfg), t', cfg);
      SlowestRunRank(Slowest(row, now, cfg), t', n - 1, now, cfg);
    }
  }

  /** The bound is met: under the slowest answers a new draft ends with the M * (R + 1)-th answer and not before. */
  lemma SlowestDraftEnds(amount: Cents, at: Time, n: nat, now: Time, cfg: TrialConfig)
    requires ValidTrialConfig(cfg) && n <= cfg.maxAttempts * (cfg.maxReconciles + 1)
    ensures var status := SlowestRun(IS.NewDraft(amount, at), n, now, cfg).status;
            status.DraftCreated? || status.DraftFailed? <==> n == cfg.maxAttempts * (cfg.maxReconciles + 1)
  {
    var row := IS.NewDraft(amount, at);
    SlowestRunRank(row, NO_TALLY, n, now, cfg);
    var t :| WithinBounds(SlowestRun(row, n, now, cfg), t, cfg);
    RankZeroIsTerminal(SlowestRun(row, n, now, cfg), t, cfg);
  }

  /** A credit ends the draft as created, wherever it was. */
  lemma CreditedWithinBounds(row: DraftRow, t: Tally, x: InvoiceId, at: Time, cfg: TrialConfig)
    requires ValidTrialConfig(cfg) && WithinBounds(row, t, cfg)
    ensures WithinBounds(row.(provider := Some(x), status := DraftCreated, updatedAt := at), t, cfg)
  {
    RankZeroIsTerminal(row, t, cfg);
    if !row.status.DraftCreated? {
      Monotone(row.attempts, cfg.maxAttempts, cfg.maxReconciles);
    }
    if row.status.DraftUnknown? {
      OneMoreAttempt(row.attempts - 1, cfg);
    }
  }

  // ---- Runs ----

  ghost predicate DraftBounded(drafts: map<DraftId, DraftRow>, tallies: map<DraftId, Tally>, d: DraftId,
                               cfg: TrialConfig)
  {
    if d in drafts then WithinBounds(drafts[d], TallyOf(tallies, d), cfg) else TallyOf(tallies, d) == NO_TALLY
  }

  ghost predicate Bounded(w: World, cfg: TrialConfig) {
    forall d :: DraftBounded(w.db.drafts, w.tallies, d, cfg)
  }

  /** One draft's row and history changed, within bounds. */
  lemma BoundedWrite(w: World, w': World, d: DraftId, row: DraftRow, t: Tally, cfg: TrialConfig)
    requires Bounded(w, cfg) && w'.db.drafts == w.db.drafts[d := row] && w'.tallies == w.tallies[d := t]
    requires WithinBounds(row, t, cfg)
    ensures Bounded(w', cfg)
  {
    forall e ensures DraftBounded(w'.db.drafts, w'.tallies, e, cfg) {
      assert DraftBounded(w.db.drafts, w.tallies, e, cfg);
    }
  }

  lemma BoundedIssue(w: World, d: IS.InvoiceDraft, a: Answer, dies: bool, now: Time, cfg: TrialConfig)
    requires ValidTrialConfig(cfg) && ExactIn(w) && Bounded(w, cfg) && Listed(w.db.drafts, d, DraftPending)
    ensures var p := Issue(w, d, a, dies, now, cfg);
            Bounded(p.world, cfg)
              && (p.alive ==> d.id in p.world.db.drafts && Descends(w.db.drafts[d.id], p.world.db.drafts[d.id]))
  {
    var p, t, row := Issue(w, d, a, dies, now, cfg), TallyOf(w.tallies, d.id), w.db.drafts[d.id];
    IssueEffect(w, d, a, dies, now, cfg);
    IssueHistory(w, d, a, dies, now, cfg);
    assert DraftBounded(w.db.drafts, w.tallies, d.id, cfg);
    IssuedWithinBounds(row, t, a, now, cfg);
    if p.alive {
      BoundedWrite(w, p.world, d.id, IssuedRow(row, a, now, cfg), TallyOf(p.world.tallies, d.id), cfg);
    } else if !SettledByLookup(d, a) {
      assert w.db.drafts[d.id := row] == w.db.drafts;
      BoundedWrite(w, p.world, d.id, row, TallyOf(p.world.tallies, d.id), cfg);
    }
  }

  lemma BoundedReconcile(w: World, d: IS.InvoiceDraft, reply: Lookup, now: Time, cfg: TrialConfig)
    requires ValidTrialConfig(cfg) && ExactIn(w) && Bounded(w, cfg) && Listed(w.db.drafts, d, DraftUnknown)
    ensures var p := ReconcileOne(w, d, reply, now, cfg);
            Bounded(p.world, cfg)
            && (p.alive && !reply.LookupRaised? ==>
                  d.id in p.world.db.drafts && Descends(w.db.drafts[d.id], p.world.db.drafts[d.id]))
  {
    var p, t, row := ReconcileOne(w, d, reply, now, cfg), TallyOf(w.tallies, d.id), w.db.drafts[d.id];
    ReconcileEffect(w, d, reply, now, cfg);
    assert DraftBounded(w.db.drafts, w.tallies, d.id, cfg);
    if p.alive && !reply.LookupRaised? {
      ReconciledWithinBounds(row, t, reply, now, cfg);
      BoundedWrite(w, p.world, d.id, ReconciledRow(row, reply, now, cfg), TallyOf(p.world.tallies, d.id), cfg);
    }
  }

  lemma BoundedSave(w: World, w': World, batch: BatchId, n: nat, cfg: TrialConfig)
    requires ValidTrialConfig(cfg) && Bounded(w, cfg) && SavedDrafts(w.db.drafts, w'.db.drafts, batch, n)
    requires w'.tallies == w.tallies
    ensures Bounded(w', cfg)
  {
    forall d ensures DraftBounded(w'.db.drafts, w'.tallies, d, cfg) {
      assert DraftBounded(w.db.drafts, w.tallies, d, cfg);
    }
  }

  lemma BoundedDeliver(w: World, w': World, txn: EventTxn, cfg: TrialConfig)
    requires ValidTrialConfig(cfg) && ExactIn(w) && Bounded(w, cfg)
    requires w'.db == EventStep(w.db, txn) && w'.tallies == w.tallies
    ensures Bounded(w', cfg)
  {
    DeliverEffect(w.db, txn);
    if w'.db.drafts != w.db.drafts {
      var t :| CreditsTag(w.db, w'.db, txn, t);
      assert DraftBounded(w.db.drafts, w.tallies, t.draft, cfg);
      CreditedWithinBounds(w.db.drafts[t.draft], TallyOf(w.tallies, t.draft), txn.event.invoice, txn.at, cfg);
    }
    forall d ensures DraftBounded(w'.db.drafts, w'.tallies, d, cfg) {
      assert DraftBounded(w.db.drafts, w.tallies, d, cfg);
    }
  }

  lemma BoundedMove(w: World, m: Move, cfg: TrialConfig)
    requires ValidTrialConfig(cfg) && ExactIn(w) && Bounded(w, cfg) && CanMove(w, m)
    ensures Bounded(MoveWorld(w, m, cfg), cfg)
  {
    var w' := MoveWorld(w, m, cfg);
    match m
    case IssueDraft(d, a, dies, at) => BoundedIssue(w, d, a, dies, at, cfg);
    case LookUpDraft(d, reply, at) => BoundedReconcile(w, d, reply, at, cfg);
    case SaveBatch(b, amounts, at) =>
      SaveEffect(w.db, b, amounts, at);
      BoundedSave(w, w', b, |amounts|, cfg);
    case OnRuns(txn) =>
      RunFrame(w.db, txn, cfg.maxClaims);
      assert w'.db.drafts == w.db.drafts;
    case OnEvents(txn) => BoundedDeliver(w, w', txn, cfg);
    case BindSmoke(key, x, at) => SmokeBindEffect(w.db, key, x, at);
    case _ =>
  }

  /** Over any run from the start, whatever the provider answers: a draft has at most M attempts, one more
      when it is created; at most M create calls besides those whose result was never stored; at most M * R
      lookups of the reconciler that found nothing; and after M * (R + 1) stored answers it has ended. */
  lemma {:induction false} BoundedRun(s: Service, moves: seq<Move>, cfg: TrialConfig)
    requires ValidTrialConfig(cfg) && ExactIn(s.world) && Bounded(s.world, cfg)
    ensures var s' := RunMoves(s, moves, cfg); ExactIn(s'.world) && Bounded(s'.world, cfg)
    decreases |moves|
  {
    if moves != [] {
      if CanMove(s.world, moves[0]) {
        KeptMove(s.world, moves[0], cfg);
        BoundedMove(s.world, moves[0], cfg);
      }
      BoundedRun(AfterMove(s, moves[0], cfg), moves[1..], cfg);
    }
  }

  ghost predicate DraftEnds(row: DraftRow, t: Tally, cfg: TrialConfig) {
    && row.attempts <= cfg.maxAttempts + (if row.status.DraftCreated? then 1 else 0)
    && t.creates <= cfg.maxAttempts + t.unrecorded
    && t.misses <= cfg.maxAttempts * cfg.maxReconciles
    && t.answers + Rank(row, cfg) <= cfg.maxAttempts * (cfg.maxReconciles + 1) && Rank(row, cfg) >= 0
    && (Rank(row, cfg) == 0 <==> row.status.DraftCreated? || row.status.DraftFailed?)
    && t.answers <= cfg.maxAttempts * (cfg.maxReconciles + 1)
    && (t.answers == cfg.maxAttempts * (cfg.maxReconciles + 1) ==> row.status.DraftCreated? || row.status.DraftFailed?)
  }

  lemma DraftsEnd(moves: seq<Move>, cfg: TrialConfig, d: DraftId)
    requires ValidTrialConfig(cfg)
    ensures var w := RunMoves(FRESH_SERVICE, moves, cfg).world;
            d in w.db.drafts ==> DraftEnds(w.db.drafts[d], TallyOf(w.tallies, d), cfg)
  {
    BoundedRun(FRESH_SERVICE, moves, cfg);
    var w := RunMoves(FRESH_SERVICE, moves, cfg).world;
    assert DraftBounded(w.db.drafts, w.tallies, d, cfg);
    if d in w.db.drafts {
      var row := w.db.drafts[d];
      RankZeroIsTerminal(row, TallyOf(w.tallies, d), cfg);
      CreditedWithinBounds(row, TallyOf(w.tallies, d), InvoiceId(""), 0, cfg);
    }
  }

  /** One attempt more than the maximum is met: for every pending draft before its last attempt, a create that
      times out and whose invoice the reconciler then finds. */
  lemma LastAttemptFound(w: World, d: IS.InvoiceDraft, a: Answer, now: Time, x: InvoiceId, later: Time,
                         cfg: TrialConfig)
    requires ExactIn(w) && Listed(w.db.drafts, d, DraftPending) && d.attempts + 1 == cfg.maxAttempts
    requires !SettledByLookup(d, a)
    requires a.creation.reply.CreateRaised? && a.creation.reply.error.TimesOut()
    requires !IS.InvoiceTaken(w.db.owned, TrialTag(d.id), x)
    ensures var w1 := Issue(w, d, a, false, now, cfg).world;
            var seen := IS.InvoiceDraft(d.id, d.attempts + 1);
            var p := ReconcileOne(w1, seen, Found(x), later, cfg);
            Listed(w1.db.drafts, seen, DraftUnknown) && p.alive && d.id in p.world.db.drafts
            && p.world.db.drafts[d.id].status.DraftCreated? && p.world.db.drafts[d.id].attempts == cfg.maxAttempts + 1
  {
    var w1 := Issue(w, d, a, false, now, cfg).world;
    IssueEffect(w, d, a, false, now, cfg);
    StaysFree(w.db.owned, w1.db.owned, TrialTag(d.id), None, TrialTag(d.id), x);
    ReconcileEffect(w1, IS.InvoiceDraft(d.id, d.attempts + 1), Found(x), later, cfg);
  }
}
