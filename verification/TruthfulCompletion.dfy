/** A completed batch has all its drafts created, a completed run all its batches completed, for good. */
module TruthfulCompletion {
  import opened Domain
  import opened Tables
  import opened Collections
  import opened Transactions
  import opened RunInvariants
  import opened TrialService
  import opened DraftProtocol
  import opened ServiceMoves
  import opened InvoiceProvider
  import opened TagPayouts
  import ES = EventStore
  import IS = InvoiceStore
  import RS = TrialStore

  /** The draft's batch exists and its ordinal is below the batch's target. */
  ghost predicate Placed(batches: map<BatchId, BatchRow>, d: DraftId) {
    d.batch in batches && 0 <= d.ordinal < batches[d.batch].target
  }

  function CreatedOf(drafts: map<DraftId, DraftRow>, b: BatchId): set<DraftId> {
    IS.OfBatch(drafts, b, DraftCreated)
  }

  ghost predicate Full(drafts: map<DraftId, DraftRow>, b: BatchId, row: BatchRow) {
    row.status.BatchCompleted? ==> |CreatedOf(drafts, b)| == row.target
  }

  ghost predicate Truthful(drafts: map<DraftId, DraftRow>, batches: map<BatchId, BatchRow>, runs: map<RunId, RunRow>) {
    && (forall d :: d in drafts ==> Placed(batches, d))
    && (forall b :: b in batches ==> Full(drafts, b, batches[b]))
    && (forall r :: r in runs && runs[r].status.RunCompleted? ==> IS.AllCompleted(batches, r))
  }

  /** Batches stay with their target, and completed ones stay completed. */
  ghost predicate BatchesKept(batches: map<BatchId, BatchRow>, batches': map<BatchId, BatchRow>) {
    forall b :: b in batches ==>
      b in batches' && batches'[b].target == batches[b].target
      && (batches[b].status.BatchCompleted? ==> batches'[b].status.BatchCompleted?)
  }

  /** A batch has at most as many drafts as its target. */
  lemma CreatedAtMostTarget(drafts: map<DraftId, DraftRow>, batches: map<BatchId, BatchRow>, b: BatchId)
    requires b in batches && forall d :: d in drafts ==> Placed(batches, d)
    ensures |CreatedOf(drafts, b)| <= batches[b].target
  {
    OrdinalsBound(CreatedOf(drafts, b), b, batches[b].target);
  }

  lemma {:induction false} OrdinalsBound(ds: set<DraftId>, b: BatchId, n: nat)
    requires forall d :: d in ds ==> d.batch == b && 0 <= d.ordinal < n
    ensures |ds| <= n
    decreases n
  {
    if n == 0 {
      assert ds == {};
    } else {
      var last := DraftId(b, n - 1);
      assert |ds| <= |ds - {last}| + 1;
      OrdinalsBound(ds - {last}, b, n - 1);
    }
  }

  /** New or changed drafts, the created ones staying created, leave a completed batch full. */
  lemma TruthfulDrafts(drafts: map<DraftId, DraftRow>, drafts': map<DraftId, DraftRow>, batches: map<BatchId, BatchRow>,
                       runs: map<RunId, RunRow>)
    requires Truthful(drafts, batches, runs) && DraftsKept(drafts, drafts')
    requires forall d :: d in drafts' ==> Placed(batches, d)
    ensures Truthful(drafts', batches, runs)
  {
    forall b | b in batches ensures Full(drafts', b, batches[b]) {
      assert Full(drafts, b, batches[b]);
      SubsetSize(CreatedOf(drafts, b), CreatedOf(drafts', b));
      CreatedAtMostTarget(drafts', batches, b);
    }
  }

  /** Only a settlement that counts a full batch completes it. */
  lemma TruthfulSettle(db: Db, batch: BatchId, at: Time)
    requires Truthful(db.drafts, db.batches, db.runs)
    ensures var db' := After(db, IS.Settle(db, batch, at));
            Truthful(db'.drafts, db'.batches, db'.runs) && BatchesKept(db.batches, db'.batches)
  {
    if batch in db.batches {
      var db' := After(db, IS.Settle(db, batch, at));
      assert Full(db.drafts, batch, db.batches[batch]);
      forall b | b in db'.batches ensures Full(db'.drafts, b, db'.batches[b]) {
        assert b != batch ==> Full(db.drafts, b, db.batches[b]);
      }
      forall r | r in db'.runs && db'.runs[r].status.RunCompleted? ensures IS.AllCompleted(db'.batches, r) {
        assert r != batch.run ==> IS.AllCompleted(db.batches, r);
        assert db.runs[r].status.RunCompleted? ==> IS.AllCompleted(db.batches, r);
      }
    }
  }

  /** Batches that are new for their run, or change without completing, or stay. */
  lemma TruthfulBatches(drafts: map<DraftId, DraftRow>, batches: map<BatchId, BatchRow>,
                        batches': map<BatchId, BatchRow>, runs: map<RunId, RunRow>, runs': map<RunId, RunRow>)
    requires Truthful(drafts, batches, runs) && BatchesKept(batches, batches')
    requires forall b :: b in batches' && batches'[b].status.BatchCompleted? ==>
               b in batches && batches[b].status.BatchCompleted?
    requires forall b :: b in batches' && b !in batches ==> b.run !in runs
    requires forall r :: r in runs' && runs'[r].status.RunCompleted? ==> r in runs && runs[r].status.RunCompleted?
    ensures Truthful(drafts, batches', runs')
  {
    forall b | b in batches' ensures Full(drafts, b, batches'[b]) {
      assert b in batches ==> Full(drafts, b, batches[b]);
    }
    forall r | r in runs' && runs'[r].status.RunCompleted? ensures IS.AllCompleted(batches', r) {
      assert IS.AllCompleted(batches, r);
    }
  }

  lemma TruthfulRuns(db: Db, txn: RunTxn, maxClaims: int)
    requires Truthful(db.drafts, db.batches, db.runs)
    ensures var db' := RunStep(db, txn, maxClaims);
            Truthful(db'.drafts, db'.batches, db'.runs) && BatchesKept(db.batches, db'.batches)
  {
    match txn
    case SettleBatch(batch, at) => TruthfulSettle(db, batch, at);
    case StartRun(run, start, counts) =>
      if RS.BuildSchedule(start, counts).Some? {
        TruthfulCreate(db, run, start, RS.BuildSchedule(start, counts).value);
      }
    case LeaseBatch(b, at, leaseUntil) =>
      if b in db.batches && RS.BatchClaimable(db.batches[b], at, maxClaims) {
        TruthfulLease(db, b, at, leaseUntil, maxClaims);
      }
    case DegradeBatches(at) => TruthfulDegrade(db, at, maxClaims);
  }

  lemma TruthfulLease(db: Db, b: BatchId, at: Time, leaseUntil: Time, maxClaims: int)
    requires Truthful(db.drafts, db.batches, db.runs) && b in db.batches
    requires RS.BatchClaimable(db.batches[b], at, maxClaims)
    ensures var db' := RS.ClaimBatch(db, b, leaseUntil);
            Truthful(db'.drafts, db'.batches, db'.runs) && BatchesKept(db.batches, db'.batches)
  {
    var batches' := RS.ClaimBatch(db, b, leaseUntil).batches;
    TruthfulBatches(db.drafts, db.batches, batches', db.runs, db.runs);
  }

  lemma TruthfulDegrade(db: Db, at: Time, maxClaims: int)
    requires Truthful(db.drafts, db.batches, db.runs)
    ensures var db' := RS.DegradeExhausted(db, at, maxClaims);
            Truthful(db'.drafts, db'.batches, db'.runs) && BatchesKept(db.batches, db'.batches)
  {
    if RS.AnyExhausted(db.batches, at, maxClaims) {
      var batches' := RS.DegradedBatches(db.batches, at, maxClaims);
      var runs' := RS.DegradedRuns(batches', db.runs);
      forall r | r in runs' && runs'[r].status.RunCompleted? ensures db.runs[r].status.RunCompleted? {
        assert !RS.HasDegraded(batches', r);
      }
      TruthfulBatches(db.drafts, db.batches, batches', db.runs, runs');
    }
  }

  lemma TruthfulCreate(db: Db, run: RunId, start: Time, schedule: seq<RS.Slot>)
    requires Truthful(db.drafts, db.batches, db.runs) && RS.ValidSchedule(schedule)
    ensures var db' := After(db, RS.CreateRun(db, run, start, schedule));
            Truthful(db'.drafts, db'.batches, db'.runs) && BatchesKept(db.batches, db'.batches)
  {
    if !RS.RunRefused(db, run, schedule) {
      SlotBatchesAt(run, schedule);
      var db' := After(db, RS.CreateRun(db, run, start, schedule));
      forall b | b in db.batches ensures db'.batches[b] == db.batches[b] {
        assert b == BatchId(b.run, b.slot);
      }
      TruthfulBatches(db.drafts, db.batches, db'.batches, db.runs, db'.runs);
    }
  }

  // ---- Runs of the services ----

  ghost predicate CompletionOk(w: World, cfg: TrialConfig) {
    && ExactIn(w)
    && RunsOk(w.db.batches, w.db.runs, cfg.maxClaims)
    && Truthful(w.db.drafts, w.db.batches, w.db.runs)
  }

  /** Created drafts and completed batches stay so. */
  ghost predicate StatusesKept(w: World, w': World) {
    DraftsKept(w.db.drafts, w'.db.drafts) && BatchesKept(w.db.batches, w'.db.batches)
  }

  lemma MovesAreOnPlacedDrafts(w: World, m: Move, cfg: TrialConfig)
    requires ExactIn(w) && CanMove(w, m) && !m.OnRuns?
    requires forall d :: d in w.db.drafts ==> Placed(w.db.batches, d)
    ensures var db' := MoveWorld(w, m, cfg).db;
            db'.batches == w.db.batches && db'.runs == w.db.runs && forall d :: d in db'.drafts ==>
              Placed(w.db.batches, d)
  {
    match m
    case IssueDraft(d, a, dies, at) => IssueEffect(w, d, a, dies, at, cfg);
    case LookUpDraft(d, reply, at) => ReconcileEffect(w, d, reply, at, cfg);
    case SaveBatch(b, amounts, at) => SaveEffect(w.db, b, amounts, at);
    case OnEvents(txn) =>
      EventFrame(w.db, txn);
      DeliverEffect(w.db, txn);
    case BindSmoke(key, x, at) => SmokeBindEffect(w.db, key, x, at);
    case _ =>
  }

  lemma CompletionMove(w: World, m: Move, cfg: TrialConfig)
    requires CompletionOk(w, cfg) && ValidTrialConfig(cfg) && CanMove(w, m)
    ensures CompletionOk(MoveWorld(w, m, cfg), cfg) && StatusesKept(w, MoveWorld(w, m, cfg))
  {
    KeptMove(w, m, cfg);
    if m.OnRuns? {
      RunFrame(w.db, m.run, cfg.maxClaims);
      RunsRuns(w.db, m.run, cfg.maxClaims);
      TruthfulRuns(w.db, m.run, cfg.maxClaims);
    } else {
      MovesAreOnPlacedDrafts(w, m, cfg);
      TruthfulDrafts(w.db.drafts, MoveWorld(w, m, cfg).db.drafts, w.db.batches, w.db.runs);
    }
  }

  /** Over any run of the services, created drafts and completed batches never change status. */
  lemma {:induction false} CompletionRun(s: Service, moves: seq<Move>, cfg: TrialConfig)
    requires CompletionOk(s.world, cfg) && ValidTrialConfig(cfg)
    ensures var s' := RunMoves(s, moves, cfg); CompletionOk(s'.world, cfg) && StatusesKept(s.world, s'.world)
    decreases |moves|
  {
    if moves != [] {
      if CanMove(s.world, moves[0]) {
        CompletionMove(s.world, moves[0], cfg);
      }
      var s' := AfterMove(s, moves[0], cfg);
      CompletionRun(s', moves[1..], cfg);
      assert StatusesKept(s.world, s'.world);
    }
  }

  // ---- What a completed run says ----

  function CreatedOfRun(drafts: map<DraftId, DraftRow>, r: RunId, n: nat): set<DraftId> {
    set d | d in drafts && d.batch.run == r && 0 <= d.batch.slot < n && drafts[d].status.DraftCreated?
  }

  function TargetSum(batches: map<BatchId, BatchRow>, r: RunId, n: nat): int
    requires forall i :: 0 <= i < n ==> BatchId(r, i) in batches
  {
    if n == 0 then 0 else TargetSum(batches, r, n - 1) + batches[BatchId(r, n - 1)].target
  }

  /** The drafts of one more slot. */
  lemma CreatedInSlot(drafts: map<DraftId, DraftRow>, r: RunId, n: nat)
    requires n > 0
    ensures |CreatedOfRun(drafts, r, n)| == |CreatedOfRun(drafts, r, n - 1)| + |CreatedOf(drafts, BatchId(r, n - 1))|
  {
    var before, slot := CreatedOfRun(drafts, r, n - 1), CreatedOf(drafts, BatchId(r, n - 1));
    assert CreatedOfRun(drafts, r, n) == before + slot;
    assert before !! slot;
  }

  ghost predicate SlotFull(drafts: map<DraftId, DraftRow>, batches: map<BatchId, BatchRow>, b: BatchId) {
    && b in batches && |CreatedOf(drafts, b)| == batches[b].target
    && RS.MIN_BATCH_SIZE <= batches[b].target <= RS.MAX_BATCH_SIZE
  }

  lemma {:induction false} CreatedSum(drafts: map<DraftId, DraftRow>, batches: map<BatchId, BatchRow>, r: RunId, n: nat)
    requires forall i :: 0 <= i < n ==> BatchId(r, i) in batches && SlotFull(drafts, batches, BatchId(r, i))
    ensures |CreatedOfRun(drafts, r, n)| == TargetSum(batches, r, n)
    ensures n * RS.MIN_BATCH_SIZE <= TargetSum(batches, r, n) <= n * RS.MAX_BATCH_SIZE
  {
    if n == 0 {
      assert CreatedOfRun(drafts, r, 0) == {};
    } else {
      CreatedSum(drafts, batches, r, n - 1);
      assert SlotFull(drafts, batches, BatchId(r, n - 1));
      CreatedInSlot(drafts, r, n);
    }
  }

  /** A run marked completed has eight completed batches, and its created drafts number exactly the sum of
      their targets, from 64 to 96. */
  ghost predicate TrulyCompleted(db: Db, r: RunId) {
    && (forall i :: 0 <= i < RS.SLOT_COUNT ==>
          BatchId(r, i) in db.batches && db.batches[BatchId(r, i)].status.BatchCompleted?)
    && (forall b :: b in db.batches && b.run == r ==> 0 <= b.slot < RS.SLOT_COUNT)
    && var created := set d | d in db.drafts && d.batch.run == r && db.drafts[d].status.DraftCreated?;
       |created| == TargetSum(db.batches, r, RS.SLOT_COUNT) && 64 <= |created| <= 96
  }

  lemma CompletedRunsAreTrue(moves: seq<Move>, cfg: TrialConfig, r: RunId)
    requires ValidTrialConfig(cfg)
    ensures var db := RunMoves(FRESH_SERVICE, moves, cfg).world.db;
            r in db.runs && db.runs[r].status.RunCompleted? ==> TrulyCompleted(db, r)
  {
    CompletionRun(FRESH_SERVICE, moves, cfg);
    var w := RunMoves(FRESH_SERVICE, moves, cfg).world;
    if r in w.db.runs && w.db.runs[r].status.RunCompleted? {
      CompletedRun(w, r, cfg);
    }
  }

  lemma CompletedRun(w: World, r: RunId, cfg: TrialConfig)
    requires CompletionOk(w, cfg) && r in w.db.runs && w.db.runs[r].status.RunCompleted?
    ensures TrulyCompleted(w.db, r)
  {
    assert HasSlots(w.db.batches, r);
    forall i | 0 <= i < RS.SLOT_COUNT ensures SlotFull(w.db.drafts, w.db.batches, BatchId(r, i)) {
      var b := BatchId(r, i);
      assert Full(w.db.drafts, b, w.db.batches[b]) && BatchOk(w.db.runs, b, w.db.batches[b], cfg.maxClaims);
    }
    CreatedSum(w.db.drafts, w.db.batches, r, RS.SLOT_COUNT);
    var created := set d | d in w.db.drafts && d.batch.run == r && w.db.drafts[d].status.DraftCreated?;
    forall d | d in created ensures d in CreatedOfRun(w.db.drafts, r, RS.SLOT_COUNT) {
      assert Placed(w.db.batches, d) && BatchOk(w.db.runs, d.batch, w.db.batches[d.batch], cfg.maxClaims);
    }
    assert created == CreatedOfRun(w.db.drafts, r, RS.SLOT_COUNT);
    forall b | b in w.db.batches && b.run == r ensures 0 <= b.slot < RS.SLOT_COUNT {
      assert BatchOk(w.db.runs, b, w.db.batches[b], cfg.maxClaims);
    }
  }

  // ---- Degraded is not final ----

  /** Attribution of a fresh credit goes to its tag alone. */
  lemma CreditsItsTag(db: Db, credit: EventTxn, tag: Tag)
    requires Exact(db.owned, db.drafts) && FreshCredit(db, credit, tag)
    ensures var db' := EventStep(db, credit);
            && Exact(db'.owned, db'.drafts) && ES.Bound(db'.owned, tag, credit.event.invoice)
            && ((db'.owned == db.owned && db'.drafts == db.drafts)
                || (BindsAtMost(db.owned, db'.owned, tag, Some(credit.event.invoice))
                    && CreditsDraft(db.drafts, db'.drafts, tag, credit.event.invoice, credit.at)))
  {
    var db' := EventStep(db, credit);
    DeliverEffect(db, credit);
    FreshCreditBinds(db, credit, tag);
    if t :| CreditsTag(db, db', credit, t) {
      assert ES.Tagged(db.owned, credit.event.tags, tag) && t == tag;
    }
  }

  /** A credit that came late to a draft: the draft is created, the others are as they were. */
  ghost predicate CreditedLate(db: Db, db': Db, f: DraftId, x: InvoiceId) {
    && Exact(db'.owned, db'.drafts) && f in db'.drafts && db'.drafts[f].status.DraftCreated?
    && db'.drafts == db.drafts[f := db'.drafts[f]] && db'.batches == db.batches && db'.runs == db.runs
    && BindsAtMost(db.owned, db'.owned, TrialTag(f), Some(x))
  }

  lemma LateCredit(db: Db, credit: EventTxn, f: DraftId)
    requires Exact(db.owned, db.drafts) && f in db.drafts && db.drafts[f].provider.None?
    requires FreshCredit(db, credit, TrialTag(f))
    ensures CreditedLate(db, EventStep(db, credit), f, credit.event.invoice)
  {
    var db' := EventStep(db, credit);
    EventFrame(db, credit);
    CreditsItsTag(db, credit, TrialTag(f));
    assert ExactDraft(db.owned, db.drafts, f);
    assert f in db'.drafts && ExactDraft(db'.owned, db'.drafts, f);
  }

  /** A settlement that counts a full batch completes it, and its run with it when the others are completed. */
  lemma SettlesFull(db: Db, b: BatchId, at: Time)
    requires b in db.batches && |CreatedOf(db.drafts, b)| == db.batches[b].target
    ensures BatchAndRunCompleted(db, After(db, IS.Settle(db, b, at)), b)
  {
  }

  predicate OthersCompleted(batches: map<BatchId, BatchRow>, b: BatchId) {
    forall c :: c in batches && c.run == b.run && c != b ==> batches[c].status.BatchCompleted?
  }

  ghost predicate BatchAndRunCompleted(db: Db, db': Db, b: BatchId) {
    && b in db'.batches && db'.batches[b].status.BatchCompleted?
    && (b.run in db.runs && OthersCompleted(db.batches, b) ==>
          b.run in db'.runs && db'.runs[b.run].status.RunCompleted?)
  }

  /** The database after a late credit, an answered lookup of another draft, and the settlement of the batch. */
  ghost function CreditedFoundSettled(w: World, credit: EventTxn, u: IS.InvoiceDraft, y: InvoiceId, at: Time,
                                      cfg: TrialConfig): Db
  {
    FoundSettled(w.(db := EventStep(w.db, credit)), u, y, at, cfg)
  }

  ghost function FoundSettled(w1: World, u: IS.InvoiceDraft, y: InvoiceId, at: Time, cfg: TrialConfig): Db {
    var w2 := ReconcileOne(w1, u, Found(y), at, cfg).world;
    After(w2.db, IS.Settle(w2.db, u.id.batch, at))
  }

  /** A batch with one failed and one unknown draft and the others created, and its run when the other batches
      are completed, are completed by a late credit of the first draft and a pass that finds the second, though
      they may both have been degraded. */
  lemma DegradedBatchCompletes(w: World, f: DraftId, credit: EventTxn, u: IS.InvoiceDraft, y: InvoiceId, at: Time,
                               cfg: TrialConfig)
    requires ExactIn(w) && f in w.db.drafts && w.db.drafts[f].status.DraftFailed?
    requires FreshCredit(w.db, credit, TrialTag(f))
    requires Listed(w.db.drafts, u, DraftUnknown) && u.id.batch == f.batch && f.batch in w.db.batches
    requires |CreatedOf(w.db.drafts, f.batch)| + 2 == w.db.batches[f.batch].target
    requires credit.event.invoice != y && !IS.InvoiceTaken(w.db.owned, TrialTag(u.id), y)
    ensures BatchAndRunCompleted(w.db, CreditedFoundSettled(w, credit, u, y, at, cfg), f.batch)
  {
    assert ExactDraft(w.db.owned, w.db.drafts, f);
    LateCredit(w.db, credit, f);
    FoundCompletes(w, w.(db := EventStep(w.db, credit)), f, credit.event.invoice, u, y, at, cfg);
  }

  lemma FoundCompletes(w: World, w1: World, f: DraftId, x: InvoiceId, u: IS.InvoiceDraft, y: InvoiceId, at: Time,
                       cfg: TrialConfig)
    requires f in w.db.drafts && w.db.drafts[f].status.DraftFailed? && CreditedLate(w.db, w1.db, f, x)
    requires Listed(w.db.drafts, u, DraftUnknown) && u.id.batch == f.batch && f.batch in w.db.batches
    requires |CreatedOf(w.db.drafts, f.batch)| + 2 == w.db.batches[f.batch].target
    requires x != y && !IS.InvoiceTaken(w.db.owned, TrialTag(u.id), y)
    ensures BatchAndRunCompleted(w.db, FoundSettled(w1, u, y, at, cfg), f.batch)
  {
    var w2 := ReconcileOne(w1, u, Found(y), at, cfg).world;
    StillListed(w.db, w1.db, f, x, u, y);
    FoundCreated(w1, w2, u, y, at, cfg);
    TwoMoreCreated(w.db.drafts, w2.db.drafts, f, u.id);
    SettlesFull(w2.db, f.batch, at);
  }

  lemma StillListed(db: Db, db': Db, f: DraftId, x: InvoiceId, u: IS.InvoiceDraft, y: InvoiceId)
    requires f in db.drafts && db.drafts[f].status.DraftFailed? && Listed(db.drafts, u, DraftUnknown)
    requires CreditedLate(db, db', f, x) && x != y && !IS.InvoiceTaken(db.owned, TrialTag(u.id), y)
    ensures Listed(db'.drafts, u, DraftUnknown) && !IS.InvoiceTaken(db'.owned, TrialTag(u.id), y)
  {
    StaysFree(db.owned, db'.owned, TrialTag(f), Some(x), TrialTag(u.id), y);
  }

  lemma FoundCreated(w1: World, w2: World, u: IS.InvoiceDraft, y: InvoiceId, at: Time, cfg: TrialConfig)
    requires ExactIn(w1) && Listed(w1.db.drafts, u, DraftUnknown) && !IS.InvoiceTaken(w1.db.owned, TrialTag(u.id), y)
    requires w2 == ReconcileOne(w1, u, Found(y), at, cfg).world
    ensures u.id in w2.db.drafts && w2.db.drafts[u.id].status.DraftCreated?
    ensures w2.db.drafts == w1.db.drafts[u.id := w2.db.drafts[u.id]] && w2.db.batches == w1.db.batches
    ensures w2.db.runs == w1.db.runs
  {
    ReconcileEffect(w1, u, Found(y), at, cfg);
  }

  lemma TwoMoreCreated(drafts: map<DraftId, DraftRow>, drafts': map<DraftId, DraftRow>, f: DraftId, u: DraftId)
    requires f in drafts && u in drafts && f != u && f.batch == u.batch
    requires !drafts[f].status.DraftCreated? && !drafts[u].status.DraftCreated?
    requires drafts'.Keys == drafts.Keys && forall d :: d in drafts && d != f && d != u ==> drafts'[d] == drafts[d]
    requires drafts'[f].status.DraftCreated? && drafts'[u].status.DraftCreated?
    ensures |CreatedOf(drafts', f.batch)| == |CreatedOf(drafts, f.batch)| + 2
  {
    assert CreatedOf(drafts', f.batch) == CreatedOf(drafts, f.batch) + {f} + {u};
  }
}
