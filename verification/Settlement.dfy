/** What a settlement makes of a batch and its run, told from the draft rows alone; when a batch can be claimed, told
    from the history of its claims; and why a run is degraded. */
module Settlement {
  import opened Domain
  import opened Tables
  import opened Transactions
  import opened RunInvariants
  import opened TagPayouts
  import opened ServiceMoves
  import opened ServicePayouts
  import opened TrialService
  import IS = InvoiceStore
  import RS = TrialStore

  // ---- A settlement ----

  predicate IsFull(drafts: map<DraftId, DraftRow>, b: BatchId, target: nat) {
    |set d | d in drafts && d.batch == b && drafts[d].status.DraftCreated?| == target
  }

  predicate HasFailed(drafts: map<DraftId, DraftRow>, b: BatchId) {
    exists d :: d in drafts && d.batch == b && drafts[d].status.DraftFailed?
  }

  predicate HasUnknown(drafts: map<DraftId, DraftRow>, b: BatchId) {
    exists d :: d in drafts && d.batch == b && drafts[d].status.DraftUnknown?
  }

  /** The settled row: full batches are completed, the others degraded by a failed draft, or waiting for an unknown
      one, or scheduled again. The lease is gone, and nothing else of the row changes. */
  predicate SettledRow(drafts: map<DraftId, DraftRow>, b: BatchId, row: BatchRow, row': BatchRow, now: Time) {
    && row'.scheduledAt == row.scheduledAt && row'.target == row.target && row'.attempts == row.attempts
    && row'.leaseUntil.None?
    && (row'.status.BatchCompleted? <==> IsFull(drafts, b, row.target))
    && (row'.status.BatchDegraded? <==> !IsFull(drafts, b, row.target) && HasFailed(drafts, b))
    && (row'.status.BatchReconciling? <==>
          !IsFull(drafts, b, row.target) && !HasFailed(drafts, b) && HasUnknown(drafts, b))
    && (row'.status.BatchScheduled? <==>
          !IsFull(drafts, b, row.target) && !HasFailed(drafts, b) && !HasUnknown(drafts, b))
    && row'.completedAt == if IsFull(drafts, b, row.target) then Some(now) else None
  }

  /** The run of the batch: degraded with it; completed when all its batches are; otherwise as it was. */
  predicate SettledRuns(db: Db, db': Db, b: BatchId, now: Time)
    requires b in db'.batches
  {
    if b.run !in db.runs then db'.runs == db.runs
    else if db'.batches[b].status.BatchDegraded? then
      db'.runs == db.runs[b.run := db.runs[b.run].(status := RunDegraded, marker := false)]
    else if forall c :: c in db'.batches && c.run == b.run ==> db'.batches[c].status.BatchCompleted? then
      db'.runs == db.runs[b.run := db.runs[b.run].(status := RunCompleted, marker := false, completedAt := Some(now))]
    else db'.runs == db.runs
  }

  lemma SettlesExactly(db: Db, b: BatchId, now: Time)
    requires b in db.batches
    ensures var tx := IS.Settle(db, b, now);
            && tx.Committed? && b in tx.db.batches && tx.value == tx.db.batches[b].status
            && tx.db == db.(batches := db.batches[b := tx.db.batches[b]], runs := tx.db.runs)
            && SettledRow(db.drafts, b, db.batches[b], tx.db.batches[b], now)
            && SettledRuns(db, tx.db, b, now)
            && (!IsFull(db.drafts, b, db.batches[b].target) && !HasFailed(db.drafts, b) ==> tx.db.runs == db.runs)
  {
    var created := set d | d in db.drafts && d.batch == b && db.drafts[d].status.DraftCreated?;
    assert created == IS.OfBatch(db.drafts, b, DraftCreated);
    assert HasFailed(db.drafts, b) <==> IS.OfBatch(db.drafts, b, DraftFailed) != {} by {
      assert forall d :: d in IS.OfBatch(db.drafts, b, DraftFailed) <==>
               d in db.drafts && d.batch == b && db.drafts[d].status.DraftFailed?;
    }
    assert HasUnknown(db.drafts, b) <==> IS.OfBatch(db.drafts, b, DraftUnknown) != {} by {
      assert forall d :: d in IS.OfBatch(db.drafts, b, DraftUnknown) <==>
               d in db.drafts && d.batch == b && db.drafts[d].status.DraftUnknown?;
    }
  }

  // ---- Used-up claims ----

  /** An open batch that is due, not leased, and may not be claimed again. */
  predicate UsedUp(row: BatchRow, now: Time, maxClaims: int) {
    && row.scheduledAt <= now && !row.status.BatchCompleted? && !row.status.BatchDegraded?
    && (row.leaseUntil.None? || row.leaseUntil.value <= now)
    && row.attempts >= maxClaims
  }

  ghost predicate DegradesRow(row: BatchRow, row': BatchRow, now: Time, maxClaims: int) {
    row' == if UsedUp(row, now, maxClaims) then
              row.(status := BatchDegraded, leaseUntil := None, completedAt := Some(now))
            else row
  }

  ghost predicate DegradesRun(batches': map<BatchId, BatchRow>, r: RunId, row: RunRow, row': RunRow) {
    row' == if exists b :: b in batches' && b.run == r && batches'[b].status.BatchDegraded? then
              row.(status := RunDegraded, marker := false)
            else row
  }

  /** Degrading: exactly the used-up batches, and with them the runs that have a degraded batch. */
  lemma DegradesExactly(db: Db, now: Time, maxClaims: int)
    ensures var db' := RS.DegradeExhausted(db, now, maxClaims);
            && db' == db.(batches := db'.batches, runs := db'.runs)
            && db'.batches.Keys == db.batches.Keys && db'.runs.Keys == db.runs.Keys
            && (forall b :: b in db.batches ==> DegradesRow(db.batches[b], db'.batches[b], now, maxClaims))
            && if exists b :: b in db.batches && UsedUp(db.batches[b], now, maxClaims) then
                 forall r :: r in db.runs ==> DegradesRun(db'.batches, r, db.runs[r], db'.runs[r])
               else db'.runs == db.runs
  {
    assert forall b :: b in db.batches ==>
             (RS.Exhausted(db.batches[b], now, maxClaims) <==> UsedUp(db.batches[b], now, maxClaims));
    var db' := RS.DegradeExhausted(db, now, maxClaims);
    forall r | r in db.runs
      ensures RS.HasDegraded(db'.batches, r)
         <==> exists b :: b in db'.batches && b.run == r && db'.batches[b].status.BatchDegraded?
    {
    }
  }

  // ---- Why a run is degraded ----

  /** The batches a transaction degrades: settled with a failed draft and not full, or with their claims used up. */
  ghost function Degrades(db: Db, txn: Txn, maxClaims: int): set<BatchId> {
    if !txn.OfRuns? then {}
    else match txn.r
      case SettleBatch(b, _) =>
        if b in db.batches && !IsFull(db.drafts, b, db.batches[b].target) && HasFailed(db.drafts, b) then {b} else {}
      case DegradeBatches(at) => set b | b in db.batches && UsedUp(db.batches[b], at, maxClaims)
      case _ => {}
  }

  ghost function DegradesIn(db: Db, txns: seq<Txn>, maxClaims: int): set<BatchId>
    decreases |txns|
  {
    if txns == [] then {}
    else Degrades(db, txns[0], maxClaims) + DegradesIn(Step(db, txns[0], maxClaims), txns[1..], maxClaims)
  }

  ghost predicate HasCauseIn(causes: set<BatchId>, r: RunId) {
    exists b :: b in causes && b.run == r
  }

  /** Degraded batches and runs have a cause. */
  ghost predicate Caused(causes: set<BatchId>, batches: map<BatchId, BatchRow>, runs: map<RunId, RunRow>) {
    && (forall b :: b in batches && batches[b].status.BatchDegraded? ==> b in causes)
    && (forall r :: r in runs && runs[r].status.RunDegraded? ==> HasCauseIn(causes, r))
  }

  lemma CausedSettle(db: Db, causes: set<BatchId>, b: BatchId, at: Time, maxClaims: int)
    requires Caused(causes, db.batches, db.runs) && Degrades(db, OfRuns(SettleBatch(b, at)), maxClaims) <= causes
    ensures var db' := After(db, IS.Settle(db, b, at)); Caused(causes, db'.batches, db'.runs)
  {
    if b in db.batches {
      SettlesExactly(db, b, at);
    }
  }

  lemma CausedDegrade(db: Db, causes: set<BatchId>, at: Time, maxClaims: int)
    requires Caused(causes, db.batches, db.runs) && Degrades(db, OfRuns(DegradeBatches(at)), maxClaims) <= causes
    ensures var db' := RS.DegradeExhausted(db, at, maxClaims); Caused(causes, db'.batches, db'.runs)
  {
    DegradesExactly(db, at, maxClaims);
  }

  lemma CausedStart(db: Db, causes: set<BatchId>, run: RunId, start: Time, counts: seq<int>, maxClaims: int)
    requires Caused(causes, db.batches, db.runs)
    ensures var db' := RunStep(db, StartRun(run, start, counts), maxClaims); Caused(causes, db'.batches, db'.runs)
  {
    var schedule := RS.BuildSchedule(start, counts);
    if schedule.Some? {
      SlotBatchesAt(run, schedule.value);
    }
  }

  lemma CausedStep(db: Db, causes: set<BatchId>, txn: Txn, maxClaims: int)
    requires Caused(causes, db.batches, db.runs) && Degrades(db, txn, maxClaims) <= causes
    ensures var db' := Step(db, txn, maxClaims); Caused(causes, db'.batches, db'.runs)
  {
    match txn
    case OfEvents(e) => EventFrame(db, e);
    case OfInvoices(i) => InvoiceFrame(db, i);
    case OfJobs(_) =>
    case OfRuns(r) =>
      match r
      case SettleBatch(b, at) => CausedSettle(db, causes, b, at, maxClaims);
      case DegradeBatches(at) => CausedDegrade(db, causes, at, maxClaims);
      case StartRun(run, start, counts) => CausedStart(db, causes, run, start, counts, maxClaims);
      case LeaseBatch(_, _, _) =>
  }

  lemma {:induction false} CausedRun(db: Db, causes: set<BatchId>, txns: seq<Txn>, maxClaims: int)
    requires Caused(causes, db.batches, db.runs) && DegradesIn(db, txns, maxClaims) <= causes
    ensures var db' := RunTxns(db, txns, maxClaims); Caused(causes, db'.batches, db'.runs)
    decreases |txns|
  {
    if txns != [] {
      CausedStep(db, causes, txns[0], maxClaims);
      CausedRun(Step(db, txns[0], maxClaims), causes, txns[1..], maxClaims);
    }
  }

  /** Over any run of transactions: a degraded run had a batch that was settled with a failed draft and not full, or
      that had used up its claims. */
  lemma DegradedForCause(txns: seq<Txn>, maxClaims: int, r: RunId)
    requires var db := RunTxns(EMPTY_DB, txns, maxClaims); r in db.runs && db.runs[r].status.RunDegraded?
    ensures exists b :: b in DegradesIn(EMPTY_DB, txns, maxClaims) && b.run == r
  {
    CausedRun(EMPTY_DB, DegradesIn(EMPTY_DB, txns, maxClaims), txns, maxClaims);
  }

  lemma {:induction false} PayRunIsRun(s: Books, txns: seq<Txn>, maxClaims: int)
    ensures PayRun(s, txns, maxClaims).db == RunTxns(s.db, txns, maxClaims)
    decreases |txns|
  {
    if txns != [] {
      PayRunIsRun(PayStep(s, txns[0], maxClaims), txns[1..], maxClaims);
    }
  }

  /** So it is over any run of the services' moves, which is a run of transactions. */
  lemma MovesDegradeForCause(moves: seq<Move>, cfg: TrialConfig, r: RunId) returns (txns: seq<Txn>)
    requires var db := RunMoves(FRESH_SERVICE, moves, cfg).world.db; r in db.runs && db.runs[r].status.RunDegraded?
    ensures RunMoves(FRESH_SERVICE, moves, cfg).world.db == RunTxns(EMPTY_DB, txns, cfg.maxClaims)
    ensures exists b :: b in DegradesIn(EMPTY_DB, txns, cfg.maxClaims) && b.run == r
  {
    txns := RunIsGuarded(FRESH_SERVICE, moves, cfg);
    PayRunIsRun(BooksOf(FRESH_SERVICE), txns, cfg.maxClaims);
    DegradedForCause(txns, cfg.maxClaims, r);
  }

  // ---- Claims of a batch ----

  /** The lease a batch is held under after a transaction: that of a claim that counted, until a settlement. */
  ghost function LeaseAfter(db: Db, db': Db, txn: Txn, b: BatchId, held: Option<Time>): Option<Time> {
    if !txn.OfRuns? || b !in db.batches || b !in db'.batches then held
    else match txn.r
      case LeaseBatch(c, _, until) =>
        if c == b && db'.batches[b].attempts == db.batches[b].attempts + 1 then Some(until) else held
      case SettleBatch(c, _) => if c == b then None else held
      case _ => held
  }

  ghost function LeaseHeld(db: Db, txns: seq<Txn>, b: BatchId, held: Option<Time>, maxClaims: int): Option<Time>
    decreases |txns|
  {
    if txns == [] then held
    else
      var db' := Step(db, txns[0], maxClaims);
      LeaseHeld(db', txns[1..], b, LeaseAfter(db, db', txns[0], b, held), maxClaims)
  }

  ghost predicate HoldsLease(batches: map<BatchId, BatchRow>, b: BatchId, held: Option<Time>) {
    if b in batches then batches[b].status.BatchDegraded? || batches[b].leaseUntil == held else held.None?
  }

  lemma LeaseSettle(db: Db, c: BatchId, at: Time, b: BatchId, held: Option<Time>)
    requires HoldsLease(db.batches, b, held)
    ensures var db' := After(db, IS.Settle(db, c, at));
            HoldsLease(db'.batches, b, LeaseAfter(db, db', OfRuns(SettleBatch(c, at)), b, held))
  {
    if c in db.batches {
      SettlesExactly(db, c, at);
    }
  }

  lemma LeaseDegrade(db: Db, at: Time, b: BatchId, held: Option<Time>, maxClaims: int)
    requires HoldsLease(db.batches, b, held)
    ensures HoldsLease(RS.DegradeExhausted(db, at, maxClaims).batches, b, held)
  {
    DegradesExactly(db, at, maxClaims);
  }

  lemma LeaseStart(db: Db, run: RunId, start: Time, counts: seq<int>, b: BatchId, held: Option<Time>, maxClaims: int)
    requires HoldsLease(db.batches, b, held)
    ensures HoldsLease(RunStep(db, StartRun(run, start, counts), maxClaims).batches, b, held)
  {
    var schedule := RS.BuildSchedule(start, counts);
    if schedule.Some? {
      SlotBatchesAt(run, schedule.value);
    }
  }

  lemma LeaseStep(db: Db, txn: Txn, b: BatchId, held: Option<Time>, maxClaims: int)
    requires HoldsLease(db.batches, b, held)
    ensures var db' := Step(db, txn, maxClaims); HoldsLease(db'.batches, b, LeaseAfter(db, db', txn, b, held))
  {
    match txn
    case OfEvents(e) => EventFrame(db, e);
    case OfInvoices(i) => InvoiceFrame(db, i);
    case OfJobs(_) =>
    case OfRuns(r) =>
      match r
      case SettleBatch(c, at) => LeaseSettle(db, c, at, b, held);
      case DegradeBatches(at) => LeaseDegrade(db, at, b, held, maxClaims);
      case StartRun(run, start, counts) => LeaseStart(db, run, start, counts, b, held, maxClaims);
      case LeaseBatch(_, _, _) =>
  }

  lemma {:induction false} LeaseRun(db: Db, txns: seq<Txn>, b: BatchId, held: Option<Time>, maxClaims: int)
    requires HoldsLease(db.batches, b, held)
    ensures HoldsLease(RunTxns(db, txns, maxClaims).batches, b, LeaseHeld(db, txns, b, held, maxClaims))
    decreases |txns|
  {
    if txns != [] {
      var db' := Step(db, txns[0], maxClaims);
      LeaseStep(db, txns[0], b, held, maxClaims);
      LeaseRun(db', txns[1..], b, LeaseAfter(db, db', txns[0], b, held), maxClaims);
    }
  }

  /** In every reachable database a batch can be claimed exactly when it is due and neither completed nor degraded, has
      claims left, and is not held: never claimed since it was last settled, or under a lease that has run out. The
      claim leases it and counts; otherwise nothing happens. */
  lemma BatchClaimExactly(txns: seq<Txn>, maxClaims: int, b: BatchId, now: Time, until: Time)
    requires b in RunTxns(EMPTY_DB, txns, maxClaims).batches
    ensures var db := RunTxns(EMPTY_DB, txns, maxClaims);
            var held := LeaseHeld(EMPTY_DB, txns, b, None, maxClaims);
            var row := db.batches[b];
            Step(db, OfRuns(LeaseBatch(b, now, until)), maxClaims)
              == if now >= row.scheduledAt && !row.status.BatchCompleted? && !row.status.BatchDegraded?
                    && row.attempts < maxClaims && (held.None? || held.value <= now) then
                   db.(batches := db.batches[b := row.(status := BatchIssuing, leaseUntil := Some(until),
                                                       attempts := row.attempts + 1)])
                 else db
  {
    LeaseRun(EMPTY_DB, txns, b, None, maxClaims);
  }

  // ---- The start of a run ----

  /** The batch of a slot: due three hours after the one before, with its count as target. */
  predicate FreshBatch(row: BatchRow, slot: int, start: Time, counts: seq<int>)
    requires 0 <= slot < |counts|
  {
    && row.scheduledAt == start + slot * 10800 && row.target == counts[slot] && row.status.BatchScheduled?
    && row.leaseUntil.None? && row.attempts == 0 && row.completedAt.None?
  }

  /** The run with its eight batches, and everything else as before. */
  ghost predicate Starts(db: Db, db': Db, run: RunId, start: Time, counts: seq<int>)
    requires |counts| == 8
  {
    && db' == db.(runs := db.runs[run := RunRow(RunActive, start, start + 86400, None, true)], batches := db'.batches)
    && (forall b :: b in db.batches ==> b in db'.batches && db'.batches[b] == db.batches[b])
    && (forall b :: b in db'.batches && b !in db.batches ==> b.run == run && 0 <= b.slot < 8)
    && (forall i :: 0 <= i < 8 ==> BatchId(run, i) in db'.batches && BatchId(run, i) !in db.batches
                                   && FreshBatch(db'.batches[BatchId(run, i)], i, start, counts))
  }

  /** A run starts exactly when eight counts from 8 to 12 are given, it is new, and no run is active. */
  lemma StartsExactly(db: Db, run: RunId, start: Time, counts: seq<int>, maxClaims: int)
    requires RunsOk(db.batches, db.runs, maxClaims)
    ensures var db' := RunStep(db, StartRun(run, start, counts), maxClaims);
            if |counts| == 8 && (forall i :: 0 <= i < 8 ==> 8 <= counts[i] <= 12)
               && run !in db.runs && (forall r :: r in db.runs ==> !db.runs[r].status.RunActive?)
            then Starts(db, db', run, start, counts) else db' == db
  {
    var schedule := RS.BuildSchedule(start, counts);
    if schedule.Some? && run !in db.runs {
      forall b | b in db.batches ensures b.run != run {
        assert BatchOk(db.runs, b, db.batches[b], maxClaims);
      }
      CreateStarts(db, run, start, counts, schedule.value);
    }
  }

  lemma CreateStarts(db: Db, run: RunId, start: Time, counts: seq<int>, schedule: seq<RS.Slot>)
    requires |counts| == 8 && RS.ValidSchedule(schedule) && run !in db.runs
    requires forall i :: 0 <= i < 8 ==> counts[i] >= 0 && schedule[i] == RS.Slot(i, start + i * 3 * RS.HOUR, counts[i])
    requires forall b :: b in db.batches ==> b.run != run
    ensures if exists r :: r in db.runs && db.runs[r].marker then RS.CreateRun(db, run, start, schedule).RolledBack?
            else RS.CreateRun(db, run, start, schedule).Committed?
                 && Starts(db, RS.CreateRun(db, run, start, schedule).db, run, start, counts)
  {
    SlotBatchesAt(run, schedule);
    var batches' := db.batches + RS.SlotBatches(run, schedule);
    forall i | 0 <= i < 8
      ensures BatchId(run, i) in batches' && FreshBatch(batches'[BatchId(run, i)], i, start, counts)
    {
      assert BatchId(run, i) in RS.SlotBatches(run, schedule);
    }
  }

  /** A tick reports what the settlement made of its batch. */
  lemma TickReports(status: BatchStatus)
    ensures TickResultOf(status).TickCompleted? <==> status.BatchCompleted?
    ensures TickResultOf(status).TickDegraded? <==> status.BatchDegraded?
    ensures TickResultOf(status).TickReconciling? <==> status.BatchReconciling?
    ensures TickResultOf(status).RetryPending? <==> status.BatchScheduled? || status.BatchIssuing?
  {
  }
}
