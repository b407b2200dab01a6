/** Runs and batches: the marker of the active run, degraded batches, and the cap on claims. */
module RunInvariants {
  import opened Domain
  import opened Tables
  import opened Transactions
  import IS = InvoiceStore
  import RS = TrialStore

  predicate BatchOk(runs: map<RunId, RunRow>, b: BatchId, row: BatchRow, maxClaims: int) {
    && b.run in runs
    && 0 <= b.slot < RS.SLOT_COUNT
    && RS.MIN_BATCH_SIZE <= row.target <= RS.MAX_BATCH_SIZE
    && row.attempts <= maxClaims
    && (row.status.BatchDegraded? ==> !runs[b.run].status.RunActive?)
  }

  predicate HasSlots(batches: map<BatchId, BatchRow>, r: RunId) {
    forall i :: 0 <= i < RS.SLOT_COUNT ==> BatchId(r, i) in batches
  }

  /** A run is active exactly when it carries the marker, so at most one is; a run with a degraded batch is
      not active; a run has its eight batches and every batch its run; no batch is claimed more than the cap. */
  ghost predicate RunsOk(batches: map<BatchId, BatchRow>, runs: map<RunId, RunRow>, maxClaims: int) {
    && (forall b :: b in batches ==> BatchOk(runs, b, batches[b], maxClaims))
    && (forall r :: r in runs ==> runs[r].marker == runs[r].status.RunActive? && HasSlots(batches, r))
    && (forall r, s :: r in runs && s in runs && runs[r].status.RunActive? && runs[s].status.RunActive? ==> r == s)
  }

  /** Runs are never deleted and never become active again; batches are never deleted and keep their target. */
  ghost predicate RunsKept(db: Db, db': Db) {
    && (forall r :: r in db.runs ==> r in db'.runs && (db'.runs[r].status.RunActive? ==> db.runs[r].status.RunActive?))
    && (forall b :: b in db.batches ==>
          && b in db'.batches && db'.batches[b].target == db.batches[b].target
          && db'.batches[b].attempts >= db.batches[b].attempts)
  }

  lemma RunsSettle(db: Db, batch: BatchId, at: Time, maxClaims: int)
    requires RunsOk(db.batches, db.runs, maxClaims)
    ensures var db' := After(db, IS.Settle(db, batch, at));
            RunsOk(db'.batches, db'.runs, maxClaims) && RunsKept(db, db')
  {
    if batch in db.batches {
      assert BatchOk(db.runs, batch, db.batches[batch], maxClaims);
      var db' := After(db, IS.Settle(db, batch, at));
      forall b | b in db'.batches ensures BatchOk(db'.runs, b, db'.batches[b], maxClaims) {
        assert BatchOk(db.runs, b, db.batches[b], maxClaims);
      }
      forall r | r in db'.runs ensures HasSlots(db'.batches, r) {
        assert HasSlots(db.batches, r);
      }
    }
  }

  lemma SlotBatchesAt(run: RunId, schedule: seq<RS.Slot>)
    requires RS.ValidSchedule(schedule)
    ensures forall b :: b in RS.SlotBatches(run, schedule) <==> b.run == run && 0 <= b.slot < RS.SLOT_COUNT
    ensures forall b :: b in RS.SlotBatches(run, schedule) ==>
              RS.SlotBatches(run, schedule)[b] == RS.NewBatch(schedule[b.slot])
  {
    forall b: BatchId | b.run == run && 0 <= b.slot < RS.SLOT_COUNT ensures b in RS.SlotBatches(run, schedule) {
      assert b == BatchId(run, b.slot);
    }
  }

  lemma RunsCreate(db: Db, run: RunId, start: Time, schedule: seq<RS.Slot>, maxClaims: int)
    requires RunsOk(db.batches, db.runs, maxClaims) && maxClaims >= 0 && RS.ValidSchedule(schedule)
    ensures var db' := After(db, RS.CreateRun(db, run, start, schedule));
            RunsOk(db'.batches, db'.runs, maxClaims) && RunsKept(db, db')
  {
    if !RS.RunRefused(db, run, schedule) {
      var db' := After(db, RS.CreateRun(db, run, start, schedule));
      SlotBatchesAt(run, schedule);
      forall b | b in db'.batches ensures BatchOk(db'.runs, b, db'.batches[b], maxClaims) {
        assert b in db.batches ==> BatchOk(db.runs, b, db.batches[b], maxClaims);
      }
      forall r | r in db'.runs ensures HasSlots(db'.batches, r) {
        assert r in db.runs ==> HasSlots(db.batches, r);
      }
    }
  }

  lemma RunsLease(db: Db, b: BatchId, at: Time, leaseUntil: Time, maxClaims: int)
    requires RunsOk(db.batches, db.runs, maxClaims) && b in db.batches
    requires RS.BatchClaimable(db.batches[b], at, maxClaims)
    ensures var db' := RS.ClaimBatch(db, b, leaseUntil); RunsOk(db'.batches, db'.runs, maxClaims) && RunsKept(db, db')
  {
    var db' := RS.ClaimBatch(db, b, leaseUntil);
    forall c | c in db'.batches ensures BatchOk(db'.runs, c, db'.batches[c], maxClaims) {
      assert BatchOk(db.runs, c, db.batches[c], maxClaims);
    }
    forall r | r in db'.runs ensures HasSlots(db'.batches, r) {
      assert HasSlots(db.batches, r);
    }
  }

  lemma RunsDegrade(db: Db, at: Time, maxClaims: int)
    requires RunsOk(db.batches, db.runs, maxClaims)
    ensures var db' := RS.DegradeExhausted(db, at, maxClaims);
            RunsOk(db'.batches, db'.runs, maxClaims) && RunsKept(db, db')
  {
    var db' := RS.DegradeExhausted(db, at, maxClaims);
    if db' != db {
      forall b | b in db'.batches ensures BatchOk(db'.runs, b, db'.batches[b], maxClaims) {
        assert BatchOk(db.runs, b, db.batches[b], maxClaims);
      }
      forall r | r in db'.runs ensures HasSlots(db'.batches, r) {
        assert HasSlots(db.batches, r);
      }
    }
  }

  lemma RunsRuns(db: Db, txn: RunTxn, maxClaims: int)
    requires RunsOk(db.batches, db.runs, maxClaims) && maxClaims >= 0
    ensures var db' := RunStep(db, txn, maxClaims); RunsOk(db'.batches, db'.runs, maxClaims) && RunsKept(db, db')
  {
    match txn
    case SettleBatch(batch, at) => RunsSettle(db, batch, at, maxClaims);
    case StartRun(run, start, counts) =>
      if RS.BuildSchedule(start, counts).Some? {
        RunsCreate(db, run, start, RS.BuildSchedule(start, counts).value, maxClaims);
      }
    case DegradeBatches(at) => RunsDegrade(db, at, maxClaims);
    case LeaseBatch(b, at, leaseUntil) =>
      if b in db.batches && RS.BatchClaimable(db.batches[b], at, maxClaims) {
        RunsLease(db, b, at, leaseUntil, maxClaims);
      }
  }

  lemma RunsStep(db: Db, txn: Txn, maxClaims: int)
    requires RunsOk(db.batches, db.runs, maxClaims) && maxClaims >= 0
    ensures var db' := Step(db, txn, maxClaims); RunsOk(db'.batches, db'.runs, maxClaims) && RunsKept(db, db')
  {
    match txn
    case OfEvents(e) => EventFrame(db, e);
    case OfInvoices(i) => InvoiceFrame(db, i);
    case OfJobs(_) =>
    case OfRuns(r) => RunsRuns(db, r, maxClaims);
  }
}
