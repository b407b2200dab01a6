/** Trial runs and the leases on their batches (persistence/trial_store.py, application/schedule.py). */
module TrialStore {
  import opened Domain
  import opened Tables
  import opened Collections

  // ---- The schedule ----

  const SLOT_COUNT: nat := 8
  const MIN_BATCH_SIZE: int := 8
  const MAX_BATCH_SIZE: int := 12
  const HOUR: int := 3600

  datatype Slot = Slot(index: int, scheduledAt: Time, target: nat)

  /** Eight slots three hours apart, when there are eight counts in range. */
  function BuildSchedule(start: Time, counts: seq<int>): (r: Option<seq<Slot>>)
    ensures r.Some? <==> |counts| == SLOT_COUNT
                         && forall i :: 0 <= i < |counts| ==> MIN_BATCH_SIZE <= counts[i] <= MAX_BATCH_SIZE
    ensures r.Some? ==> |r.value| == SLOT_COUNT
    ensures r.Some? ==> forall i :: 0 <= i < SLOT_COUNT ==>
              && r.value[i] == Slot(i, start + i * 3 * HOUR, counts[i])
              && MIN_BATCH_SIZE <= r.value[i].target <= MAX_BATCH_SIZE
  {
    if |counts| != SLOT_COUNT
       || exists i :: 0 <= i < |counts| && !(MIN_BATCH_SIZE <= counts[i] <= MAX_BATCH_SIZE) then None
    else Some(seq(SLOT_COUNT, i requires 0 <= i < SLOT_COUNT => Slot(i, start + i * 3 * HOUR, counts[i])))
  }

  // ---- Transactions ----

  predicate ValidSchedule(schedule: seq<Slot>) {
    |schedule| == SLOT_COUNT && forall i :: 0 <= i < SLOT_COUNT ==>
      schedule[i].index == i && MIN_BATCH_SIZE <= schedule[i].target <= MAX_BATCH_SIZE
  }

  function NewBatch(slot: Slot): BatchRow {
    BatchRow(slot.scheduledAt, slot.target, BatchScheduled, None, 0, None)
  }

  function SlotBatches(run: RunId, schedule: seq<Slot>): map<BatchId, BatchRow>
    requires ValidSchedule(schedule)
  {
    map i | 0 <= i < |schedule| :: BatchId(run, i) := NewBatch(schedule[i])
  }

  predicate RunRefused(db: Db, run: RunId, schedule: seq<Slot>) {
    || run in db.runs
    || (exists r :: r in db.runs && db.runs[r].marker)
    || (exists i :: 0 <= i < |schedule| && BatchId(run, i) in db.batches)
  }

  /** Inserts an active run with its batches; a second active run breaks the marker's uniqueness. */
  function CreateRun(db: Db, run: RunId, start: Time, schedule: seq<Slot>): Tx<()>
    requires ValidSchedule(schedule)
  {
    if RunRefused(db, run, schedule) then RolledBack
    else
      Committed(db.(runs := db.runs[run := RunRow(RunActive, start, start + 24 * HOUR, None, true)],
                    batches := db.batches + SlotBatches(run, schedule)), ())
  }

  predicate Open(row: BatchRow, now: Time) {
    && row.scheduledAt <= now
    && (row.status.BatchScheduled? || row.status.BatchIssuing? || row.status.BatchReconciling?)
    && (row.leaseUntil.None? || row.leaseUntil.value <= now)
  }

  predicate BatchClaimable(row: BatchRow, now: Time, maxAttempts: int) {
    Open(row, now) && row.attempts < maxAttempts
  }

  predicate Exhausted(row: BatchRow, now: Time, maxAttempts: int) {
    Open(row, now) && row.attempts >= maxAttempts
  }

  function LeasedBatch(row: BatchRow, leaseUntil: Time): BatchRow {
    row.(status := BatchIssuing, leaseUntil := Some(leaseUntil), attempts := row.attempts + 1)
  }

  predicate AnyExhausted(batches: map<BatchId, BatchRow>, now: Time, maxAttempts: int) {
    exists b :: b in batches && Exhausted(batches[b], now, maxAttempts)
  }

  function DegradedBatches(batches: map<BatchId, BatchRow>, now: Time, maxAttempts: int): map<BatchId, BatchRow> {
    map b | b in batches ::
      if Exhausted(batches[b], now, maxAttempts) then
        batches[b].(status := BatchDegraded, leaseUntil := None, completedAt := Some(now))
      else batches[b]
  }

  predicate HasDegraded(batches: map<BatchId, BatchRow>, r: RunId) {
    exists b :: b in batches && b.run == r && batches[b].status.BatchDegraded?
  }

  function DegradedRuns(batches: map<BatchId, BatchRow>, runs: map<RunId, RunRow>): map<RunId, RunRow> {
    map r | r in runs :: if HasDegraded(batches, r) then runs[r].(status := RunDegraded, marker := false) else runs[r]
  }

  /** Degrades the batches that used up their claims, and every run with a degraded batch. */
  function DegradeExhausted(db: Db, now: Time, maxAttempts: int): Db {
    if AnyExhausted(db.batches, now, maxAttempts) then
      var batches := DegradedBatches(db.batches, now, maxAttempts);
      db.(batches := batches, runs := DegradedRuns(batches, db.runs))
    else db
  }

  function ClaimBatch(db: Db, b: BatchId, leaseUntil: Time): Db
    requires b in db.batches
  {
    db.(batches := db.batches[b := LeasedBatch(db.batches[b], leaseUntil)])
  }

  class TrialStore {
    const db: Database

    constructor (db: Database)
      ensures this.db == db
    {
      this.db := db;
    }

    method Create(run: RunId, start: Time, schedule: seq<Slot>) returns (ok: bool)
      requires ValidSchedule(schedule)
      modifies db
      ensures db.View() == After(old(db.View()), CreateRun(old(db.View()), run, start, schedule))
      ensures ok == CreateRun(old(db.View()), run, start, schedule).Committed?
    {
      if run in db.runs || (exists r :: r in db.runs && db.runs[r].marker)
        || exists i :: 0 <= i < |schedule| && BatchId(run, i) in db.batches
      {
        return false;
      }
      db.runs := db.runs[run := RunRow(RunActive, start, start + 24 * HOUR, None, true)];
      db.batches := db.batches + SlotBatches(run, schedule);
      return true;
    }

    /** Leases the claimable batch scheduled first; without one, degrades the exhausted batches. */
    method ClaimDueBatch(now: Time, leaseUntil: Time, maxAttempts: int) returns (r: Option<BatchId>)
      modifies db`batches, db`runs
      ensures r.None? ==> (forall b :: b in old(db.batches) ==> !BatchClaimable(old(db.batches)[b], now, maxAttempts))
                          && db.View() == DegradeExhausted(old(db.View()), now, maxAttempts)
      ensures r.Some? ==>
                && r.value in old(db.batches)
                && BatchClaimable(old(db.batches)[r.value], now, maxAttempts)
                && (forall b :: b in old(db.batches) && BatchClaimable(old(db.batches)[b], now, maxAttempts) ==>
                      old(db.batches)[r.value].scheduledAt <= old(db.batches)[b].scheduledAt)
                && db.View() == ClaimBatch(old(db.View()), r.value, leaseUntil)
    {
      var rows := db.batches;
      var due := set b | b in rows && BatchClaimable(rows[b], now, maxAttempts);
      if due == {} {
        assert forall b :: b in rows && BatchClaimable(rows[b], now, maxAttempts) ==> b in due;
        DegradeExhaustedBatches(now, maxAttempts);
        return None;
      }
      LeastExists(due, (b: BatchId) => if b in rows then rows[b].scheduledAt else 0);
      var b :| b in due && forall c :: c in due ==> rows[b].scheduledAt <= rows[c].scheduledAt;
      var row := rows[b];
      db.batches := db.batches[b := row.(status := BatchIssuing, leaseUntil := Some(leaseUntil),
                                         attempts := row.attempts + 1)];
      return Some(b);
    }

    method DegradeExhaustedBatches(now: Time, maxAttempts: int)
      modifies db`batches, db`runs
      ensures db.View() == DegradeExhausted(old(db.View()), now, maxAttempts)
    {
      if !AnyExhausted(db.batches, now, maxAttempts) {
        return;
      }
      db.batches := map b | b in db.batches ::
        if Exhausted(db.batches[b], now, maxAttempts) then
          db.batches[b].(status := BatchDegraded, leaseUntil := None, completedAt := Some(now))
        else db.batches[b];
      assert db.batches == DegradedBatches(old(db.batches), now, maxAttempts);
      ghost var start := db.runs;
      var todo := set b | b in db.batches && db.batches[b].status.BatchDegraded? :: b.run;
      while todo != {}
        invariant db.batches == DegradedBatches(old(db.batches), now, maxAttempts)
        invariant db.runs.Keys == start.Keys
        invariant forall r :: r in todo ==> HasDegraded(db.batches, r)
        invariant forall r :: r in start && !HasDegraded(db.batches, r) ==> db.runs[r] == start[r]
        invariant forall r :: r in start && r in todo ==> db.runs[r] == start[r]
        invariant forall r :: r in start && HasDegraded(db.batches, r) && r !in todo ==>
                    db.runs[r] == start[r].(status := RunDegraded, marker := false)
        decreases todo
      {
        var r :| r in todo;
        todo := todo - {r};
        if r in db.runs {
          db.runs := db.runs[r := db.runs[r].(status := RunDegraded, marker := false)];
        }
      }
      assert db.runs == DegradedRuns(db.batches, start);
    }
  }
}
