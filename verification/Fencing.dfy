/** Leases on transfer jobs over every interleaving: tokens strictly increase, outdated results are fenced
    off, attempts are bounded, and retries back off. No two workers' clocks need to agree. */
module Fencing {
  import opened Domain
  import opened Tables
  import opened Transactions
  import opened Correspondence
  import opened Collections
  import opened Client
  import opened TransferWorker
  import opened Payout
  import TS = TransferStore

  /** A job waits for its next claim. */
  predicate Waits(row: JobRow) {
    row.status.JobPending? || row.status.JobUnknown?
  }

  predicate Tokens(cfg: Config, gs: seq<Grant>) {
    && (forall i :: 0 <= i < |gs| ==> gs[i].token == gs[i].at + cfg.leaseSeconds)
    && (forall i, k :: 0 <= i < k < |gs| ==> gs[i].token < gs[k].token)
  }

  /** A claim that recorded a result and was followed by another was not a last attempt, and the next one
      came after its backoff. */
  predicate SpacedAfter(cfg: Config, gs: seq<Grant>, i: int) {
    && 0 <= i < |gs|
    && (i + 1 < |gs| ==> i + 1 < cfg.maxAttempts && gs[i + 1].at >= gs[i].at + Backoff(cfg, i + 1))
  }

  ghost predicate Spaced(cfg: Config, gs: seq<Grant>, rec: set<int>) {
    forall i :: i in rec ==> SpacedAfter(cfg, gs, i)
  }

  /** What a job's row says about its claims. */
  ghost predicate RowAgrees(cfg: Config, row: JobRow, gs: seq<Grant>, rec: set<int>) {
    && row.attempts == |gs|
    && (row.status.JobProcessing? ==> |gs| > 0 && row.leaseUntil == Some(gs[|gs| - 1].token) && |gs| - 1 !in rec)
    && (!row.status.JobProcessing? && |gs| > 0 ==> |gs| - 1 in rec)
    && (Waits(row) && |gs| > 0 ==>
          |gs| < cfg.maxAttempts && row.nextAttemptAt >= gs[|gs| - 1].at + Backoff(cfg, |gs|))
  }

  ghost predicate LeaseOk(cfg: Config, row: JobRow, gs: seq<Grant>, rec: set<int>) {
    Tokens(cfg, gs) && Spaced(cfg, gs, rec) && RowAgrees(cfg, row, gs, rec)
  }

  ghost predicate JobLeases(cfg: Config, jobs: map<JobId, JobRow>, grants: map<JobId, seq<Grant>>,
                            recorded: map<JobId, set<int>>)
  {
    && (forall j :: j in jobs ==> LeaseOk(cfg, jobs[j], GrantsOf(grants, j), RecordedOf(recorded, j)))
    && (forall j :: j !in jobs ==> GrantsOf(grants, j) == [] && RecordedOf(recorded, j) == {})
  }

  /** The claim is the one granted under its number. */
  ghost predicate Granted(grants: map<JobId, seq<Grant>>, c: TS.Claim) {
    && 1 <= c.attempts <= |GrantsOf(grants, c.id)|
    && GrantsOf(grants, c.id)[c.attempts - 1].token == c.leaseUntil
  }

  /** A worker acts under a granted claim, later than it was granted, and asks for another attempt only
      while attempts remain, after the backoff of its claim. */
  ghost predicate WorkerLease(cfg: Config, grants: map<JobId, seq<Grant>>, pc: Pc) {
    pc.Idle? || (
      && Granted(grants, pc.claim)
      && (if pc.Claimed? then pc.at else pc.now) >= GrantsOf(grants, pc.claim.id)[pc.claim.attempts - 1].at
      && (pc.Finishing? && (pc.finish.RetryLater? || pc.finish.AwaitLookup?) ==>
            pc.claim.attempts < cfg.maxAttempts && pc.finish.delay == Backoff(cfg, pc.claim.attempts)))
  }

  ghost predicate WorkerLeases(cfg: Config, grants: map<JobId, seq<Grant>>, workers: map<nat, Pc>) {
    forall w :: w in workers ==> WorkerLease(cfg, grants, workers[w])
  }

  ghost predicate Leases(cfg: Config, s: Sys) {
    JobLeases(cfg, s.db.jobs, s.grants, s.recorded) && WorkerLeases(cfg, s.grants, s.workers)
  }

  // ---- One job ----

  lemma LeaseClaim(cfg: Config, row: JobRow, gs: seq<Grant>, rec: set<int>, now: Time)
    requires ValidConfig(cfg) && LeaseOk(cfg, row, gs, rec) && TS.Claimable(row, now)
    ensures var token := now + cfg.leaseSeconds;
            LeaseOk(cfg, TS.ClaimedRow(row, now, token), gs + [Grant(now, token)], rec)
  {
    var n := |gs|;
    if n > 0 {
      assert now >= gs[n - 1].token || (n - 1 in rec && now >= gs[n - 1].at + Backoff(cfg, n));
    }
  }

  lemma LeaseFinish(cfg: Config, row: JobRow, gs: seq<Grant>, rec: set<int>, f: TS.Finish, now: Time)
    requires LeaseOk(cfg, row, gs, rec) && row.status.JobProcessing? && now >= gs[|gs| - 1].at
    requires f.RetryLater? || f.AwaitLookup? ==> |gs| < cfg.maxAttempts && f.delay == Backoff(cfg, |gs|)
    ensures LeaseOk(cfg, TS.FinishedRow(row, f, now), gs, rec + {|gs| - 1})
  {
  }

  /** Only the latest claim of a job under processing holds its lease. */
  lemma LatestHolds(cfg: Config, jobs: map<JobId, JobRow>, grants: map<JobId, seq<Grant>>,
                    recorded: map<JobId, set<int>>, c: TS.Claim)
    requires JobLeases(cfg, jobs, grants, recorded) && Granted(grants, c) && TS.Holds(jobs, c)
    ensures c.attempts == |GrantsOf(grants, c.id)| && |GrantsOf(grants, c.id)| - 1 !in RecordedOf(recorded, c.id)
  {
    assert LeaseOk(cfg, jobs[c.id], GrantsOf(grants, c.id), RecordedOf(recorded, c.id));
  }

  // ---- Steps ----

  /** Writing one job's row and history. */
  lemma JobLeaseWrite(cfg: Config, jobs: map<JobId, JobRow>, grants: map<JobId, seq<Grant>>,
                      recorded: map<JobId, set<int>>, j: JobId, row: JobRow, grants': map<JobId, seq<Grant>>,
                      recorded': map<JobId, set<int>>)
    requires JobLeases(cfg, jobs, grants, recorded)
    requires forall k :: k != j ==>
               GrantsOf(grants', k) == GrantsOf(grants, k) && RecordedOf(recorded', k) == RecordedOf(recorded, k)
    requires LeaseOk(cfg, row, GrantsOf(grants', j), RecordedOf(recorded', j))
    ensures JobLeases(cfg, jobs[j := row], grants', recorded')
  {
    var jobs' := jobs[j := row];
    forall k | k in jobs' ensures LeaseOk(cfg, jobs'[k], GrantsOf(grants', k), RecordedOf(recorded', k)) {
      assert k != j ==> LeaseOk(cfg, jobs[k], GrantsOf(grants, k), RecordedOf(recorded, k));
    }
  }

  /** Claims in workers' hands survive more grants, and one worker's step. */
  lemma WorkerLeaseStep(cfg: Config, grants: map<JobId, seq<Grant>>, workers: map<nat, Pc>,
                        grants': map<JobId, seq<Grant>>, w: nat, pc: Pc)
    requires WorkerLeases(cfg, grants, workers) && WorkerLease(cfg, grants', pc)
    requires forall j :: GrantsOf(grants, j) <= GrantsOf(grants', j)
    ensures WorkerLeases(cfg, grants', workers[w := pc])
  {
    var workers' := workers[w := pc];
    forall v | v in workers' ensures WorkerLease(cfg, grants', workers'[v]) {
      if v != w && !workers[v].Idle? {
        assert WorkerLease(cfg, grants, workers[v]);
        assert GrantsOf(grants, workers[v].claim.id) <= GrantsOf(grants', workers[v].claim.id);
      }
    }
  }

  lemma JobLeasesClaim(cfg: Config, s: Sys, w: nat, j: JobId, now: Time)
    requires ValidConfig(cfg) && JobLeases(cfg, s.db.jobs, s.grants, s.recorded)
    requires j in s.db.jobs && TS.Claimable(s.db.jobs[j], now)
    ensures var s' := ClaimNext(s, w, j, now, cfg); JobLeases(cfg, s'.db.jobs, s'.grants, s'.recorded)
  {
    var s' := ClaimNext(s, w, j, now, cfg);
    LeaseClaim(cfg, s.db.jobs[j], GrantsOf(s.grants, j), RecordedOf(s.recorded, j), now);
    JobLeaseWrite(cfg, s.db.jobs, s.grants, s.recorded, j, s'.db.jobs[j], s'.grants, s'.recorded);
  }

  lemma WorkerLeasesClaim(cfg: Config, s: Sys, w: nat, j: JobId, now: Time)
    requires WorkerLeases(cfg, s.grants, s.workers)
    requires j in s.db.jobs && s.db.jobs[j].attempts == |GrantsOf(s.grants, j)|
    ensures var s' := ClaimNext(s, w, j, now, cfg); WorkerLeases(cfg, s'.grants, s'.workers)
  {
    var s' := ClaimNext(s, w, j, now, cfg);
    assert GrantsOf(s'.grants, j) == GrantsOf(s.grants, j) + [Grant(now, now + cfg.leaseSeconds)];
    forall k ensures GrantsOf(s.grants, k) <= GrantsOf(s'.grants, k) {
    }
    WorkerLeaseStep(cfg, s.grants, s.workers, s'.grants, w, s'.workers[w]);
  }

  lemma LeasesClaim(cfg: Config, s: Sys, w: nat, j: JobId, now: Time)
    requires ValidConfig(cfg) && Leases(cfg, s) && j in s.db.jobs && TS.Claimable(s.db.jobs[j], now)
    ensures Leases(cfg, ClaimNext(s, w, j, now, cfg))
  {
    JobLeasesClaim(cfg, s, w, j, now);
    assert LeaseOk(cfg, s.db.jobs[j], GrantsOf(s.grants, j), RecordedOf(s.recorded, j));
    WorkerLeasesClaim(cfg, s, w, j, now);
  }

  lemma LeasesRecord(cfg: Config, s: Sys, w: nat)
    requires Leases(cfg, s) && PcOf(s, w).Finishing?
    ensures Leases(cfg, RecordNext(s, w))
  {
    var s' := RecordNext(s, w);
    var pc := PcOf(s, w);
    assert WorkerLease(cfg, s.grants, s.workers[w]);
    WorkerLeaseStep(cfg, s.grants, s.workers, s.grants, w, Idle);
    if TS.FinishJob(s.db.jobs, pc.claim, pc.finish, pc.now).Finished? {
      var j := pc.claim.id;
      LatestHolds(cfg, s.db.jobs, s.grants, s.recorded, pc.claim);
      assert LeaseOk(cfg, s.db.jobs[j], GrantsOf(s.grants, j), RecordedOf(s.recorded, j));
      LeaseFinish(cfg, s.db.jobs[j], GrantsOf(s.grants, j), RecordedOf(s.recorded, j), pc.finish, pc.now);
      JobLeaseWrite(cfg, s.db.jobs, s.grants, s.recorded, j, s'.db.jobs[j], s'.grants, s'.recorded);
    }
  }

  lemma LookupLease(cfg: Config, grants: map<JobId, seq<Grant>>, pc: Pc, r: Found)
    requires WorkerLease(cfg, grants, pc) && pc.Looking?
    ensures WorkerLease(cfg, grants, OnLookup(cfg, pc.claim, pc.now, pc.purpose, r))
  {
  }

  lemma CreateLease(cfg: Config, grants: map<JobId, seq<Grant>>, pc: Pc, o: CreateOutcome)
    requires WorkerLease(cfg, grants, pc) && pc.Creating?
    ensures WorkerLease(cfg, grants, OnCreate(cfg, pc.claim, pc.now, o))
  {
  }

  lemma LeasesStore(cfg: Config, s: Sys, txn: Txn, maxClaims: int)
    requires Leases(cfg, s) && (txn.OfJobs? ==> txn.j.RefreshJob?)
    ensures Leases(cfg, StoreNext(s, txn, maxClaims))
  {
    var jobs' := StoreNext(s, txn, maxClaims).db.jobs;
    StoreKeepsDispatch(s.db, txn, maxClaims);
    forall j | j in jobs' ensures LeaseOk(cfg, jobs'[j], GrantsOf(s.grants, j), RecordedOf(s.recorded, j)) {
      assert j in s.db.jobs ==> LeaseOk(cfg, s.db.jobs[j], GrantsOf(s.grants, j), RecordedOf(s.recorded, j));
    }
  }

  /** A worker's own moves, and its death. */
  lemma LeasesWorker(cfg: Config, s: Sys, a: Action, maxClaims: int, decode: Digest -> Event)
    requires ValidConfig(cfg) && Leases(cfg, s) && Enabled(s, a, decode)
    requires a.ReadClock? || a.Lookup? || a.Create? || a.Crash?
    ensures Leases(cfg, Next(s, a, cfg, maxClaims, decode))
  {
    if a.Crash? {
      WorkerLeaseStep(cfg, s.grants, s.workers, s.grants, a.w, Idle);
    } else {
      var pc := s.workers[a.w];
      assert WorkerLease(cfg, s.grants, pc);
      if a.ReadClock? {
        WorkerLeaseStep(cfg, s.grants, s.workers, s.grants, a.w, Start(pc.claim, a.now));
      } else if a.Lookup? {
        var r := Find(a.reply, CommandOf(pc.claim).external);
        LookupLease(cfg, s.grants, pc, r);
        WorkerLeaseStep(cfg, s.grants, s.workers, s.grants, a.w, OnLookup(cfg, pc.claim, pc.now, pc.purpose, r));
      } else {
        CreateLease(cfg, s.grants, pc, a.outcome);
        WorkerLeaseStep(cfg, s.grants, s.workers, s.grants, a.w, OnCreate(cfg, pc.claim, pc.now, a.outcome));
      }
    }
  }

  lemma LeasesNext(cfg: Config, s: Sys, a: Action, maxClaims: int, decode: Digest -> Event)
    requires ValidConfig(cfg) && Leases(cfg, s)
    ensures Leases(cfg, Next(s, a, cfg, maxClaims, decode))
  {
    if Enabled(s, a, decode) {
      match a
      case Store(txn) => LeasesStore(cfg, s, txn, maxClaims);
      case Claim(w, j, now) => LeasesClaim(cfg, s, w, j, now);
      case Record(w) => LeasesRecord(cfg, s, w);
      case _ => LeasesWorker(cfg, s, a, maxClaims, decode);
    }
  }

  lemma {:induction false} LeasesRun(cfg: Config, s: Sys, actions: seq<Action>, maxClaims: int, decode: Digest -> Event)
    requires ValidConfig(cfg) && Leases(cfg, s)
    ensures Leases(cfg, Run(s, actions, cfg, maxClaims, decode))
    decreases |actions|
  {
    if actions != [] {
      LeasesNext(cfg, s, actions[0], maxClaims, decode);
      LeasesRun(cfg, Next(s, actions[0], cfg, maxClaims, decode), actions[1..], maxClaims, decode);
    }
  }

  // ---- Main results ----

  /** A job's lease tokens strictly increase from claim to claim. */
  lemma TokensIncrease(cfg: Config, actions: seq<Action>, maxClaims: int, decode: Digest -> Event, j: JobId, i: int,
                       k: int)
    requires ValidConfig(cfg)
    requires 0 <= i < k < |GrantsOf(Run(INITIAL, actions, cfg, maxClaims, decode).grants, j)|
    ensures var gs := GrantsOf(Run(INITIAL, actions, cfg, maxClaims, decode).grants, j); gs[i].token < gs[k].token
  {
    LeasesRun(cfg, INITIAL, actions, maxClaims, decode);
    var s := Run(INITIAL, actions, cfg, maxClaims, decode);
    assert LeaseOk(cfg, s.db.jobs[j], GrantsOf(s.grants, j), RecordedOf(s.recorded, j));
  }

  /** A result reported under the i-th claim of a job passes the fence exactly when that claim is the latest
      and has not recorded one; a fenced report changes nothing. */
  lemma Fenced(cfg: Config, actions: seq<Action>, maxClaims: int, decode: Digest -> Event, c: TS.Claim, i: int,
               f: TS.Finish, now: Time)
    requires ValidConfig(cfg)
    requires var s := Run(INITIAL, actions, cfg, maxClaims, decode);
             0 <= i < |GrantsOf(s.grants, c.id)| && c.leaseUntil == GrantsOf(s.grants, c.id)[i].token
    ensures var s := Run(INITIAL, actions, cfg, maxClaims, decode);
            var r := TS.FinishJob(s.db.jobs, c, f, now);
            (r.Fenced? <==> i < |GrantsOf(s.grants, c.id)| - 1 || i in RecordedOf(s.recorded, c.id))
            && (r.Fenced? ==> TS.AfterFinish(s.db.jobs, r) == s.db.jobs)
  {
    LeasesRun(cfg, INITIAL, actions, maxClaims, decode);
    var s := Run(INITIAL, actions, cfg, maxClaims, decode);
    assert c.id in s.db.jobs;
    assert LeaseOk(cfg, s.db.jobs[c.id], GrantsOf(s.grants, c.id), RecordedOf(s.recorded, c.id));
  }

  /** Jobs are never lost, keep their identity, and keep a terminal status. */
  lemma {:induction false} TerminalForever(s: Sys, actions: seq<Action>, cfg: Config, maxClaims: int,
                                           decode: Digest -> Event, j: JobId)
    requires j in s.db.jobs
    ensures var s' := Run(s, actions, cfg, maxClaims, decode);
            j in s'.db.jobs && JobKept(s.db.jobs[j], s'.db.jobs[j])
    decreases |actions|
  {
    if actions != [] {
      var s' := Next(s, actions[0], cfg, maxClaims, decode);
      StepKeepsJob(s, actions[0], cfg, maxClaims, decode, j);
      TerminalForever(s', actions[1..], cfg, maxClaims, decode, j);
    }
  }

  lemma StepKeepsJob(s: Sys, a: Action, cfg: Config, maxClaims: int, decode: Digest -> Event, j: JobId)
    requires j in s.db.jobs
    ensures var s' := Next(s, a, cfg, maxClaims, decode); j in s'.db.jobs && JobKept(s.db.jobs[j], s'.db.jobs[j])
  {
    if Enabled(s, a, decode) && a.Store? {
      StoreKeepsDispatch(s.db, a.txn, maxClaims);
    }
  }

  /** The claims of a job whose holder recorded no result. */
  function Unrecorded(n: nat, rec: set<int>): set<int> {
    Upto(n) - rec
  }

  lemma FewRecorded(cfg: Config, gs: seq<Grant>, rec: set<int>)
    requires Spaced(cfg, gs, rec) && ValidConfig(cfg)
    ensures |gs| <= cfg.maxAttempts + |Unrecorded(|gs|, rec)|
  {
    var n := |gs|;
    if n > cfg.maxAttempts {
      var late := Upto(n - 1) - Upto(cfg.maxAttempts - 1);
      assert Upto(cfg.maxAttempts - 1) <= Upto(n - 1);
      assert |late| == n - cfg.maxAttempts;
      forall i | i in rec ensures i !in late {
        assert SpacedAfter(cfg, gs, i);
        assert i in Upto(n - 1) ==> i in Upto(cfg.maxAttempts - 1);
      }
      SubsetSize(late, Unrecorded(n, rec));
    }
  }

  /** With M attempts configured, a job is claimed at most M times more than claims recorded no result. */
  lemma ClaimsBounded(cfg: Config, actions: seq<Action>, maxClaims: int, decode: Digest -> Event, j: JobId)
    requires ValidConfig(cfg)
    ensures var s := Run(INITIAL, actions, cfg, maxClaims, decode);
            var n := |GrantsOf(s.grants, j)|;
            n <= cfg.maxAttempts + |Unrecorded(n, RecordedOf(s.recorded, j))|
            && (j in s.db.jobs ==> s.db.jobs[j].attempts == n)
  {
    LeasesRun(cfg, INITIAL, actions, maxClaims, decode);
    var s := Run(INITIAL, actions, cfg, maxClaims, decode);
    if j in s.db.jobs {
      assert LeaseOk(cfg, s.db.jobs[j], GrantsOf(s.grants, j), RecordedOf(s.recorded, j));
      FewRecorded(cfg, GrantsOf(s.grants, j), RecordedOf(s.recorded, j));
    }
  }

  /** The least time between the first and the n-th claim, in units of the retry base. */
  function Spread(n: nat): int
    requires n >= 1
  {
    if n <= 10 then Pow2(n - 1) - 1 else 511 + 256 * (n - 10)
  }

  lemma SpreadStep(n: nat)
    requires n >= 1
    ensures Spread(n + 1) == Spread(n) + Pow2(Min(n - 1, 8))
  {
    assert Pow2(9) == 512 && Pow2(8) == 256 by {
      assert Pow2(4) == 16 && Pow2(5) == 32 && Pow2(6) == 64 && Pow2(7) == 128;
    }
  }

  lemma {:induction false} SpacedOut(cfg: Config, gs: seq<Grant>, rec: set<int>, n: nat)
    requires Spaced(cfg, gs, rec) && 1 <= n <= |gs|
    requires forall i :: 0 <= i < n - 1 ==> i in rec
    ensures gs[n - 1].at >= gs[0].at + cfg.retryBase * Spread(n)
  {
    if n > 1 {
      SpacedOut(cfg, gs, rec, n - 1);
      SpreadStep(n - 1);
      assert SpacedAfter(cfg, gs, n - 2);
      assert Backoff(cfg, n - 1) == cfg.retryBase * Pow2(Min(n - 2, 8));
      assert cfg.retryBase * (Spread(n - 1) + Pow2(Min(n - 2, 8)))
          == cfg.retryBase * Spread(n - 1) + cfg.retryBase * Pow2(Min(n - 2, 8));
    }
  }

  /** When every claim before the n-th recorded its result, the n-th claim comes at least
      base * (2^(n-1) - 1) after the first for n <= 10, and base * (511 + 256 (n - 10)) from then on. */
  lemma ClaimsBackOff(cfg: Config, actions: seq<Action>, maxClaims: int, decode: Digest -> Event, j: JobId, n: nat)
    requires ValidConfig(cfg)
    requires var s := Run(INITIAL, actions, cfg, maxClaims, decode);
             1 <= n <= |GrantsOf(s.grants, j)| && forall i :: 0 <= i < n - 1 ==> i in RecordedOf(s.recorded, j)
    ensures var gs := GrantsOf(Run(INITIAL, actions, cfg, maxClaims, decode).grants, j);
            gs[n - 1].at >= gs[0].at + cfg.retryBase * (if n <= 10 then Pow2(n - 1) - 1 else 511 + 256 * (n - 10))
  {
    LeasesRun(cfg, INITIAL, actions, maxClaims, decode);
    var s := Run(INITIAL, actions, cfg, maxClaims, decode);
    assert LeaseOk(cfg, s.db.jobs[j], GrantsOf(s.grants, j), RecordedOf(s.recorded, j));
    SpacedOut(cfg, GrantsOf(s.grants, j), RecordedOf(s.recorded, j), n);
  }
}
