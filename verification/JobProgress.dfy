/** Over every interleaving of workers and other transactions: when a job can be claimed again, why a job is given up
    for good, and that a job whose outcome is unknown is only looked up. */
module JobProgress {
  import opened Domain
  import opened Transactions
  import opened Client
  import opened TransferWorker
  import opened PassOutcomes
  import opened Payout
  import opened Fencing
  import TS = TransferStore

  // ---- Claims ----

  /** The latest claim of the job, if any, recorded its result. */
  ghost predicate LastRecorded(s: Sys, j: JobId) {
    var n := |GrantsOf(s.grants, j)|;
    n > 0 ==> n - 1 in RecordedOf(s.recorded, j)
  }

  /** From the history of its claims: a job that is not final can be claimed when its next attempt is due, and, while
      a claim without a result is out, when that claim's lease has run out. */
  ghost predicate MayBeClaimed(s: Sys, j: JobId, now: Time)
    requires j in s.db.jobs
  {
    && !s.db.jobs[j].status.JobSucceeded? && !s.db.jobs[j].status.JobPermanentFailure?
    && if LastRecorded(s, j) then now >= s.db.jobs[j].nextAttemptAt
       else now >= GrantsOf(s.grants, j)[|GrantsOf(s.grants, j)| - 1].token
  }

  lemma ClaimableExactly(cfg: Config, s: Sys, j: JobId, now: Time)
    requires j in s.db.jobs && LeaseOk(cfg, s.db.jobs[j], GrantsOf(s.grants, j), RecordedOf(s.recorded, j))
    ensures TS.Claimable(s.db.jobs[j], now) <==> MayBeClaimed(s, j, now)
  {
  }

  /** The claim of a job: its attempts grow by one, and the worker has a new lease. */
  ghost predicate Claims(s: Sys, s': Sys, w: nat, j: JobId, now: Time, cfg: Config)
    requires j in s.db.jobs
  {
    && j in s'.db.jobs && s'.db.jobs[j].attempts == s.db.jobs[j].attempts + 1 && s'.db.jobs[j].status.JobProcessing?
    && s'.db.jobs[j].leaseUntil == Some(now + cfg.leaseSeconds)
    && GrantsOf(s'.grants, j) == GrantsOf(s.grants, j) + [Grant(now, now + cfg.leaseSeconds)]
    && PcOf(s', w).Claimed? && PcOf(s', w).claim.id == j
    && PcOf(s', w).claim.claimedFrom == s.db.jobs[j].status
  }

  lemma ClaimHappens(s: Sys, w: nat, j: JobId, now: Time, cfg: Config, maxClaims: int, decode: Digest -> Event)
    requires PcOf(s, w).Idle? && j in s.db.jobs
    ensures var s' := Next(s, Claim(w, j, now), cfg, maxClaims, decode);
            if TS.Claimable(s.db.jobs[j], now) then Claims(s, s', w, j, now, cfg) else s' == s
  {
  }

  /** In every reachable state an idle worker's claim succeeds exactly when that holds, and changes nothing
      otherwise. */
  lemma ClaimExactly(actions: seq<Action>, cfg: Config, maxClaims: int, decode: Digest -> Event, w: nat, j: JobId,
                     now: Time)
    requires ValidConfig(cfg)
    requires var s := Run(INITIAL, actions, cfg, maxClaims, decode); PcOf(s, w).Idle? && j in s.db.jobs
    ensures var s := Run(INITIAL, actions, cfg, maxClaims, decode);
            var s' := Next(s, Claim(w, j, now), cfg, maxClaims, decode);
            if MayBeClaimed(s, j, now) then Claims(s, s', w, j, now, cfg) else s' == s
  {
    LeasesRun(cfg, INITIAL, actions, maxClaims, decode);
    var s := Run(INITIAL, actions, cfg, maxClaims, decode);
    ClaimableExactly(cfg, s, j, now);
    ClaimHappens(s, w, j, now, cfg, maxClaims, decode);
  }

  // ---- Final failure ----

  /** The jobs about which the provider answers an action so that no other attempt can help: a lookup or a create
      is rejected for good, or the lookup after a refused create lists nothing. */
  ghost function RefusedJobs(s: Sys, a: Action, decode: Digest -> Event): set<JobId> {
    if !Enabled(s, a, decode) then {}
    else match a
      case Lookup(w, reply) =>
        var pc := PcOf(s, w);
        if Rejects(reply) || (pc.purpose.AfterRefusal? && Misses(reply, TrialTransfer(pc.claim.invoice))) then
          {pc.claim.id}
        else {}
      case Create(w, o) => if o.reply == CreateRaised(OtherError) then {PcOf(s, w).claim.id} else {}
      case _ => {}
  }

  ghost function JobsRefusedIn(s: Sys, actions: seq<Action>, cfg: Config, maxClaims: int,
                               decode: Digest -> Event): set<JobId>
    decreases |actions|
  {
    if actions == [] then {}
    else
      RefusedJobs(s, actions[0], decode)
      + JobsRefusedIn(Next(s, actions[0], cfg, maxClaims, decode), actions[1..], cfg, maxClaims, decode)
  }

  /** The job was refused, or its attempts are used up. */
  ghost predicate HasCause(cfg: Config, refused: set<JobId>, j: JobId, attempts: nat) {
    j in refused || attempts >= cfg.maxAttempts
  }

  /** A worker that means to give its job up, or to look once more before it does, has a cause. */
  ghost predicate WorkerHasCause(cfg: Config, refused: set<JobId>, pc: Pc) {
    (pc.Finishing? && pc.finish.GiveUp?) || (pc.Looking? && pc.purpose.BeforeGivingUp?) ==>
      HasCause(cfg, refused, pc.claim.id, pc.claim.attempts)
  }

  ghost predicate Causes(cfg: Config, refused: set<JobId>, s: Sys) {
    && (forall w :: w in s.workers ==> WorkerHasCause(cfg, refused, s.workers[w]))
    && (forall j :: j in s.db.jobs && s.db.jobs[j].status.JobPermanentFailure? ==>
          HasCause(cfg, refused, j, s.db.jobs[j].attempts))
  }

  lemma LookupCause(cfg: Config, refused: set<JobId>, pc: Pc, reply: LookupReply)
    requires pc.Looking? && WorkerHasCause(cfg, refused, pc)
    requires Rejects(reply) || (pc.purpose.AfterRefusal? && Misses(reply, TrialTransfer(pc.claim.invoice))) ==>
               pc.claim.id in refused
    ensures WorkerHasCause(cfg, refused, OnLookup(cfg, pc.claim, pc.now, pc.purpose,
                                                  Find(reply, CommandOf(pc.claim).external)))
  {
    FindTells(reply, CommandOf(pc.claim).external);
  }

  lemma CauseRecord(cfg: Config, refused: set<JobId>, s: Sys, w: nat)
    requires Causes(cfg, refused, s) && Leases(cfg, s) && PcOf(s, w).Finishing?
    ensures Causes(cfg, refused, RecordNext(s, w))
  {
    var pc := PcOf(s, w);
    assert WorkerLease(cfg, s.grants, s.workers[w]) && WorkerHasCause(cfg, refused, s.workers[w]);
    if TS.FinishJob(s.db.jobs, pc.claim, pc.finish, pc.now).Finished? {
      LatestHolds(cfg, s.db.jobs, s.grants, s.recorded, pc.claim);
      assert LeaseOk(cfg, s.db.jobs[pc.claim.id], GrantsOf(s.grants, pc.claim.id), RecordedOf(s.recorded, pc.claim.id));
    }
  }

  lemma CauseStore(cfg: Config, refused: set<JobId>, s: Sys, txn: Txn, maxClaims: int)
    requires Causes(cfg, refused, s) && (txn.OfJobs? ==> txn.j.RefreshJob?)
    ensures Causes(cfg, refused, StoreNext(s, txn, maxClaims))
  {
    StoreKeepsDispatch(s.db, txn, maxClaims);
    var jobs' := StoreNext(s, txn, maxClaims).db.jobs;
    forall j | j in jobs' && jobs'[j].status.JobPermanentFailure? ensures HasCause(cfg, refused, j, jobs'[j].attempts) {
      assert j in s.db.jobs && SameDispatch(s.db.jobs[j], jobs'[j]);
    }
  }

  lemma CauseWorker(cfg: Config, refused: set<JobId>, s: Sys, a: Action, maxClaims: int, decode: Digest -> Event)
    requires Causes(cfg, refused, s) && RefusedJobs(s, a, decode) <= refused && Enabled(s, a, decode)
    requires a.Claim? || a.ReadClock? || a.Create? || a.Crash?
    ensures Causes(cfg, refused, Next(s, a, cfg, maxClaims, decode))
  {
  }

  lemma CauseLookup(cfg: Config, refused: set<JobId>, s: Sys, w: nat, reply: LookupReply, maxClaims: int,
                    decode: Digest -> Event)
    requires Causes(cfg, refused, s) && Enabled(s, Lookup(w, reply), decode)
    requires RefusedJobs(s, Lookup(w, reply), decode) <= refused
    ensures Causes(cfg, refused, LookupNext(s, w, reply, cfg))
  {
    assert WorkerHasCause(cfg, refused, s.workers[w]);
    LookupCause(cfg, refused, s.workers[w], reply);
  }

  lemma CauseStep(cfg: Config, refused: set<JobId>, s: Sys, a: Action, maxClaims: int, decode: Digest -> Event)
    requires Causes(cfg, refused, s) && Leases(cfg, s) && RefusedJobs(s, a, decode) <= refused
    ensures Causes(cfg, refused, Next(s, a, cfg, maxClaims, decode))
  {
    if Enabled(s, a, decode) {
      match a
      case Store(txn) => CauseStore(cfg, refused, s, txn, maxClaims);
      case Record(w) => CauseRecord(cfg, refused, s, w);
      case Lookup(w, reply) => CauseLookup(cfg, refused, s, w, reply, maxClaims, decode);
      case _ => CauseWorker(cfg, refused, s, a, maxClaims, decode);
    }
  }

  lemma {:induction false} CauseRun(cfg: Config, refused: set<JobId>, s: Sys, actions: seq<Action>, maxClaims: int,
                                    decode: Digest -> Event)
    requires ValidConfig(cfg) && Causes(cfg, refused, s) && Leases(cfg, s)
    requires JobsRefusedIn(s, actions, cfg, maxClaims, decode) <= refused
    ensures Causes(cfg, refused, Run(s, actions, cfg, maxClaims, decode))
    decreases |actions|
  {
    if actions != [] {
      CauseStep(cfg, refused, s, actions[0], maxClaims, decode);
      LeasesNext(cfg, s, actions[0], maxClaims, decode);
      CauseRun(cfg, refused, Next(s, actions[0], cfg, maxClaims, decode), actions[1..], maxClaims, decode);
    }
  }

  /** In every reachable state a job marked as a permanent failure was refused for good by the provider at some point
      of the run, or used up its attempts. */
  lemma FailedForCause(actions: seq<Action>, cfg: Config, maxClaims: int, decode: Digest -> Event, j: JobId)
    requires ValidConfig(cfg)
    requires var s := Run(INITIAL, actions, cfg, maxClaims, decode);
             j in s.db.jobs && s.db.jobs[j].status.JobPermanentFailure?
    ensures j in JobsRefusedIn(INITIAL, actions, cfg, maxClaims, decode)
            || Run(INITIAL, actions, cfg, maxClaims, decode).db.jobs[j].attempts >= cfg.maxAttempts
  {
    CauseRun(cfg, JobsRefusedIn(INITIAL, actions, cfg, maxClaims, decode), INITIAL, actions, maxClaims, decode);
  }

  // ---- Unknown outcomes ----

  /** A worker that holds a claim of a job whose outcome was unknown looks it up or reports. */
  predicate OnlyLooks(pc: Pc) {
    match pc
    case Idle => true
    case Claimed(c, _) => c.claimedFrom.JobUnknown?
    case Looking(_, _, purpose) => purpose.Reconciling?
    case Creating(_, _) => false
    case Finishing(_, _, _) => true
  }

  predicate ClaimsBy(a: Action, w: nat) {
    a.Claim? && a.w == w
  }

  predicate ClaimsOf(a: Action, j: JobId) {
    a.Claim? && a.job == j
  }

  lemma OnlyLooksStep(s: Sys, a: Action, w: nat, cfg: Config, maxClaims: int, decode: Digest -> Event)
    requires OnlyLooks(PcOf(s, w)) && !ClaimsBy(a, w)
    ensures OnlyLooks(PcOf(Next(s, a, cfg, maxClaims, decode), w))
  {
  }

  lemma {:induction false} OnlyLooksRun(s: Sys, actions: seq<Action>, w: nat, cfg: Config, maxClaims: int,
                                        decode: Digest -> Event)
    requires OnlyLooks(PcOf(s, w)) && forall a :: a in actions ==> !ClaimsBy(a, w)
    ensures OnlyLooks(PcOf(Run(s, actions, cfg, maxClaims, decode), w))
    decreases |actions|
  {
    if actions != [] {
      OnlyLooksStep(s, actions[0], w, cfg, maxClaims, decode);
      OnlyLooksRun(Next(s, actions[0], cfg, maxClaims, decode), actions[1..], w, cfg, maxClaims, decode);
    }
  }

  /** Without a claim of its own, a job whose outcome is unknown stays so. */
  lemma UnknownStays(s: Sys, a: Action, j: JobId, cfg: Config, maxClaims: int, decode: Digest -> Event)
    requires j in s.db.jobs && s.db.jobs[j].status.JobUnknown? && !ClaimsOf(a, j)
    ensures var s' := Next(s, a, cfg, maxClaims, decode); j in s'.db.jobs && s'.db.jobs[j].status.JobUnknown?
  {
    if Enabled(s, a, decode) && a.Store? {
      StoreKeepsDispatch(s.db, a.txn, maxClaims);
    }
  }

  lemma {:induction false} UnknownStaysRun(s: Sys, actions: seq<Action>, j: JobId, cfg: Config, maxClaims: int,
                                           decode: Digest -> Event)
    requires j in s.db.jobs && s.db.jobs[j].status.JobUnknown? && forall a :: a in actions ==> !ClaimsOf(a, j)
    ensures var s' := Run(s, actions, cfg, maxClaims, decode); j in s'.db.jobs && s'.db.jobs[j].status.JobUnknown?
    decreases |actions|
  {
    if actions != [] {
      UnknownStays(s, actions[0], j, cfg, maxClaims, decode);
      UnknownStaysRun(Next(s, actions[0], cfg, maxClaims, decode), actions[1..], j, cfg, maxClaims, decode);
    }
  }

  /** The worker holds the job's latest claim, has recorded nothing, and is to report that the outcome is unknown. */
  ghost predicate ReportsUnknown(s: Sys, v: nat, j: JobId) {
    && PcOf(s, v).Finishing? && PcOf(s, v).finish.AwaitLookup? && PcOf(s, v).claim.id == j
    && PcOf(s, v).claim.attempts == |GrantsOf(s.grants, j)|
    && PcOf(s, v).claim.attempts - 1 !in RecordedOf(s.recorded, j)
  }

  lemma UnknownIsRecorded(s: Sys, v: nat, j: JobId, cfg: Config, maxClaims: int, decode: Digest -> Event)
    requires Leases(cfg, s) && ReportsUnknown(s, v, j)
    ensures var s' := Next(s, Record(v), cfg, maxClaims, decode); j in s'.db.jobs && s'.db.jobs[j].status.JobUnknown?
  {
    assert WorkerLease(cfg, s.grants, s.workers[v]);
    assert LeaseOk(cfg, s.db.jobs[j], GrantsOf(s.grants, j), RecordedOf(s.recorded, j));
  }

  /** An unknown outcome is remembered: once the holder of a job's latest claim records that its outcome is unknown,
      whatever happens before the next claim of the job, and whatever happens after it, the worker with that claim
      calls no create until it claims again. */
  lemma UnknownIsOnlyLookedUp(before: seq<Action>, v: nat, j: JobId, between: seq<Action>, w: nat, now: Time,
                              later: seq<Action>, cfg: Config, maxClaims: int, decode: Digest -> Event)
    requires ValidConfig(cfg) && ReportsUnknown(Run(INITIAL, before, cfg, maxClaims, decode), v, j)
    requires forall a :: a in between ==> !ClaimsOf(a, j)
    requires forall a :: a in later ==> !ClaimsBy(a, w)
    ensures var reported := Next(Run(INITIAL, before, cfg, maxClaims, decode), Record(v), cfg, maxClaims, decode);
            var s := Run(reported, between, cfg, maxClaims, decode);
            && j in s.db.jobs && s.db.jobs[j].status.JobUnknown?
            && (Enabled(s, Claim(w, j, now), decode) ==>
                  var claimed := Next(s, Claim(w, j, now), cfg, maxClaims, decode);
                  !PcOf(Run(claimed, later, cfg, maxClaims, decode), w).Creating?)
  {
    var start := Run(INITIAL, before, cfg, maxClaims, decode);
    LeasesRun(cfg, INITIAL, before, maxClaims, decode);
    UnknownIsRecorded(start, v, j, cfg, maxClaims, decode);
    var reported := Next(start, Record(v), cfg, maxClaims, decode);
    UnknownStaysRun(reported, between, j, cfg, maxClaims, decode);
    var s := Run(reported, between, cfg, maxClaims, decode);
    if Enabled(s, Claim(w, j, now), decode) {
      ClaimHappens(s, w, j, now, cfg, maxClaims, decode);
      OnlyLooksRun(Next(s, Claim(w, j, now), cfg, maxClaims, decode), later, w, cfg, maxClaims, decode);
    }
  }
}
