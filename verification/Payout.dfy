/** Any number of workers, deliveries and other transactions, interleaved one store transaction or one
    provider call at a time, with lost replies and crashes: each invoice is paid at most once, the right
    amount, and every job marked succeeded has its transfer. */
module Payout {
  import opened Domain
  import opened Tables
  import opened Transactions
  import opened Correspondence
  import opened Client
  import opened TransferWorker
  import ES = EventStore
  import TS = TransferStore

  /** A claim as it was granted: when, and under which lease. */
  datatype Grant = Grant(at: Time, token: Time)

  /** `grants` and `recorded` are the history of each job: its claims, and which of them recorded a result. */
  datatype Sys = Sys(db: Db, transfers: seq<Transfer>, workers: map<nat, Pc>,
                     grants: map<JobId, seq<Grant>>, recorded: map<JobId, set<int>>)

  const INITIAL: Sys := Sys(EMPTY_DB, [], map[], map[], map[])

  datatype Action =
    | Store(txn: Txn)
    | Claim(w: nat, job: JobId, now: Time)
    | ReadClock(w: nat, now: Time)
    | Lookup(w: nat, reply: LookupReply)
    | Create(w: nat, outcome: CreateOutcome)
    | Record(w: nat)
    | Crash(w: nat)

  function PcOf(s: Sys, w: nat): Pc {
    if w in s.workers then s.workers[w] else Idle
  }

  function GrantsOf(grants: map<JobId, seq<Grant>>, j: JobId): seq<Grant> {
    if j in grants then grants[j] else []
  }

  function RecordedOf(recorded: map<JobId, set<int>>, j: JobId): set<int> {
    if j in recorded then recorded[j] else {}
  }

  /** What may happen next: transactions of the other services, and each worker's next call. Queries list
      existing transfers, a create is accepted only when it takes effect under a new external id, and a
      worker's second clock reading is not before its first. */
  ghost predicate Enabled(s: Sys, a: Action, decode: Digest -> Event) {
    match a
    case Store(txn) => match txn {
      case OfEvents(e) => Authentic(e, decode)
      case OfJobs(j) => j.RefreshJob?
      case _ => true
    }
    case Claim(w, j, now) => PcOf(s, w).Idle? && j in s.db.jobs && TS.Claimable(s.db.jobs[j], now)
    case ReadClock(w, now) => PcOf(s, w).Claimed? && PcOf(s, w).at <= now
    case Lookup(w, reply) => PcOf(s, w).Looking? && TruthfulLookup(s.transfers, reply)
    case Create(w, o) => PcOf(s, w).Creating? && TruthfulCreate(s.transfers, CommandOf(PcOf(s, w).claim), o)
    case Record(w) => PcOf(s, w).Finishing?
    case Crash(w) => true
  }

  ghost function StoreNext(s: Sys, txn: Txn, maxClaims: int): Sys {
    s.(db := Step(s.db, txn, maxClaims))
  }

  function ClaimNext(s: Sys, w: nat, j: JobId, now: Time, cfg: Config): Sys
    requires j in s.db.jobs
  {
    var token := now + cfg.leaseSeconds;
    s.(db := s.db.(jobs := s.db.jobs[j := TS.ClaimedRow(s.db.jobs[j], now, token)]),
       workers := s.workers[w := Claimed(TS.ClaimOf(j, s.db.jobs[j], token), now)],
       grants := s.grants[j := GrantsOf(s.grants, j) + [Grant(now, token)]])
  }

  function LookupNext(s: Sys, w: nat, reply: LookupReply, cfg: Config): Sys
    requires PcOf(s, w).Looking?
  {
    var pc := PcOf(s, w);
    s.(workers := s.workers[w := OnLookup(cfg, pc.claim, pc.now, pc.purpose,
                                          Find(reply, CommandOf(pc.claim).external))])
  }

  function CreateNext(s: Sys, w: nat, o: CreateOutcome, cfg: Config): Sys
    requires PcOf(s, w).Creating?
  {
    var pc := PcOf(s, w);
    s.(workers := s.workers[w := OnCreate(cfg, pc.claim, pc.now, o)],
       transfers := Admit(s.transfers, CommandOf(pc.claim), o))
  }

  ghost function RecordNext(s: Sys, w: nat): Sys
    requires PcOf(s, w).Finishing?
  {
    var pc := PcOf(s, w);
    var f := TS.FinishJob(s.db.jobs, pc.claim, pc.finish, pc.now);
    var id := pc.claim.id;
    s.(db := s.db.(jobs := TS.AfterFinish(s.db.jobs, f)), workers := s.workers[w := Idle],
       recorded := if f.Finished? then s.recorded[id := RecordedOf(s.recorded, id) + {pc.claim.attempts - 1}]
                   else s.recorded)
  }

  ghost function Next(s: Sys, a: Action, cfg: Config, maxClaims: int, decode: Digest -> Event): Sys {
    if !Enabled(s, a, decode) then s
    else match a
      case Store(txn) => StoreNext(s, txn, maxClaims)
      case Claim(w, j, now) => ClaimNext(s, w, j, now, cfg)
      case ReadClock(w, now) => s.(workers := s.workers[w := Start(PcOf(s, w).claim, now)])
      case Lookup(w, reply) => LookupNext(s, w, reply, cfg)
      case Create(w, o) => CreateNext(s, w, o, cfg)
      case Record(w) => RecordNext(s, w)
      case Crash(w) => s.(workers := s.workers[w := Idle])
  }

  ghost function Run(s: Sys, actions: seq<Action>, cfg: Config, maxClaims: int, decode: Digest -> Event): Sys
    decreases |actions|
  {
    if actions == [] then s else Run(Next(s, actions[0], cfg, maxClaims, decode), actions[1..], cfg, maxClaims, decode)
  }

  // ---- Money ----

  /** A transfer pays the job of its invoice, and its net amount. */
  ghost predicate Pays(t: Transfer, job: JobRow) {
    t.external == TrialTransfer(job.invoice) && t.amount == job.net
  }

  ghost predicate PaysSome(jobs: map<JobId, JobRow>, t: Transfer) {
    exists j :: j in jobs && Pays(t, jobs[j])
  }

  /** A claim in a worker's hands still names the job's invoice and net amount. */
  ghost predicate Current(jobs: map<JobId, JobRow>, c: TS.Claim) {
    c.id in jobs && jobs[c.id].invoice == c.invoice && jobs[c.id].net == c.net
  }

  ghost predicate WorkerOk(jobs: map<JobId, JobRow>, transfers: seq<Transfer>, pc: Pc) {
    pc.Idle? || (Current(jobs, pc.claim)
      && (pc.Finishing? && pc.finish.Succeed? ==> Client.Holds(transfers, TrialTransfer(pc.claim.invoice))))
  }

  ghost predicate WorkersOk(jobs: map<JobId, JobRow>, transfers: seq<Transfer>, workers: map<nat, Pc>) {
    forall w :: w in workers ==> WorkerOk(jobs, transfers, workers[w])
  }

  ghost predicate DistinctExternals(transfers: seq<Transfer>) {
    forall i, k :: 0 <= i < k < |transfers| ==> transfers[i].external != transfers[k].external
  }

  /** Transfers have distinct external ids and pay jobs; succeeded jobs have their transfer. */
  ghost predicate Ledger(jobs: map<JobId, JobRow>, transfers: seq<Transfer>) {
    && DistinctExternals(transfers)
    && (forall i :: 0 <= i < |transfers| ==> PaysSome(jobs, transfers[i]))
    && (forall j :: j in jobs && jobs[j].status.JobSucceeded? ==>
          Client.Holds(transfers, TrialTransfer(jobs[j].invoice)))
  }

  ghost predicate Money(s: Sys, decode: Digest -> Event) {
    && Corresponds(s.db.events, s.db.jobs, decode)
    && WorkersOk(s.db.jobs, s.transfers, s.workers)
    && Ledger(s.db.jobs, s.transfers)
  }

  /** Jobs keep their identity and amounts; no new one is succeeded, except those whose transfer exists. */
  ghost predicate JobsGrow(jobs: map<JobId, JobRow>, jobs': map<JobId, JobRow>, transfers: seq<Transfer>) {
    && (forall j :: j in jobs ==> j in jobs' && SameJob(jobs[j], jobs'[j]))
    && (forall j :: j in jobs' && jobs'[j].status.JobSucceeded? ==>
          (j in jobs && jobs[j].status.JobSucceeded?) || Client.Holds(transfers, TrialTransfer(jobs'[j].invoice)))
  }

  lemma LedgerJobs(jobs: map<JobId, JobRow>, jobs': map<JobId, JobRow>, transfers: seq<Transfer>, workers: map<nat, Pc>)
    requires Ledger(jobs, transfers) && WorkersOk(jobs, transfers, workers) && JobsGrow(jobs, jobs', transfers)
    ensures Ledger(jobs', transfers) && WorkersOk(jobs', transfers, workers)
  {
    forall i | 0 <= i < |transfers| ensures PaysSome(jobs', transfers[i]) {
      assert PaysSome(jobs, transfers[i]);
      var j :| j in jobs && Pays(transfers[i], jobs[j]);
      assert Pays(transfers[i], jobs'[j]);
    }
    forall w | w in workers ensures WorkerOk(jobs', transfers, workers[w]) {
      assert WorkerOk(jobs, transfers, workers[w]);
    }
  }

  lemma WorkerStep(jobs: map<JobId, JobRow>, transfers: seq<Transfer>, workers: map<nat, Pc>, w: nat, pc: Pc)
    requires WorkersOk(jobs, transfers, workers) && WorkerOk(jobs, transfers, pc)
    ensures WorkersOk(jobs, transfers, workers[w := pc])
  {
    var workers' := workers[w := pc];
    forall v | v in workers' ensures WorkerOk(jobs, transfers, workers'[v]) {
      assert v != w ==> WorkerOk(jobs, transfers, workers[v]);
    }
  }

  /** Rewriting a job's row, its identity kept, and then a worker's state. */
  lemma LedgerJobWrite(jobs: map<JobId, JobRow>, transfers: seq<Transfer>, workers: map<nat, Pc>, j: JobId, row: JobRow,
                       w: nat, pc: Pc)
    requires Ledger(jobs, transfers) && WorkersOk(jobs, transfers, workers)
    requires j in jobs && SameJob(jobs[j], row)
    requires row.status.JobSucceeded? ==>
               jobs[j].status.JobSucceeded? || Client.Holds(transfers, TrialTransfer(row.invoice))
    requires WorkerOk(jobs[j := row], transfers, pc)
    ensures Ledger(jobs[j := row], transfers) && WorkersOk(jobs[j := row], transfers, workers[w := pc])
  {
    assert JobsGrow(jobs, jobs[j := row], transfers);
    LedgerJobs(jobs, jobs[j := row], transfers, workers);
    WorkerStep(jobs[j := row], transfers, workers, w, pc);
  }

  lemma LedgerClaim(s: Sys, w: nat, j: JobId, now: Time, cfg: Config)
    requires Ledger(s.db.jobs, s.transfers) && WorkersOk(s.db.jobs, s.transfers, s.workers) && j in s.db.jobs
    ensures var s' := ClaimNext(s, w, j, now, cfg);
            Ledger(s'.db.jobs, s'.transfers) && WorkersOk(s'.db.jobs, s'.transfers, s'.workers)
  {
    var token := now + cfg.leaseSeconds;
    LedgerJobWrite(s.db.jobs, s.transfers, s.workers, j, TS.ClaimedRow(s.db.jobs[j], now, token), w,
                   Claimed(TS.ClaimOf(j, s.db.jobs[j], token), now));
  }

  lemma ClaimIsLease(s: Sys, w: nat, j: JobId, now: Time, cfg: Config)
    requires j in s.db.jobs && TS.Claimable(s.db.jobs[j], now)
    ensures ClaimNext(s, w, j, now, cfg).db
              == s.db.(jobs := JobStep(s.db.jobs, LeaseJob(j, now, now + cfg.leaseSeconds)))
  {
  }

  lemma MoneyClaim(s: Sys, w: nat, j: JobId, now: Time, cfg: Config, decode: Digest -> Event)
    requires Money(s, decode) && j in s.db.jobs && TS.Claimable(s.db.jobs[j], now)
    ensures Money(ClaimNext(s, w, j, now, cfg), decode)
  {
    ClaimIsLease(s, w, j, now, cfg);
    CorrespondenceDispatch(s.db, LeaseJob(j, now, now + cfg.leaseSeconds), decode);
    LedgerClaim(s, w, j, now, cfg);
  }

  /** Admitting a transfer under the command of a current claim keeps the ledger. */
  lemma LedgerAdmit(jobs: map<JobId, JobRow>, transfers: seq<Transfer>, workers: map<nat, Pc>, c: TS.Claim,
                    o: CreateOutcome)
    requires Ledger(jobs, transfers) && WorkersOk(jobs, transfers, workers) && Current(jobs, c)
    ensures var transfers' := Admit(transfers, CommandOf(c), o);
            && Ledger(jobs, transfers') && WorkersOk(jobs, transfers', workers)
            && (o.takesEffect ==> Client.Holds(transfers', TrialTransfer(c.invoice)))
  {
    var transfers' := Admit(transfers, CommandOf(c), o);
    if transfers' != transfers {
      assert Pays(transfers'[|transfers|], jobs[c.id]);
      forall x | Client.Holds(transfers, x) ensures Client.Holds(transfers', x) {
        var i :| 0 <= i < |transfers| && transfers[i].external == x;
        assert transfers'[i].external == x;
      }
      assert transfers'[|transfers|].external == TrialTransfer(c.invoice);
      forall w | w in workers ensures WorkerOk(jobs, transfers', workers[w]) {
        assert WorkerOk(jobs, transfers, workers[w]);
      }
    }
  }

  lemma MoneyCreate(s: Sys, w: nat, o: CreateOutcome, cfg: Config, decode: Digest -> Event)
    requires Money(s, decode) && PcOf(s, w).Creating? && TruthfulCreate(s.transfers, CommandOf(PcOf(s, w).claim), o)
    ensures Money(CreateNext(s, w, o, cfg), decode)
  {
    var s' := CreateNext(s, w, o, cfg);
    assert WorkerOk(s.db.jobs, s.transfers, s.workers[w]);
    LedgerAdmit(s.db.jobs, s.transfers, s.workers, PcOf(s, w).claim, o);
    WorkerStep(s.db.jobs, s'.transfers, s.workers, w, s'.workers[w]);
  }

  lemma MoneyLookup(s: Sys, w: nat, reply: LookupReply, cfg: Config, decode: Digest -> Event)
    requires Money(s, decode) && PcOf(s, w).Looking? && TruthfulLookup(s.transfers, reply)
    ensures Money(LookupNext(s, w, reply, cfg), decode)
  {
    var s' := LookupNext(s, w, reply, cfg);
    var pc := PcOf(s, w);
    assert WorkerOk(s.db.jobs, s.transfers, s.workers[w]);
    if Find(reply, CommandOf(pc.claim).external).FoundTransfer? {
      assert Client.Holds(s.transfers, TrialTransfer(pc.claim.invoice));
    }
    WorkerStep(s.db.jobs, s.transfers, s.workers, w, s'.workers[w]);
  }

  lemma LedgerRecord(jobs: map<JobId, JobRow>, transfers: seq<Transfer>, workers: map<nat, Pc>, w: nat, pc: Pc)
    requires Ledger(jobs, transfers) && WorkersOk(jobs, transfers, workers) && WorkerOk(jobs, transfers, pc)
    requires pc.Finishing?
    ensures var jobs' := TS.AfterFinish(jobs, TS.FinishJob(jobs, pc.claim, pc.finish, pc.now));
            Ledger(jobs', transfers) && WorkersOk(jobs', transfers, workers[w := Idle])
  {
    if TS.FinishJob(jobs, pc.claim, pc.finish, pc.now).Finished? {
      LedgerJobWrite(jobs, transfers, workers, pc.claim.id, TS.FinishedRow(jobs[pc.claim.id], pc.finish, pc.now), w,
                     Idle);
    } else {
      WorkerStep(jobs, transfers, workers, w, Idle);
    }
  }

  lemma MoneyRecord(s: Sys, w: nat, decode: Digest -> Event)
    requires Money(s, decode) && PcOf(s, w).Finishing?
    ensures Money(RecordNext(s, w), decode)
  {
    var pc := PcOf(s, w);
    assert WorkerOk(s.db.jobs, s.transfers, s.workers[w]);
    LedgerRecord(s.db.jobs, s.transfers, s.workers, w, pc);
    CorrespondenceDispatch(s.db, FinishJob(pc.claim, pc.finish, pc.now), decode);
  }

  /** Transactions other than claims and finishes leave dispatch alone: they add pending jobs and change
      provider columns only. */
  predicate SameDispatch(a: JobRow, b: JobRow) {
    && SameJob(a, b) && a.status == b.status && a.attempts == b.attempts
    && a.nextAttemptAt == b.nextAttemptAt && a.leaseUntil == b.leaseUntil
  }

  ghost predicate DispatchKept(jobs: map<JobId, JobRow>, jobs': map<JobId, JobRow>) {
    && (forall j :: j in jobs ==> j in jobs' && SameDispatch(jobs[j], jobs'[j]))
    && (forall j :: j in jobs' && j !in jobs ==> jobs'[j].status.JobPending? && jobs'[j].attempts == 0)
  }

  lemma LifecycleKeepsDispatch(db: Db, rec: EventRecord)
    requires rec.event.Lifecycle?
    ensures DispatchKept(db.jobs, After(db, ES.RecordTransfer(db, rec)).jobs)
  {
    ES.TransferEffect(db, rec);
  }

  lemma DeliveryKeepsDispatch(db: Db, rec: EventRecord, jobId: JobId)
    ensures DispatchKept(db.jobs, After(db, ES.Record(db, rec, jobId)).jobs)
  {
    if rec.event.Lifecycle? {
      LifecycleKeepsDispatch(db, rec);
    } else {
      var db' := After(db, ES.Record(db, rec, jobId));
      assert db'.jobs == db.jobs || AddsPendingJob(db.jobs, db'.jobs, jobId) by {
        ES.RecordEffect(db, rec, jobId);
      }
    }
  }

  ghost predicate AddsPendingJob(jobs: map<JobId, JobRow>, jobs': map<JobId, JobRow>, j: JobId) {
    j !in jobs && j in jobs' && jobs' == jobs[j := jobs'[j]] && jobs'[j].status.JobPending? && jobs'[j].attempts == 0
  }

  lemma RefreshKeepsDispatch(jobs: map<JobId, JobRow>, txn: JobTxn)
    requires txn.RefreshJob?
    ensures DispatchKept(jobs, JobStep(jobs, txn))
  {
  }

  lemma StoreKeepsDispatch(db: Db, txn: Txn, maxClaims: int)
    requires txn.OfJobs? ==> txn.j.RefreshJob?
    ensures DispatchKept(db.jobs, Step(db, txn, maxClaims).jobs)
  {
    match txn
    case OfEvents(e) =>
      if e.Deliver? {
        DeliveryKeepsDispatch(db, MakeRecord(e.event, e.digest, e.at), e.jobId);
      }
    case OfInvoices(i) =>
      assert InvoiceStep(db, i).jobs == db.jobs by { InvoiceFrame(db, i); }
    case OfRuns(r) =>
      assert RunStep(db, r, maxClaims).jobs == db.jobs by { RunFrame(db, r, maxClaims); }
    case OfJobs(j) => RefreshKeepsDispatch(db.jobs, j);
  }

  lemma MoneyStore(s: Sys, txn: Txn, maxClaims: int, decode: Digest -> Event)
    requires Money(s, decode) && Enabled(s, Store(txn), decode)
    ensures Money(StoreNext(s, txn, maxClaims), decode)
  {
    CorrespondenceStep(s.db, txn, maxClaims, decode);
    StoreKeepsDispatch(s.db, txn, maxClaims);
    LedgerJobs(s.db.jobs, StoreNext(s, txn, maxClaims).db.jobs, s.transfers, s.workers);
  }

  lemma MoneyNext(s: Sys, a: Action, cfg: Config, maxClaims: int, decode: Digest -> Event)
    requires Money(s, decode)
    ensures Money(Next(s, a, cfg, maxClaims, decode), decode)
  {
    if Enabled(s, a, decode) {
      match a
      case Store(txn) => MoneyStore(s, txn, maxClaims, decode);
      case Claim(w, j, now) => MoneyClaim(s, w, j, now, cfg, decode);
      case Lookup(w, reply) => MoneyLookup(s, w, reply, cfg, decode);
      case Create(w, o) => MoneyCreate(s, w, o, cfg, decode);
      case Record(w) => MoneyRecord(s, w, decode);
      case ReadClock(w, now) =>
        assert WorkerOk(s.db.jobs, s.transfers, s.workers[w]);
        WorkerStep(s.db.jobs, s.transfers, s.workers, w, Start(PcOf(s, w).claim, now));
      case Crash(w) => WorkerStep(s.db.jobs, s.transfers, s.workers, w, Idle);
    }
  }

  lemma {:induction false} MoneyRun(s: Sys, actions: seq<Action>, cfg: Config, maxClaims: int, decode: Digest -> Event)
    requires Money(s, decode)
    ensures Money(Run(s, actions, cfg, maxClaims, decode), decode)
    decreases |actions|
  {
    if actions != [] {
      MoneyNext(s, actions[0], cfg, maxClaims, decode);
      MoneyRun(Next(s, actions[0], cfg, maxClaims, decode), actions[1..], cfg, maxClaims, decode);
    }
  }

  /** The job a transfer pays, which is the only job of its invoice. */
  ghost predicate PaysOnly(jobs: map<JobId, JobRow>, t: Transfer, j: JobId) {
    && j in jobs && t.external == TrialTransfer(jobs[j].invoice)
    && t.amount == jobs[j].amount - jobs[j].fee && t.amount > 0
    && forall k :: k in jobs && jobs[k].invoice == jobs[j].invoice ==> k == j
  }

  ghost predicate PaysOneJob(jobs: map<JobId, JobRow>, t: Transfer) {
    exists j :: PaysOnly(jobs, t, j)
  }

  lemma PaidJob(s: Sys, i: nat, decode: Digest -> Event) returns (j: JobId)
    requires Money(s, decode) && i < |s.transfers|
    ensures PaysOnly(s.db.jobs, s.transfers[i], j)
  {
    assert PaysSome(s.db.jobs, s.transfers[i]);
    j :| j in s.db.jobs && Pays(s.transfers[i], s.db.jobs[j]);
    assert JobOfEvent(s.db.events, s.db.jobs[j]);
  }

  /** The provider holds at most one transfer per invoice; each transfer pays the single job of its
      invoice, its amount less its fee, which is positive; and every succeeded job has such a transfer. */
  ghost predicate PaidOnce(s: Sys) {
    && DistinctExternals(s.transfers)
    && (forall i :: 0 <= i < |s.transfers| ==> PaysOneJob(s.db.jobs, s.transfers[i]))
    && (forall j :: j in s.db.jobs && s.db.jobs[j].status.JobSucceeded? ==>
          exists i :: 0 <= i < |s.transfers| && PaysOnly(s.db.jobs, s.transfers[i], j))
  }

  lemma MoneyPaysOnce(s: Sys, decode: Digest -> Event)
    requires Money(s, decode)
    ensures PaidOnce(s)
  {
    forall i | 0 <= i < |s.transfers| ensures PaysOneJob(s.db.jobs, s.transfers[i]) {
      var j := PaidJob(s, i, decode);
    }
    forall j | j in s.db.jobs && s.db.jobs[j].status.JobSucceeded?
      ensures exists i :: 0 <= i < |s.transfers| && PaysOnly(s.db.jobs, s.transfers[i], j)
    {
      var i :| 0 <= i < |s.transfers| && s.transfers[i].external == TrialTransfer(s.db.jobs[j].invoice);
      var k := PaidJob(s, i, decode);
    }
  }

  /** Every state reachable from an empty database and an empty provider pays each invoice at most once. */
  lemma ExactlyOncePayout(actions: seq<Action>, cfg: Config, maxClaims: int, decode: Digest -> Event)
    ensures PaidOnce(Run(INITIAL, actions, cfg, maxClaims, decode))
  {
    MoneyRun(INITIAL, actions, cfg, maxClaims, decode);
    MoneyPaysOnce(Run(INITIAL, actions, cfg, maxClaims, decode), decode);
  }

  // ---- The service is the machine ----

  /** The answers a pass meets are ones the provider can give. */
  predicate TruthfulAnswers(cfg: Config, transfers: seq<Transfer>, pc: Pc, answers: Answers)
    decreases Remaining(pc)
  {
    match pc
    case Looking(c, now, purpose) =>
      var reply := AnswerFor(answers, purpose);
      TruthfulLookup(transfers, reply)
      && TruthfulAnswers(cfg, transfers, OnLookup(cfg, c, now, purpose, Find(reply, CommandOf(c).external)), answers)
    case Creating(c, now) =>
      TruthfulCreate(transfers, CommandOf(c), answers.create)
      && TruthfulAnswers(cfg, Admit(transfers, CommandOf(c), answers.create), OnCreate(cfg, c, now, answers.create),
                         answers)
    case _ => true
  }

  /** The provider calls of one pass of the service are a run of the machine. */
  lemma {:induction false} PassIsRun(s: Sys, w: nat, answers: Answers, cfg: Config, maxClaims: int,
                                     decode: Digest -> Event)
    returns (actions: seq<Action>)
    requires w in s.workers && TruthfulAnswers(cfg, s.transfers, s.workers[w], answers)
    ensures var pass := Solo(cfg, s.transfers, s.workers[w], answers);
            Run(s, actions, cfg, maxClaims, decode)
              == s.(transfers := pass.transfers, workers := s.workers[w := pass.pc])
    decreases Remaining(s.workers[w])
  {
    match s.workers[w]
    case Looking(c, now, purpose) =>
      var reply := AnswerFor(answers, purpose);
      var s' := LookupNext(s, w, reply, cfg);
      var rest := PassIsRun(s', w, answers, cfg, maxClaims, decode);
      actions := [Lookup(w, reply)] + rest;
      assert Next(s, actions[0], cfg, maxClaims, decode) == s' && actions[1..] == rest;
      assert s'.workers[w := Solo(cfg, s'.transfers, s'.workers[w], answers).pc]
          == s.workers[w := Solo(cfg, s'.transfers, s'.workers[w], answers).pc];
    case Creating(c, now) =>
      var s' := CreateNext(s, w, answers.create, cfg);
      var rest := PassIsRun(s', w, answers, cfg, maxClaims, decode);
      actions := [Create(w, answers.create)] + rest;
      assert Next(s, actions[0], cfg, maxClaims, decode) == s' && actions[1..] == rest;
      assert s'.workers[w := Solo(cfg, s'.transfers, s'.workers[w], answers).pc]
          == s.workers[w := Solo(cfg, s'.transfers, s'.workers[w], answers).pc];
    case _ =>
      actions := [];
      assert s.workers == s.workers[w := s.workers[w]];
  }

  lemma {:induction false} RunAppend(s: Sys, a: seq<Action>, b: seq<Action>, cfg: Config, maxClaims: int,
                                     decode: Digest -> Event)
    ensures Run(s, a + b, cfg, maxClaims, decode) == Run(Run(s, a, cfg, maxClaims, decode), b, cfg, maxClaims, decode)
    decreases |a|
  {
    if a == [] {
      assert a + b == b;
    } else {
      assert (a + b)[1..] == a[1..] + b;
      RunAppend(Next(s, a[0], cfg, maxClaims, decode), a[1..], b, cfg, maxClaims, decode);
    }
  }

  lemma RunOne(s: Sys, a: Action, cfg: Config, maxClaims: int, decode: Digest -> Event)
    ensures Run(s, [a], cfg, maxClaims, decode) == Next(s, a, cfg, maxClaims, decode)
  {
    assert [a][1..] == [];
  }

  /** A worker that claimed a job and read its clock again. */
  function Started(s: Sys, w: nat, j: JobId, first: Time, second: Time, cfg: Config): Sys
    requires j in s.db.jobs
  {
    var s1 := ClaimNext(s, w, j, first, cfg);
    s1.(workers := s1.workers[w := Start(ClaimAt(cfg, s.db.jobs, j, first), second)])
  }

  lemma ClaimAndClock(s: Sys, w: nat, j: JobId, first: Time, second: Time, cfg: Config, maxClaims: int,
                      decode: Digest -> Event)
    requires PcOf(s, w).Idle? && j in s.db.jobs && TS.Claimable(s.db.jobs[j], first) && first <= second
    ensures Run(s, [Claim(w, j, first), ReadClock(w, second)], cfg, maxClaims, decode)
              == Started(s, w, j, first, second, cfg)
  {
    var s1 := ClaimNext(s, w, j, first, cfg);
    assert [Claim(w, j, first), ReadClock(w, second)][1..] == [ReadClock(w, second)];
    RunOne(s1, ReadClock(w, second), cfg, maxClaims, decode);
  }

  /** The record of a finished pass, by the contract of the service. */
  lemma RecordIsStep(s: Sys, w: nat, jobs': map<JobId, JobRow>, r: Option<WorkerResult>, cfg: Config, maxClaims: int,
                     decode: Digest -> Event)
    requires PcOf(s, w).Finishing? && Processed(s.db.jobs, Pass(s.transfers, PcOf(s, w)), jobs', r)
    ensures var s' := Run(s, [Record(w)], cfg, maxClaims, decode);
            s'.db == s.db.(jobs := jobs') && PcOf(s', w).Idle? && s'.transfers == s.transfers
  {
    RunOne(s, Record(w), cfg, maxClaims, decode);
  }

  /** The whole pass of a worker that finds a job: what it leaves behind, by the contract of the service, is what
      a run of the machine leaves behind, from the claim through the second clock reading and the provider calls
      to the record of its result. */
  lemma ProcessIsRun(s: Sys, w: nat, j: JobId, first: Time, second: Time, answers: Answers,
                     jobs': map<JobId, JobRow>, transfers': seq<Transfer>, r: Option<WorkerResult>, cfg: Config,
                     maxClaims: int, decode: Digest -> Event)
    returns (actions: seq<Action>)
    requires PcOf(s, w).Idle? && first <= second
    requires Passed(cfg, s.db.jobs, s.transfers, j, first, second, answers, jobs', transfers', r)
    requires TruthfulAnswers(cfg, s.transfers, Start(ClaimAt(cfg, s.db.jobs, j, first), second), answers)
    ensures var s' := Run(s, actions, cfg, maxClaims, decode);
            s'.db == s.db.(jobs := jobs') && s'.transfers == transfers' && PcOf(s', w).Idle?
  {
    var opening := [Claim(w, j, first), ReadClock(w, second)];
    var s2 := Started(s, w, j, first, second, cfg);
    ClaimAndClock(s, w, j, first, second, cfg, maxClaims, decode);
    var calls := PassIsRun(s2, w, answers, cfg, maxClaims, decode);
    var s3 := Run(s2, calls, cfg, maxClaims, decode);
    RunAppend(s, opening, calls, cfg, maxClaims, decode);
    actions := opening + calls;
    if PcOf(s3, w).Finishing? {
      RecordIsStep(s3, w, jobs', r, cfg, maxClaims, decode);
      RunAppend(s, actions, [Record(w)], cfg, maxClaims, decode);
      actions := actions + [Record(w)];
    }
  }
}
