/** The transfer worker (application/transfers.py): as a machine that does one store transaction or one
    provider call at a time, and as the service that runs it from claim to result. */
module TransferWorker {
  import opened Domain
  import opened Tables
  import opened Client
  import TS = TransferStore

  datatype Config = Config(leaseSeconds: int, retryBase: int, maxAttempts: int)

  predicate ValidConfig(cfg: Config) {
    cfg.leaseSeconds > 0 && cfg.retryBase > 0 && cfg.maxAttempts >= 1
  }

  function Backoff(cfg: Config, attempts: nat): (delay: int)
    ensures cfg.retryBase > 0 ==> delay > 0
  {
    cfg.retryBase * Pow2(if attempts < 1 then 0 else Min(attempts - 1, 8))
  }

  /** Why a worker looks a transfer up: before a create, after a refused create, before giving up, or
      because the outcome of an earlier claim is unknown. */
  datatype Purpose = BeforeCreate | AfterRefusal | BeforeGivingUp | Reconciling

  datatype Pc =
    | Idle
    | Claimed(claim: TS.Claim, at: Time)
    | Looking(claim: TS.Claim, now: Time, purpose: Purpose)
    | Creating(claim: TS.Claim, now: Time)
    | Finishing(claim: TS.Claim, now: Time, finish: TS.Finish)

  function CommandOf(c: TS.Claim): TransferCommand {
    BuildTransferCommand(c.invoice, c.net)
  }

  function Succeeding(c: TS.Claim, now: Time, t: Transfer): Pc {
    Finishing(c, now, TS.Succeed(t.id, t.status))
  }

  /** The claim uses up the attempts. */
  predicate LastAttempt(cfg: Config, c: TS.Claim) {
    c.attempts >= cfg.maxAttempts
  }

  function Start(c: TS.Claim, now: Time): Pc {
    Looking(c, now, if c.claimedFrom.JobUnknown? then Reconciling else BeforeCreate)
  }

  /** A provider error while ensuring the transfer. */
  function OnError(cfg: Config, c: TS.Claim, now: Time, error: ProviderError): Pc {
    match error
    case PermanentError => Finishing(c, now, TS.GiveUp("ProviderPermanentError"))
    case TimeoutError =>
      if LastAttempt(cfg, c) then Looking(c, now, BeforeGivingUp)
      else Finishing(c, now, TS.AwaitLookup("ProviderUnknownOutcomeError", Backoff(cfg, c.attempts)))
    case TransientError =>
      if LastAttempt(cfg, c) then Looking(c, now, BeforeGivingUp)
      else Finishing(c, now, TS.RetryLater("ProviderTransientError", Backoff(cfg, c.attempts)))
  }

  /** The next step after a lookup. An error the worker does not catch leaves it idle without a result. */
  function OnLookup(cfg: Config, c: TS.Claim, now: Time, purpose: Purpose, r: Found): Pc {
    match r
    case FoundTransfer(t) => Succeeding(c, now, t)
    case NoTransfer => (
      match purpose
      case BeforeCreate => Creating(c, now)
      case AfterRefusal => OnError(cfg, c, now, PermanentError)
      case BeforeGivingUp => Finishing(c, now, TS.GiveUp("retry_exhausted"))
      case Reconciling =>
        if LastAttempt(cfg, c) then Finishing(c, now, TS.GiveUp("retry_exhausted"))
        else Finishing(c, now, TS.RetryLater("reconciliation_not_found", Backoff(cfg, c.attempts)))
    )
    case FindFailed(error) => (
      match purpose
      case BeforeCreate => OnError(cfg, c, now, error)
      case AfterRefusal => OnError(cfg, c, now, error)
      case BeforeGivingUp =>
        if error.PermanentError? then Idle else Finishing(c, now, TS.GiveUp("retry_exhausted"))
      case Reconciling =>
        if error.PermanentError? then Finishing(c, now, TS.GiveUp("ProviderPermanentError"))
        else if LastAttempt(cfg, c) then Finishing(c, now, TS.GiveUp("retry_exhausted"))
        else Finishing(c, now, TS.AwaitLookup("ProviderTransientError", Backoff(cfg, c.attempts)))
    )
  }

  /** The next step after a create. */
  function OnCreate(cfg: Config, c: TS.Claim, now: Time, o: CreateOutcome): Pc {
    match o.reply
    case Accepted => Succeeding(c, now, Transfer(o.id, CommandOf(c).external, CommandOf(c).amount, o.status))
    case EmptyReply => OnError(cfg, c, now, TimeoutError)
    case CreateRaised(error) =>
      if error.InputErrors? then Looking(c, now, AfterRefusal) else OnError(cfg, c, now, RaiseProvider(error, true))
  }

  // ---- One pass without interference ----

  function AnswerFor(answers: Answers, purpose: Purpose): LookupReply {
    match purpose
    case BeforeCreate => answers.first
    case Reconciling => answers.first
    case AfterRefusal => answers.afterRefusal
    case BeforeGivingUp => answers.last
  }

  function Remaining(pc: Pc): nat {
    match pc
    case Looking(_, _, BeforeCreate) => 4
    case Creating(_, _) => 3
    case Looking(_, _, AfterRefusal) => 2
    case Looking(_, _, _) => 1
    case _ => 0
  }

  datatype Pass = Pass(transfers: seq<Transfer>, pc: Pc)

  /** Runs the machine's provider calls until it has a result to record, or died without one. */
  function Solo(cfg: Config, transfers: seq<Transfer>, pc: Pc, answers: Answers): (r: Pass)
    ensures r.pc.Finishing? || Remaining(pc) == 0 || r.pc.Idle?
    decreases Remaining(pc)
  {
    match pc
    case Looking(c, now, purpose) =>
      Solo(cfg, transfers, OnLookup(cfg, c, now, purpose, Find(AnswerFor(answers, purpose), CommandOf(c).external)),
           answers)
    case Creating(c, now) =>
      Solo(cfg, Admit(transfers, CommandOf(c), answers.create), OnCreate(cfg, c, now, answers.create), answers)
    case _ => Pass(transfers, pc)
  }

  datatype WorkerResult =
    | NothingDue | Succeeded | RetryScheduled | ReconciliationScheduled | PermanentFailure | LiveDisabled

  function ResultOf(f: TS.Finish): WorkerResult {
    match f
    case Succeed(_, _) => Succeeded
    case RetryLater(_, _) => RetryScheduled
    case AwaitLookup(_, _) => ReconciliationScheduled
    case GiveUp(_) => PermanentFailure
  }

  /** What a pass that claimed a job leaves behind: the machine's transfers, its result recorded under the
      lease unless it died, and an error to the caller if it died or the record broke a constraint. */
  ghost predicate Processed(jobs: map<JobId, JobRow>, pass: Pass, jobs': map<JobId, JobRow>, r: Option<WorkerResult>) {
    if pass.pc.Finishing? then
      var f := TS.FinishJob(jobs, pass.pc.claim, pass.pc.finish, pass.pc.now);
      jobs' == TS.AfterFinish(jobs, f) && r == (if f.FinishConflict? then None else Some(ResultOf(pass.pc.finish)))
    else
      jobs' == jobs && r.None?
  }

  /** The claim of a job at a given time. */
  function ClaimAt(cfg: Config, jobs: map<JobId, JobRow>, j: JobId, now: Time): TS.Claim
    requires j in jobs
  {
    TS.ClaimOf(j, jobs[j], now + cfg.leaseSeconds)
  }

  /** What one pass over a job does to the jobs and to the provider's transfers: it is claimed at the first clock
      reading and processed at the second. */
  ghost predicate Passed(cfg: Config, jobs: map<JobId, JobRow>, transfers: seq<Transfer>, j: JobId, first: Time,
                         second: Time, answers: Answers, jobs': map<JobId, JobRow>, transfers': seq<Transfer>,
                         r: Option<WorkerResult>)
  {
    && j in jobs && TS.Claimable(jobs[j], first)
    && var pass := Solo(cfg, transfers, Start(ClaimAt(cfg, jobs, j, first), second), answers);
       transfers' == pass.transfers
       && Processed(jobs[j := TS.ClaimedRow(jobs[j], first, first + cfg.leaseSeconds)], pass, jobs', r)
  }

  class TransferWorker {
    const store: TS.TransferStore
    const client: StarkBankClient
    const cfg: Config
    const live: bool

    constructor (store: TS.TransferStore, client: StarkBankClient, cfg: Config, live: bool)
      ensures this.store == store && this.client == client && this.cfg == cfg && this.live == live
    {
      this.store, this.client, this.cfg, this.live := store, client, cfg, live;
    }

    /** Claims one job and processes it. The two clock readings and the provider's answers are parameters.
        None is an error that reached the caller. */
    method ProcessOne(first: Time, second: Time, answers: Answers)
      returns (r: Option<WorkerResult>, ghost claim: Option<TS.Claim>)
      modifies store.db`jobs, client.provider
      ensures !live ==> r == Some(LiveDisabled) && claim.None?
      ensures live && claim.None? ==>
                r == Some(NothingDue) && forall j :: j in old(store.db.jobs) ==>
                  !TS.Claimable(old(store.db.jobs)[j], first)
      ensures claim.None? ==>
                store.db.jobs == old(store.db.jobs) && client.provider.transfers == old(client.provider.transfers)
      ensures claim.Some? ==>
                && claim.value.id in old(store.db.jobs)
                && claim.value == ClaimAt(cfg, old(store.db.jobs), claim.value.id, first)
                && Passed(cfg, old(store.db.jobs), old(client.provider.transfers), claim.value.id, first, second,
                          answers, store.db.jobs, client.provider.transfers, r)
    {
      claim := None;
      if !live {
        return Some(LiveDisabled), None;
      }
      var job := store.ClaimJob(first, first + cfg.leaseSeconds);
      claim := job;
      if job.None? {
        return Some(NothingDue), None;
      }
      r := ProcessClaimed(job.value, second, answers);
    }

    method ProcessClaimed(job: TS.Claim, now: Time, answers: Answers) returns (r: Option<WorkerResult>)
      modifies store.db`jobs, client.provider
      ensures var pass := Solo(cfg, old(client.provider.transfers), Start(job, now), answers);
              client.provider.transfers == pass.transfers && Processed(old(store.db.jobs), pass, store.db.jobs, r)
    {
      var command := BuildTransferCommand(job.invoice, job.net);
      if job.claimedFrom == JobUnknown {
        r := ReconcileUnknown(job, command, now, answers);
        return;
      }
      ghost var start := client.provider.transfers;
      var ensured := client.EnsureTransfer(command, answers);
      SoloEnsures(cfg, start, job, now, answers);
      match ensured
      case EnsuredTransfer(transfer) =>
        r := Record(job, TS.Succeed(transfer.id, transfer.status), now);
      case EnsureFailed(TimeoutError) =>
        if job.attempts >= cfg.maxAttempts {
          r := FinalizeAfterLookup(job, command, now, answers);
        } else {
          r := Record(job, TS.AwaitLookup("ProviderUnknownOutcomeError", Backoff(cfg, job.attempts)), now);
        }
      case EnsureFailed(TransientError) =>
        if job.attempts >= cfg.maxAttempts {
          r := FinalizeAfterLookup(job, command, now, answers);
        } else {
          r := Record(job, TS.RetryLater("ProviderTransientError", Backoff(cfg, job.attempts)), now);
        }
      case EnsureFailed(PermanentError) =>
        r := Record(job, TS.GiveUp("ProviderPermanentError"), now);
    }

    /** Records a result under the lease; whether the lease still holds does not change what is reported. */
    method Record(job: TS.Claim, finish: TS.Finish, now: Time) returns (r: Option<WorkerResult>)
      modifies store.db`jobs
      ensures forall transfers ::
                Processed(old(store.db.jobs), Pass(transfers, Finishing(job, now, finish)), store.db.jobs, r)
    {
      var recorded := store.FinishClaim(job, finish, now);
      r := if recorded.None? then None else Some(ResultOf(finish));
    }

    method FinalizeAfterLookup(job: TS.Claim, command: TransferCommand, now: Time, answers: Answers)
      returns (r: Option<WorkerResult>)
      requires command == CommandOf(job)
      modifies store.db`jobs
      ensures forall transfers :: Processed(old(store.db.jobs),
                Solo(cfg, transfers, Looking(job, now, BeforeGivingUp), answers), store.db.jobs, r)
    {
      var found := client.FindTransfer(command, answers.last);
      if found.FindFailed? && found.error.PermanentError? {
        return None;
      }
      if found.FoundTransfer? {
        r := Record(job, TS.Succeed(found.transfer.id, found.transfer.status), now);
      } else {
        r := Record(job, TS.GiveUp("retry_exhausted"), now);
      }
    }

    method ReconcileUnknown(job: TS.Claim, command: TransferCommand, now: Time, answers: Answers)
      returns (r: Option<WorkerResult>)
      requires command == CommandOf(job)
      modifies store.db`jobs
      ensures forall transfers :: Processed(old(store.db.jobs),
                Solo(cfg, transfers, Looking(job, now, Reconciling), answers), store.db.jobs, r)
      ensures forall transfers :: Solo(cfg, transfers, Looking(job, now, Reconciling), answers).transfers == transfers
    {
      var found := client.FindTransfer(command, answers.first);
      if found.FoundTransfer? {
        r := Record(job, TS.Succeed(found.transfer.id, found.transfer.status), now);
      } else if found.FindFailed? && found.error.PermanentError? {
        r := Record(job, TS.GiveUp("ProviderPermanentError"), now);
      } else if job.attempts >= cfg.maxAttempts {
        r := Record(job, TS.GiveUp("retry_exhausted"), now);
      } else if found.FindFailed? {
        r := Record(job, TS.AwaitLookup("ProviderTransientError", Backoff(cfg, job.attempts)), now);
      } else {
        r := Record(job, TS.RetryLater("reconciliation_not_found", Backoff(cfg, job.attempts)), now);
      }
    }
  }

  /** The machine's calls before a create decision add up to the client's `EnsureTransfer`. */
  lemma SoloEnsures(cfg: Config, transfers: seq<Transfer>, c: TS.Claim, now: Time, answers: Answers)
    ensures var command := CommandOf(c);
            var found := Find(answers.first, command.external);
            var after := if found.NoTransfer? then Admit(transfers, command, answers.create) else transfers;
            var next := match EnsureResult(command, answers)
                        case EnsuredTransfer(t) => Succeeding(c, now, t)
                        case EnsureFailed(error) => OnError(cfg, c, now, error);
            Solo(cfg, transfers, Looking(c, now, BeforeCreate), answers) == Solo(cfg, after, next, answers)
  {
    var looked := OnLookup(cfg, c, now, BeforeCreate, Find(answers.first, CommandOf(c).external));
    assert Solo(cfg, transfers, Looking(c, now, BeforeCreate), answers) == Solo(cfg, transfers, looked, answers);
    if looked.Creating? {
      var after := Admit(transfers, CommandOf(c), answers.create);
      var created := OnCreate(cfg, c, now, answers.create);
      assert Solo(cfg, transfers, looked, answers) == Solo(cfg, after, created, answers);
      if created == Looking(c, now, AfterRefusal) {
        assert Solo(cfg, after, created, answers)
            == Solo(cfg, after, OnLookup(cfg, c, now, AfterRefusal, Find(answers.afterRefusal, CommandOf(c).external)),
                    answers);
      }
    }
  }
}
