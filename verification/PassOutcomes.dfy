/** What one pass of a transfer worker makes of the provider's answers, told from the answers alone: when a job
    is given up for good, when it is paid, and when it waits for another attempt. */
module PassOutcomes {
  import opened Domain
  import opened Tables
  import opened Client
  import opened TransferWorker
  import TS = TransferStore
  import ES = EventStore

  // ---- The provider's answers ----

  ghost predicate Sees(reply: LookupReply, external: ExternalId) {
    reply.Listed? && exists t :: t in reply.items && t.external == external
  }

  ghost predicate Misses(reply: LookupReply, external: ExternalId) {
    reply.Listed? && forall t :: t in reply.items ==> t.external != external
  }

  /** A server or unknown error: the lookup may be repeated. */
  predicate Stumbles(reply: LookupReply) {
    reply.LookupRaised? && (reply.error.InternalServerError? || reply.error.UnknownError?)
  }

  /** Any other error: the lookup will not get better. */
  predicate Rejects(reply: LookupReply) {
    reply.LookupRaised? && (reply.error.ValidationError? || reply.error.InputErrors? || reply.error.OtherError?)
  }

  /** The create was called, and may have taken effect: its reply is empty, or a server, unknown or validation error. */
  ghost predicate LeftOpen(a: Answers, external: ExternalId) {
    && Misses(a.first, external)
    && (a.create.reply.EmptyReply?
        || (a.create.reply.CreateRaised?
            && (a.create.reply.error.InternalServerError? || a.create.reply.error.UnknownError?
                || a.create.reply.error.ValidationError?)))
  }

  /** The create was called and its input refused, so the transfer is looked up once more. */
  ghost predicate AskedAgain(a: Answers, external: ExternalId) {
    Misses(a.first, external) && a.create.reply == CreateRaised(InputErrors)
  }

  /** The transfer is there: listed before the create, made by it, or listed after its refusal. */
  ghost predicate Obtained(a: Answers, external: ExternalId) {
    || Sees(a.first, external)
    || (Misses(a.first, external) && a.create.reply.Accepted?)
    || (AskedAgain(a, external) && Sees(a.afterRefusal, external))
  }

  /** The call that decides was rejected for good, or the create was refused and its transfer is not there. */
  ghost predicate RefusedForGood(a: Answers, external: ExternalId) {
    || Rejects(a.first)
    || (Misses(a.first, external) && a.create.reply == CreateRaised(OtherError))
    || (AskedAgain(a, external) && (Rejects(a.afterRefusal) || Misses(a.afterRefusal, external)))
  }

  /** A lookup stumbled, so nothing was created by this pass that is not known. */
  ghost predicate Interrupted(a: Answers, external: ExternalId) {
    Stumbles(a.first) || (AskedAgain(a, external) && Stumbles(a.afterRefusal))
  }

  // ---- What becomes of the job ----

  /** The job may be created: its claim does not stem from an unknown outcome. */
  predicate MayCreate(row: JobRow) {
    !row.status.JobUnknown?
  }

  /** A pass that obtained nothing and was not refused looks once more when its claim is the last attempt. */
  ghost predicate LooksOnceMore(cfg: Config, row: JobRow, a: Answers) {
    && MayCreate(row) && row.attempts + 1 >= cfg.maxAttempts
    && (LeftOpen(a, TrialTransfer(row.invoice)) || Interrupted(a, TrialTransfer(row.invoice)))
  }

  ghost predicate IsPaid(cfg: Config, row: JobRow, a: Answers) {
    var x := TrialTransfer(row.invoice);
    if MayCreate(row) then Obtained(a, x) || (LooksOnceMore(cfg, row, a) && Sees(a.last, x)) else Sees(a.first, x)
  }

  /** Given up for good: refused, or the attempts are used up and the transfer is not there. */
  ghost predicate IsGivenUp(cfg: Config, row: JobRow, a: Answers) {
    var x := TrialTransfer(row.invoice);
    if MayCreate(row) then
      RefusedForGood(a, x) || (LooksOnceMore(cfg, row, a) && (Misses(a.last, x) || Stumbles(a.last)))
    else
      Rejects(a.first) || (row.attempts + 1 >= cfg.maxAttempts && (Misses(a.first, x) || Stumbles(a.first)))
  }

  /** The outcome stays unknown: a create left it open, or a job of unknown outcome could not be looked up. */
  ghost predicate StaysUnknown(cfg: Config, row: JobRow, a: Answers) {
    && row.attempts + 1 < cfg.maxAttempts
    && if MayCreate(row) then LeftOpen(a, TrialTransfer(row.invoice)) else Stumbles(a.first)
  }

  /** Nothing was paid, and the next attempt may create: a lookup stumbled, or one showed that nothing is there. */
  ghost predicate IsRetried(cfg: Config, row: JobRow, a: Answers) {
    && row.attempts + 1 < cfg.maxAttempts
    && if MayCreate(row) then Interrupted(a, TrialTransfer(row.invoice))
       else Misses(a.first, TrialTransfer(row.invoice))
  }

  /** The last lookup of a last attempt is rejected: the claim ends without a result. */
  ghost predicate EndsWithoutResult(cfg: Config, row: JobRow, a: Answers) {
    LooksOnceMore(cfg, row, a) && Rejects(a.last)
  }

  // ---- One pass ----

  lemma FindTells(reply: LookupReply, external: ExternalId)
    ensures var r := Find(reply, external);
            && (r.FoundTransfer? <==> Sees(reply, external)) && (r.NoTransfer? <==> Misses(reply, external))
            && (r == FindFailed(TransientError) <==> Stumbles(reply))
            && (r == FindFailed(PermanentError) <==> Rejects(reply))
  {
    if reply.Listed? {
      assert Client.Holds(reply.items, external) <==> Sees(reply, external);
    }
  }

  /** The client's find-or-create tells the four cases apart. */
  lemma EnsureTells(command: TransferCommand, a: Answers)
    ensures var r := EnsureResult(command, a);
            && (r.EnsuredTransfer? <==> Obtained(a, command.external))
            && (r == EnsureFailed(PermanentError) <==> RefusedForGood(a, command.external))
            && (r == EnsureFailed(TimeoutError) <==> LeftOpen(a, command.external))
            && (r == EnsureFailed(TransientError) <==> Interrupted(a, command.external))
  {
    FindTells(a.first, command.external);
    FindTells(a.afterRefusal, command.external);
  }

  /** The time until the next attempt: the base, doubled for each earlier attempt, at most eight times. */
  function Wait(cfg: Config, row: JobRow): int {
    cfg.retryBase * Pow2(if row.attempts < 8 then row.attempts else 8)
  }

  /** The pass has a result of one kind: paid, given up, unknown, to be retried; or none. */
  ghost predicate Tells(cfg: Config, row: JobRow, a: Answers, pc: Pc) {
    && (pc.Finishing? || pc.Idle?)
    && (pc.Finishing? && pc.finish.Succeed? <==> IsPaid(cfg, row, a))
    && (pc.Finishing? && pc.finish.GiveUp? <==> IsGivenUp(cfg, row, a))
    && (pc.Finishing? && pc.finish.AwaitLookup? <==> StaysUnknown(cfg, row, a))
    && (pc.Finishing? && pc.finish.RetryLater? <==> IsRetried(cfg, row, a))
    && (pc.Idle? <==> EndsWithoutResult(cfg, row, a))
    && (pc.Finishing? && (pc.finish.RetryLater? || pc.finish.AwaitLookup?) ==> pc.finish.delay == Wait(cfg, row))
    && (pc.Finishing? && !pc.finish.Succeed? ==> pc.finish.error == NoteOf(cfg, row, a))
    && (pc.Finishing? && pc.finish.Succeed? ==> exists t :: HandedBack(cfg, row, a, t) && pc.finish == PaidBy(t))
  }

  function PaidBy(t: Transfer): TS.Finish {
    TS.Succeed(t.id, t.status)
  }

  /** The pass got the transfer from the provider: it was listed, or accepted with the net amount. */
  ghost predicate HandedBack(cfg: Config, row: JobRow, a: Answers, t: Transfer) {
    && t.external == TrialTransfer(row.invoice)
    && (|| (a.first.Listed? && t in a.first.items)
        || (MayCreate(row) && AskedAgain(a, t.external) && a.afterRefusal.Listed? && t in a.afterRefusal.items)
        || (LooksOnceMore(cfg, row, a) && a.last.Listed? && t in a.last.items)
        || (MayCreate(row) && Misses(a.first, t.external) && a.create.reply.Accepted?
            && t == Transfer(a.create.id, t.external, row.net, a.create.status)))
  }

  /** The provider's transfers after the pass: a create is called only when a lookup showed that the transfer is not
      there, and never for a job whose outcome is unknown. */
  ghost function TransfersAfter(row: JobRow, transfers: seq<Transfer>, a: Answers): seq<Transfer> {
    var x := TrialTransfer(row.invoice);
    if MayCreate(row) && Misses(a.first, x) then Admit(transfers, TransferCommand(x, row.net), a.create) else transfers
  }

  /** What is noted about a pass that did not pay: the provider's last word, or that the attempts are used up. */
  ghost function NoteOf(cfg: Config, row: JobRow, a: Answers): string {
    var x := TrialTransfer(row.invoice);
    if IsGivenUp(cfg, row, a) then
      if Rejects(a.first) || (MayCreate(row) && RefusedForGood(a, x)) then "ProviderPermanentError"
      else "retry_exhausted"
    else if StaysUnknown(cfg, row, a) then
      if MayCreate(row) then "ProviderUnknownOutcomeError" else "ProviderTransientError"
    else
      if MayCreate(row) then "ProviderTransientError" else "reconciliation_not_found"
  }

  ghost predicate ClaimFor(row: JobRow, c: TS.Claim) {
    c.invoice == row.invoice && c.net == row.net && c.attempts == row.attempts + 1 && c.claimedFrom == row.status
  }

  lemma ReconcilingTells(cfg: Config, transfers: seq<Transfer>, row: JobRow, c: TS.Claim, now: Time, a: Answers)
    requires ClaimFor(row, c) && row.status.JobUnknown?
    ensures var pass := Solo(cfg, transfers, Start(c, now), a);
            Tells(cfg, row, a, pass.pc) && pass.transfers == transfers
  {
    FindTells(a.first, TrialTransfer(row.invoice));
    var found := Find(a.first, CommandOf(c).external);
    assert found.FoundTransfer? ==> HandedBack(cfg, row, a, found.transfer);
  }

  lemma EnsuredHandsBack(cfg: Config, row: JobRow, c: TS.Claim, a: Answers)
    requires ClaimFor(row, c) && !row.status.JobUnknown? && EnsureResult(CommandOf(c), a).EnsuredTransfer?
    ensures HandedBack(cfg, row, a, EnsureResult(CommandOf(c), a).transfer)
  {
    FindTells(a.first, CommandOf(c).external);
    FindTells(a.afterRefusal, CommandOf(c).external);
  }

  /** The pass of a job that may be created, once the client's find-or-create returned. */
  lemma EnsuredTells(cfg: Config, transfers: seq<Transfer>, row: JobRow, c: TS.Claim, now: Time, a: Answers, r: Ensured)
    requires ClaimFor(row, c) && !row.status.JobUnknown? && r == EnsureResult(CommandOf(c), a)
    ensures var next := match r case EnsuredTransfer(t) => Succeeding(c, now, t)
                                case EnsureFailed(error) => OnError(cfg, c, now, error);
            var pass := Solo(cfg, transfers, next, a);
            Tells(cfg, row, a, pass.pc) && pass.transfers == transfers
  {
    EnsureTells(CommandOf(c), a);
    FindTells(a.last, TrialTransfer(row.invoice));
    var last := Find(a.last, CommandOf(c).external);
    assert last.FoundTransfer? && LooksOnceMore(cfg, row, a) ==> HandedBack(cfg, row, a, last.transfer);
    if r.EnsuredTransfer? {
      EnsuredHandsBack(cfg, row, c, a);
    }
  }

  lemma CreatingTells(cfg: Config, transfers: seq<Transfer>, row: JobRow, c: TS.Claim, now: Time, a: Answers)
    requires ClaimFor(row, c) && !row.status.JobUnknown?
    ensures var pass := Solo(cfg, transfers, Start(c, now), a);
            Tells(cfg, row, a, pass.pc) && pass.transfers == TransfersAfter(row, transfers, a)
  {
    var found := Find(a.first, CommandOf(c).external);
    FindTells(a.first, CommandOf(c).external);
    var after := if found.NoTransfer? then Admit(transfers, CommandOf(c), a.create) else transfers;
    SoloEnsures(cfg, transfers, c, now, a);
    EnsuredTells(cfg, after, row, c, now, a, EnsureResult(CommandOf(c), a));
  }

  // ---- The job's row ----

  /** Another job has the provider's transfer. */
  ghost predicate BelongsToAnother(jobs: map<JobId, JobRow>, j: JobId, t: Transfer) {
    exists k :: k in jobs && k != j && jobs[k].providerTransfer == Some(t.id)
  }

  ghost predicate Conflicts(cfg: Config, jobs: map<JobId, JobRow>, j: JobId, a: Answers)
    requires j in jobs
  {
    exists t :: HandedBack(cfg, jobs[j], a, t) && BelongsToAnother(jobs, j, t)
  }

  /** The job shows a transfer the provider handed back. */
  ghost predicate ShowsTransfer(cfg: Config, row: JobRow, a: Answers, row': JobRow) {
    exists t :: HandedBack(cfg, row, a, t) && row'.providerTransfer == Some(t.id)
      && row'.providerStatus == Some(t.status)
  }

  /** The row a pass leaves behind, told from the answers. A pass leaves the job under its lease only when its last
      lookup was rejected, or when it was paid by a transfer that another job has. */
  ghost predicate LeavesRow(cfg: Config, jobs: map<JobId, JobRow>, j: JobId, first: Time, second: Time, a: Answers,
                            row': JobRow, r: Option<WorkerResult>)
    requires j in jobs
  {
    var row := jobs[j];
    && row'.invoice == row.invoice && row'.net == row.net && row'.event == row.event
    && row'.attempts == row.attempts + 1
    && (row'.status.JobPermanentFailure? <==> IsGivenUp(cfg, row, a))
    && (row'.status.JobUnknown? <==> StaysUnknown(cfg, row, a))
    && (row'.status.JobPending? <==> IsRetried(cfg, row, a))
    && (row'.status.JobSucceeded? ==> IsPaid(cfg, row, a) && ShowsTransfer(cfg, row, a, row'))
    && (!row'.status.JobProcessing? ==> row'.leaseUntil.None? && row'.providerLogType.None?)
    && (row'.status.JobSucceeded? ==> row'.providerStatusAt == Some(second))
    && (row'.status.JobPending? || row'.status.JobUnknown? || row'.status.JobPermanentFailure? ==>
          row'.providerTransfer.None? && row'.providerStatus.None? && row'.providerStatusAt.None?)
    && (row'.status.JobProcessing? ==> row'.leaseUntil == Some(first + cfg.leaseSeconds)
                                       && (EndsWithoutResult(cfg, row, a)
                                           || (IsPaid(cfg, row, a) && Conflicts(cfg, jobs, j, a))))
    && (!row'.status.JobProcessing? ==>
          row'.lastError == if row'.status.JobSucceeded? then None else Some(NoteOf(cfg, row, a)))
    && (row'.status.JobPending? || row'.status.JobUnknown? ==> row'.nextAttemptAt == second + Wait(cfg, row))
    && r == (match row'.status
             case JobSucceeded => Some(Succeeded)
             case JobPending => Some(RetryScheduled)
             case JobUnknown => Some(ReconciliationScheduled)
             case JobPermanentFailure => Some(PermanentFailure)
             case JobProcessing => None)
  }

  lemma RecordLeaves(cfg: Config, jobs: map<JobId, JobRow>, j: JobId, first: Time, second: Time, a: Answers,
                     pass: Pass, jobs': map<JobId, JobRow>, r: Option<WorkerResult>)
    requires j in jobs && Tells(cfg, jobs[j], a, pass.pc)
    requires pass.pc.Finishing? ==> pass.pc.claim == ClaimAt(cfg, jobs, j, first) && pass.pc.now == second
    requires Processed(jobs[j := TS.ClaimedRow(jobs[j], first, first + cfg.leaseSeconds)], pass, jobs', r)
    ensures j in jobs' && jobs' == jobs[j := jobs'[j]] && LeavesRow(cfg, jobs, j, first, second, a, jobs'[j], r)
  {
    var claimed := jobs[j := TS.ClaimedRow(jobs[j], first, first + cfg.leaseSeconds)];
    if pass.pc.Finishing? && pass.pc.finish.Succeed? {
      var t :| HandedBack(cfg, jobs[j], a, t) && pass.pc.finish == PaidBy(t);
      assert ES.TransferTaken(claimed, j, t.id) ==> BelongsToAnother(jobs, j, t);
    }
  }

  /** A result recorded without the lease changes nothing, and is reported all the same. */
  lemma FencedIsReported(jobs: map<JobId, JobRow>, pass: Pass, jobs': map<JobId, JobRow>, r: Option<WorkerResult>)
    requires pass.pc.Finishing? && Processed(jobs, pass, jobs', r)
    requires var c := pass.pc.claim;
             c.id in jobs && jobs[c.id].status.JobProcessing? ==> jobs[c.id].leaseUntil != Some(c.leaseUntil)
    ensures jobs' == jobs
    ensures r == Some(match pass.pc.finish
                      case Succeed(_, _) => Succeeded
                      case RetryLater(_, _) => RetryScheduled
                      case AwaitLookup(_, _) => ReconciliationScheduled
                      case GiveUp(_) => PermanentFailure)
  {
  }

  lemma SoloKeepsClaim(cfg: Config, transfers: seq<Transfer>, pc: Pc, a: Answers)
    ensures var r := Solo(cfg, transfers, pc, a).pc;
            r.Finishing? && (pc.Looking? || pc.Creating?) ==> r.claim == pc.claim && r.now == pc.now
    decreases Remaining(pc)
  {
    match pc
    case Looking(c, now, purpose) =>
      SoloKeepsClaim(cfg, transfers, OnLookup(cfg, c, now, purpose, Find(AnswerFor(a, purpose), CommandOf(c).external)),
                     a);
    case Creating(c, now) =>
      SoloKeepsClaim(cfg, Admit(transfers, CommandOf(c), a.create), OnCreate(cfg, c, now, a.create), a);
    case _ =>
  }

  /** One pass, from the job's row and the provider's answers alone. A job is given up for good exactly when the
      provider refused it for good, or its attempts are used up and a last lookup did not find its transfer; every
      other pass leaves it paid, or waiting for its next attempt, or under its lease. */
  lemma PassLeaves(cfg: Config, jobs: map<JobId, JobRow>, transfers: seq<Transfer>, j: JobId, first: Time,
                   second: Time, a: Answers, jobs': map<JobId, JobRow>, transfers': seq<Transfer>,
                   r: Option<WorkerResult>)
    requires Passed(cfg, jobs, transfers, j, first, second, a, jobs', transfers', r)
    ensures j in jobs' && jobs' == jobs[j := jobs'[j]] && LeavesRow(cfg, jobs, j, first, second, a, jobs'[j], r)
    ensures transfers' == TransfersAfter(jobs[j], transfers, a)
  {
    var c := ClaimAt(cfg, jobs, j, first);
    var pass := Solo(cfg, transfers, Start(c, second), a);
    if MayCreate(jobs[j]) {
      CreatingTells(cfg, transfers, jobs[j], c, second, a);
    } else {
      ReconcilingTells(cfg, transfers, jobs[j], c, second, a);
    }
    SoloKeepsClaim(cfg, transfers, Start(c, second), a);
    RecordLeaves(cfg, jobs, j, first, second, a, pass, jobs', r);
  }

  // ---- What passes achieve ----

  /** The transfer a create makes for a job. */
  function TransferFor(row: JobRow, o: CreateOutcome): Transfer {
    Transfer(o.id, TrialTransfer(row.invoice), row.net, o.status)
  }

  lemma NothingListed(transfers: seq<Transfer>, external: ExternalId, reply: LookupReply)
    requires !Client.Holds(transfers, external) && reply.Listed? && TruthfulLookup(transfers, reply)
    ensures Misses(reply, external)
  {
    forall t | t in reply.items ensures t.external != external {
      var i :| 0 <= i < |reply.items| && reply.items[i] == t;
      var k :| 0 <= k < |transfers| && transfers[k] == t;
    }
  }

  /** A pass over a job that was never paid, when the provider accepts its create, pays it: one new transfer, of the
      net amount, which the job shows, unless another job has a transfer with its id. */
  lemma AcceptedCreatePays(cfg: Config, jobs: map<JobId, JobRow>, transfers: seq<Transfer>, j: JobId, first: Time,
                           second: Time, a: Answers, jobs': map<JobId, JobRow>, transfers': seq<Transfer>,
                           r: Option<WorkerResult>)
    requires Passed(cfg, jobs, transfers, j, first, second, a, jobs', transfers', r)
    requires !jobs[j].status.JobUnknown? && !Client.Holds(transfers, TrialTransfer(jobs[j].invoice))
    requires a.first.Listed? && TruthfulLookup(transfers, a.first)
    requires a.create.reply.Accepted? && a.create.takesEffect
    ensures transfers' == transfers + [TransferFor(jobs[j], a.create)]
    ensures (jobs'[j].status.JobSucceeded? && r == Some(Succeeded))
            || (jobs'[j].status.JobProcessing? && Conflicts(cfg, jobs, j, a))
  {
    NothingListed(transfers, TrialTransfer(jobs[j].invoice), a.first);
    PassLeaves(cfg, jobs, transfers, j, first, second, a, jobs', transfers', r);
  }

  /** The create may have taken effect for all its reply tells. */
  predicate LosesReply(reply: CreateReply) {
    || reply.EmptyReply?
    || (reply.CreateRaised?
        && (reply.error.InternalServerError? || reply.error.UnknownError? || reply.error.ValidationError?))
  }

  /** A create that took effect but whose reply was lost, below the limit: the pass leaves the job with its outcome
      unknown. */
  lemma LostReplyIsUnknown(cfg: Config, jobs: map<JobId, JobRow>, transfers: seq<Transfer>, j: JobId, first: Time,
                           second: Time, a: Answers, jobs': map<JobId, JobRow>, transfers': seq<Transfer>,
                           r: Option<WorkerResult>)
    requires Passed(cfg, jobs, transfers, j, first, second, a, jobs', transfers', r)
    requires !jobs[j].status.JobUnknown? && !Client.Holds(transfers, TrialTransfer(jobs[j].invoice))
    requires jobs[j].attempts + 1 < cfg.maxAttempts
    requires a.first.Listed? && TruthfulLookup(transfers, a.first)
    requires a.create.takesEffect && LosesReply(a.create.reply)
    ensures transfers' == transfers + [TransferFor(jobs[j], a.create)]
    ensures j in jobs' && jobs'[j].status.JobUnknown? && r == Some(ReconciliationScheduled)
    ensures jobs'[j].nextAttemptAt == second + Wait(cfg, jobs[j])
  {
    NothingListed(transfers, TrialTransfer(jobs[j].invoice), a.first);
    PassLeaves(cfg, jobs, transfers, j, first, second, a, jobs', transfers', r);
  }

  /** The provider's one transfer for a job. */
  ghost predicate OnlyTransfer(transfers: seq<Transfer>, t: Transfer) {
    t in transfers && forall u :: u in transfers && u.external == t.external ==> u == t
  }

  /** A lost reply is recovered by the next pass over the job, whatever happened to other jobs and transfers since:
      when the lookup lists the transfer, the job ends paid with it and nothing is created, unless another job has
      its id. */
  lemma LostReplyIsRecovered(cfg: Config, jobs: map<JobId, JobRow>, transfers: seq<Transfer>, j: JobId, first: Time,
                             second: Time, a: Answers, jobs1: map<JobId, JobRow>, transfers1: seq<Transfer>,
                             r1: Option<WorkerResult>, jobs2: map<JobId, JobRow>, transfers2: seq<Transfer>,
                             first': Time, second': Time, a': Answers, jobs3: map<JobId, JobRow>,
                             transfers3: seq<Transfer>, r3: Option<WorkerResult>)
    requires Passed(cfg, jobs, transfers, j, first, second, a, jobs1, transfers1, r1)
    requires !jobs[j].status.JobUnknown? && !Client.Holds(transfers, TrialTransfer(jobs[j].invoice))
    requires jobs[j].attempts + 1 < cfg.maxAttempts
    requires a.first.Listed? && TruthfulLookup(transfers, a.first)
    requires a.create.takesEffect && LosesReply(a.create.reply)
    requires j in jobs1 && j in jobs2 && jobs2[j].status == jobs1[j].status
    requires jobs2[j].invoice == jobs1[j].invoice && jobs2[j].net == jobs1[j].net
    requires OnlyTransfer(transfers2, TransferFor(jobs[j], a.create))
    requires Passed(cfg, jobs2, transfers2, j, first', second', a', jobs3, transfers3, r3)
    requires a'.first.Listed? && TruthfulLookup(transfers2, a'.first)
    requires TransferFor(jobs[j], a.create) in a'.first.items
    ensures jobs1[j].status.JobUnknown? && transfers1 == transfers + [TransferFor(jobs[j], a.create)]
    ensures transfers3 == transfers2
    ensures var t := TransferFor(jobs[j], a.create);
            || (jobs3[j].status.JobSucceeded? && jobs3[j].providerTransfer == Some(t.id) && r3 == Some(Succeeded))
            || (jobs3[j].status.JobProcessing? && BelongsToAnother(jobs2, j, t))
  {
    LostReplyIsUnknown(cfg, jobs, transfers, j, first, second, a, jobs1, transfers1, r1);
    PassLeaves(cfg, jobs, transfers, j, first, second, a, jobs1, transfers1, r1);
    PassLeaves(cfg, jobs2, transfers2, j, first', second', a', jobs3, transfers3, r3);
    assert Sees(a'.first, TrialTransfer(jobs[j].invoice));
    forall u | HandedBack(cfg, jobs2[j], a', u) ensures u == TransferFor(jobs[j], a.create) {
      assert u in transfers2;
    }
  }
}
