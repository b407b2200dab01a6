/** Service steps: a tick, a reconciliation pass, a delivery, the start of a run, a smoke run and a worker's
    transaction are each indivisible, though a tick, a pass or a smoke run may end part-way. Every service
    step is a run of the machine of single moves, so what holds over its runs holds over these. */
module ServiceRuns {
  import opened Domain
  import opened Transactions
  import opened InvoiceProvider
  import opened TrialService
  import opened DraftProtocol
  import opened ServiceMoves
  import opened RemoteInvoices
  import opened SmokeBatch
  import opened SmokeIdempotence
  import opened TagPayouts
  import opened ServicePayouts
  import opened OwnershipMirror
  import opened DraftTermination
  import opened TruthfulCompletion
  import IS = InvoiceStore
  import RS = TrialStore

  datatype Step =
    | Tick(batch: BatchId, payers: DraftId -> Cents, page: seq<IS.InvoiceDraft>, answers: DraftId -> Answer,
           saves: bool, death: Death, settles: bool, at: Time)
    | IdleTick(at: Time)
    | Reconciliation(unknown: seq<IS.InvoiceDraft>, replies: DraftId -> Lookup, death: Death, batches: seq<BatchId>,
                     at: Time)
    | Delivery(event: EventTxn)
    | StartTrial(run: RunId, at: Time, counts: seq<int>)
    | Smoke(namespace: string, reference: string, count: nat, ordinals: nat -> SmokeAnswer, stops: nat -> Stop)
    | Dispatch(job: JobTxn)

  /** The pages and the batch of a step are those its queries return. */
  ghost predicate CanStep(w: World, step: Step, cfg: TrialConfig) {
    match step
    case Tick(b, payers, page, _, _, _, _, at) =>
      IsFirstClaimable(w.db.batches, b, at, cfg.maxClaims) && IsTickPage(w.db, b, payers, page, at, cfg)
    case IdleTick(at) => forall b :: b in w.db.batches ==> !RS.BatchClaimable(w.db.batches[b], at, cfg.maxClaims)
    case Reconciliation(page, _, _, _, at) => IS.IsUnknownPage(w.db.drafts, at, 100, page)
    case _ => true
  }

  ghost function StepWorld(w: World, step: Step, cfg: TrialConfig): World
    requires CanStep(w, step, cfg)
  {
    match step
    case Tick(b, payers, page, answers, saves, death, settles, at) =>
      TickBatch(w, b, payers, page, answers, saves, death, settles, at, cfg).world
    case IdleTick(at) => w.(db := RS.DegradeExhausted(w.db, at, cfg.maxClaims))
    case Reconciliation(page, replies, death, batches, at) =>
      ReconcilePass(w, page, replies, death, batches, at, cfg).world
    case Delivery(txn) => w.(db := EventStep(w.db, txn))
    case StartTrial(run, at, counts) => w.(db := RunStep(w.db, StartRun(run, at, counts), cfg.maxClaims))
    case Smoke(namespace, reference, n, ordinals, stops) => SmokeRun(w, namespace, reference, n, ordinals, stops).world
    case Dispatch(txn) => w.(db := w.db.(jobs := JobStep(w.db.jobs, txn)))
  }

  ghost function StepNext(s: Service, step: Step, cfg: TrialConfig): Service {
    if !CanStep(s.world, step, cfg) then s
    else Service(StepWorld(s.world, step, cfg),
                 s.payouts + if step.Delivery? then Queues(s.world.db, step.event) else [])
  }

  ghost function ServiceRun(s: Service, steps: seq<Step>, cfg: TrialConfig): Service
    decreases |steps|
  {
    if steps == [] then s else ServiceRun(StepNext(s, steps[0], cfg), steps[1..], cfg)
  }

  // ---- Trusted providers ----

  ghost predicate TrustedIssues(trust: Trust, w: World, page: seq<IS.InvoiceDraft>, answers: DraftId -> Answer,
                                death: Death, at: Time, cfg: TrialConfig)
    decreases |page|
  {
    DiesBefore(death) || page == []
    || (TrustedMove(trust, w, IssueDraft(page[0], answers(page[0].id), DiesDuring(death), at))
        && var p := Issue(w, page[0], answers(page[0].id), DiesDuring(death), at, cfg);
           (p.alive ==> TrustedIssues(trust, p.world, page[1..], answers, Later(death), at, cfg)))
  }

  ghost predicate TrustedStep(trust: Trust, w: World, step: Step, cfg: TrialConfig)
    requires CanStep(w, step, cfg)
  {
    match step
    case Tick(b, payers, page, answers, _, death, _, at) =>
      var saved := OpenBatch(w.db, b, payers, at, cfg);
      saved.Committed? ==> TrustedIssues(trust, w.(db := saved.db), page, answers, death, at, cfg)
    case Reconciliation(page, replies, _, _, _) => trust.Honest? ==> HonestLookups(w.remote, page, replies)
    case Delivery(txn) => TrustedMove(trust, w, OnEvents(txn))
    case Smoke(namespace, reference, n, ordinals, stops) =>
      TrustedSmoke(trust, w, namespace, reference, n, ordinals, stops)
    case _ => true
  }

  ghost predicate TrustedSteps(trust: Trust, s: Service, steps: seq<Step>, cfg: TrialConfig)
    decreases |steps|
  {
    steps == []
    || ((CanStep(s.world, steps[0], cfg) ==> TrustedStep(trust, s.world, steps[0], cfg))
        && TrustedSteps(trust, StepNext(s, steps[0], cfg), steps[1..], cfg))
  }

  /** The process of the step does not die between a create and its store write. */
  predicate StoresCreates(step: Step) {
    step.Tick? ==> !(step.death.DiesAt? && step.death.afterCreate)
  }

  // ---- Passes are runs of the machine ----

  /** The first draft of a page is as listed; after its issue the others still are. */
  lemma IssueNext(s: Service, page: seq<IS.InvoiceDraft>, a: Answer, dies: bool, at: Time, cfg: TrialConfig)
    requires ExactIn(s.world) && page != [] && AllListed(s.world.db.drafts, page, DraftPending)
    ensures var p := Issue(s.world, page[0], a, dies, at, cfg);
            && CanMove(s.world, IssueDraft(page[0], a, dies, at))
            && AfterMove(s, IssueDraft(page[0], a, dies, at), cfg) == s.(world := p.world)
            && ExactIn(p.world) && AllListed(p.world.db.drafts, page[1..], DraftPending)
  {
    var d := page[0];
    assert Listed(s.world.db.drafts, d, DraftPending);
    IssueEffect(s.world, d, a, dies, at, cfg);
    RestListed(s.world.db.drafts, Issue(s.world, d, a, dies, at, cfg).world.db.drafts, page, DraftPending,
               IssuedRow(s.world.db.drafts[d.id], a, at, cfg));
  }

  lemma {:induction false} IssuesAreMoves(s: Service, page: seq<IS.InvoiceDraft>, answers: DraftId -> Answer,
                                          death: Death, at: Time, trust: Trust, cfg: TrialConfig)
    returns (moves: seq<Move>)
    requires ExactIn(s.world) && AllListed(s.world.db.drafts, page, DraftPending)
    ensures RunMoves(s, moves, cfg) == s.(world := IssueAll(s.world, page, answers, death, at, cfg).world)
    ensures TrustedIssues(trust, s.world, page, answers, death, at, cfg) ==> TrustedRun(trust, s, moves, cfg)
    ensures !(death.DiesAt? && death.afterCreate) ==> NoDeaths(moves)
    decreases |page|
  {
    moves := [];
    if !DiesBefore(death) && page != [] {
      var a, dies := answers(page[0].id), DiesDuring(death);
      var m := IssueDraft(page[0], a, dies, at);
      var p := Issue(s.world, page[0], a, dies, at, cfg);
      IssueNext(s, page, a, dies, at, cfg);
      if p.alive {
        moves := IssuesAreMoves(s.(world := p.world), page[1..], answers, Later(death), at, trust, cfg);
      }
      RunCons(trust, s, m, moves, cfg);
      moves := [m] + moves;
    }
  }

  ghost predicate HonestLookups(remote: map<InvoiceId, Tag>, page: seq<IS.InvoiceDraft>, replies: DraftId -> Lookup) {
    forall i :: 0 <= i < |page| ==> HonestLookup(remote, TrialTag(page[i].id), replies(page[i].id))
  }

  lemma LookUpNext(s: Service, page: seq<IS.InvoiceDraft>, reply: Lookup, at: Time, cfg: TrialConfig)
    requires ExactIn(s.world) && page != [] && AllListed(s.world.db.drafts, page, DraftUnknown)
    ensures var p := ReconcileOne(s.world, page[0], reply, at, cfg);
            && CanMove(s.world, LookUpDraft(page[0], reply, at))
            && AfterMove(s, LookUpDraft(page[0], reply, at), cfg) == s.(world := p.world)
            && ExactIn(p.world) && p.world.remote == s.world.remote
            && AllListed(p.world.db.drafts, page[1..], DraftUnknown)
  {
    var d := page[0];
    assert Listed(s.world.db.drafts, d, DraftUnknown);
    ReconcileEffect(s.world, d, reply, at, cfg);
    RestListed(s.world.db.drafts, ReconcileOne(s.world, d, reply, at, cfg).world.db.drafts, page, DraftUnknown,
               ReconciledRow(s.world.db.drafts[d.id], reply, at, cfg));
  }

  lemma {:induction false} LookupsAreMoves(s: Service, page: seq<IS.InvoiceDraft>, replies: DraftId -> Lookup,
                                           death: Death, at: Time, trust: Trust, cfg: TrialConfig)
    returns (moves: seq<Move>)
    requires ExactIn(s.world) && AllListed(s.world.db.drafts, page, DraftUnknown)
    ensures RunMoves(s, moves, cfg) == s.(world := ReconcileAll(s.world, page, replies, death, at, cfg).world)
    ensures (trust.Honest? ==> HonestLookups(s.world.remote, page, replies)) ==> TrustedRun(trust, s, moves, cfg)
    ensures NoDeaths(moves)
    decreases |page|
  {
    moves := [];
    if !DiesBefore(death) && page != [] {
      var reply := replies(page[0].id);
      var m := LookUpDraft(page[0], reply, at);
      var p := ReconcileOne(s.world, page[0], reply, at, cfg);
      LookUpNext(s, page, reply, at, cfg);
      if p.alive {
        moves := LookupsAreMoves(s.(world := p.world), page[1..], replies, Later(death), at, trust, cfg);
      }
      RunCons(trust, s, m, moves, cfg);
      moves := [m] + moves;
    }
  }

  lemma OneMove(s: Service, m: Move, trust: Trust, cfg: TrialConfig)
    ensures RunMoves(s, [m], cfg) == AfterMove(s, m, cfg)
    ensures TrustedRun(trust, s, [m], cfg) <==> (CanMove(s.world, m) ==> TrustedMove(trust, s.world, m))
  {
    assert [m] == [m] + [];
    RunCons(trust, s, m, [], cfg);
  }

  lemma {:induction false} SettlementsAreMoves(s: Service, batches: seq<BatchId>, at: Time, trust: Trust,
                                               cfg: TrialConfig)
    returns (moves: seq<Move>)
    ensures RunMoves(s, moves, cfg) == s.(world := SettleAll(s.world, batches, at).world)
    ensures TrustedRun(trust, s, moves, cfg)
    ensures NoDeaths(moves)
    decreases |batches|
  {
    moves := [];
    if batches != [] {
      var before := batches[..|batches| - 1];
      moves := SettlementsAreMoves(s, before, at, trust, cfg);
      var p := SettleAll(s.world, before, at);
      if p.alive {
        var s1 := s.(world := p.world);
        var m := OnRuns(SettleBatch(batches[|batches| - 1], at));
        OneMove(s1, m, trust, cfg);
        assert AfterMove(s1, m, cfg).payouts == s.payouts;
        JoinRuns(trust, s, moves, [m], cfg);
        moves := moves + [m];
      }
    }
  }

  lemma TickOpens(s: Service, b: BatchId, payers: DraftId -> Cents, saves: bool, at: Time, trust: Trust,
                  cfg: TrialConfig)
    returns (moves: seq<Move>)
    requires b in s.world.db.batches && RS.BatchClaimable(s.world.db.batches[b], at, cfg.maxClaims)
    ensures var saved := OpenBatch(s.world.db, b, payers, at, cfg);
            RunMoves(s, moves, cfg) == s.(world := s.world.(db := if saves && saved.Committed? then saved.db
                                                              else RS.ClaimBatch(s.world.db, b, at + cfg.leaseSeconds)))
    ensures TrustedRun(trust, s, moves, cfg)
    ensures NoDeaths(moves)
  {
    var lease := OnRuns(LeaseBatch(b, at, at + cfg.leaseSeconds));
    var s1 := AfterMove(s, lease, cfg);
    assert s1 == s.(world := s.world.(db := RS.ClaimBatch(s.world.db, b, at + cfg.leaseSeconds)));
    OneMove(s, lease, trust, cfg);
    moves := [lease];
    if saves {
      var save := SaveBatch(b, Amounts(payers, b, s.world.db.batches[b].target), at);
      OneMove(s1, save, trust, cfg);
      assert AfterMove(s1, save, cfg).payouts == s.payouts;
      RunCons(trust, s, lease, [save], cfg);
      moves := [lease] + [save];
    }
  }

  /** A tick whose batch is open: its drafts, and the settlement if the process gets there. */
  lemma IssuesAndSettlement(s: Service, step: Step, trust: Trust, cfg: TrialConfig) returns (moves: seq<Move>)
    requires step.Tick? && ExactIn(s.world) && AllListed(s.world.db.drafts, step.page, DraftPending)
    ensures var p := IssueAll(s.world, step.page, step.answers, step.death, step.at, cfg);
            RunMoves(s, moves, cfg)
              == s.(world := if p.alive && step.settles then SettleIn(p.world, step.batch, step.at).world else p.world)
    ensures TrustedIssues(trust, s.world, step.page, step.answers, step.death, step.at, cfg) ==>
              TrustedRun(trust, s, moves, cfg)
    ensures StoresCreates(step) ==> NoDeaths(moves)
  {
    moves := IssuesAreMoves(s, step.page, step.answers, step.death, step.at, trust, cfg);
    var p := IssueAll(s.world, step.page, step.answers, step.death, step.at, cfg);
    if p.alive && step.settles {
      var s1 := s.(world := p.world);
      var settle := OnRuns(SettleBatch(step.batch, step.at));
      OneMove(s1, settle, trust, cfg);
      assert AfterMove(s1, settle, cfg) == s.(world := SettleIn(p.world, step.batch, step.at).world);
      JoinRuns(trust, s, moves, [settle], cfg);
      moves := moves + [settle];
    }
  }

  lemma TickIsMoves(s: Service, step: Step, trust: Trust, cfg: TrialConfig) returns (moves: seq<Move>)
    requires ExactIn(s.world) && step.Tick? && CanStep(s.world, step, cfg)
    ensures RunMoves(s, moves, cfg) == s.(world := StepWorld(s.world, step, cfg))
    ensures TrustedStep(trust, s.world, step, cfg) ==> TrustedRun(trust, s, moves, cfg)
    ensures StoresCreates(step) ==> NoDeaths(moves)
  {
    moves := TickOpens(s, step.batch, step.payers, step.saves, step.at, trust, cfg);
    if step.saves && OpenBatch(s.world.db, step.batch, step.payers, step.at, cfg).Committed? {
      var s1 := RunMoves(s, moves, cfg);
      KeptRun(s, moves, cfg);
      var rest := IssuesAndSettlement(s1, step, trust, cfg);
      JoinRuns(trust, s, moves, rest, cfg);
      moves := moves + rest;
    }
  }

  lemma ReconciliationIsMoves(s: Service, step: Step, trust: Trust, cfg: TrialConfig) returns (moves: seq<Move>)
    requires ExactIn(s.world) && step.Reconciliation? && CanStep(s.world, step, cfg)
    ensures RunMoves(s, moves, cfg) == s.(world := StepWorld(s.world, step, cfg))
    ensures TrustedStep(trust, s.world, step, cfg) ==> TrustedRun(trust, s, moves, cfg)
    ensures StoresCreates(step) ==> NoDeaths(moves)
  {
    moves := LookupsAreMoves(s, step.unknown, step.replies, step.death, step.at, trust, cfg);
    var p := ReconcileAll(s.world, step.unknown, step.replies, step.death, step.at, cfg);
    if p.alive {
      var s1 := s.(world := p.world);
      var settlements := SettlementsAreMoves(s1, step.batches, step.at, trust, cfg);
      JoinRuns(trust, s, moves, settlements, cfg);
      moves := moves + settlements;
    }
  }

  /** Every service step, also one that ends part-way, is a run of the machine. */
  lemma StepIsMoves(s: Service, step: Step, trust: Trust, cfg: TrialConfig) returns (moves: seq<Move>)
    requires ExactIn(s.world) && CanStep(s.world, step, cfg)
    ensures RunMoves(s, moves, cfg) == StepNext(s, step, cfg)
    ensures TrustedStep(trust, s.world, step, cfg) ==> TrustedRun(trust, s, moves, cfg)
    ensures StoresCreates(step) ==> NoDeaths(moves)
  {
    match step
    case Tick(_, _, _, _, _, _, _, _) => moves := TickIsMoves(s, step, trust, cfg);
    case Reconciliation(_, _, _, _, _) => moves := ReconciliationIsMoves(s, step, trust, cfg);
    case Smoke(namespace, reference, n, ordinals, stops) =>
      moves := SmokeIsMoves(s, namespace, reference, n, ordinals, stops, trust, cfg);
    case IdleTick(at) =>
      OneMove(s, OnRuns(DegradeBatches(at)), trust, cfg);
      moves := [OnRuns(DegradeBatches(at))];
    case StartTrial(run, at, counts) =>
      OneMove(s, OnRuns(StartRun(run, at, counts)), trust, cfg);
      moves := [OnRuns(StartRun(run, at, counts))];
    case Delivery(txn) =>
      OneMove(s, OnEvents(txn), trust, cfg);
      moves := [OnEvents(txn)];
    case Dispatch(txn) =>
      OneMove(s, OnJobs(txn), trust, cfg);
      moves := [OnJobs(txn)];
  }

  lemma {:induction false} ServiceRunIsMoves(s: Service, steps: seq<Step>, trust: Trust, cfg: TrialConfig)
    returns (moves: seq<Move>)
    requires ExactIn(s.world)
    ensures RunMoves(s, moves, cfg) == ServiceRun(s, steps, cfg)
    ensures TrustedSteps(trust, s, steps, cfg) ==> TrustedRun(trust, s, moves, cfg)
    ensures (forall i :: 0 <= i < |steps| ==> StoresCreates(steps[i])) ==> NoDeaths(moves)
    decreases |steps|
  {
    moves := [];
    if steps != [] {
      var s1 := StepNext(s, steps[0], cfg);
      var first: seq<Move> := [];
      if CanStep(s.world, steps[0], cfg) {
        first := StepIsMoves(s, steps[0], trust, cfg);
      }
      KeptRun(s, first, cfg);
      var rest := ServiceRunIsMoves(s1, steps[1..], trust, cfg);
      JoinRuns(trust, s, first, rest, cfg);
      moves := first + rest;
    }
  }

  // ---- What service runs keep ----

  /** Over any run of service steps from the start: jobs and payouts correspond one to one with no tag paid
      twice, every draft stays within its bounds, and every run marked completed is. */
  lemma ServiceRunsAreSafe(steps: seq<Step>, cfg: TrialConfig)
    requires ValidTrialConfig(cfg)
    ensures var s := ServiceRun(FRESH_SERVICE, steps, cfg);
            && PayoutsOk(s.world.db.owned, s.world.db.jobs, s.payouts)
            && (forall d :: d in s.world.db.drafts ==>
                  DraftEnds(s.world.db.drafts[d], TallyOf(s.world.tallies, d), cfg))
            && (forall r :: r in s.world.db.runs && s.world.db.runs[r].status.RunCompleted? ==>
                  TrulyCompleted(s.world.db, r))
  {
    var moves := ServiceRunIsMoves(FRESH_SERVICE, steps, Seeing, cfg);
    var s := ServiceRun(FRESH_SERVICE, steps, cfg);
    ServicesPayOnce(moves, cfg);
    forall d | d in s.world.db.drafts ensures DraftEnds(s.world.db.drafts[d], TallyOf(s.world.tallies, d), cfg) {
      DraftsEnd(moves, cfg, d);
    }
    forall r | r in s.world.db.runs && s.world.db.runs[r].status.RunCompleted? ensures TrulyCompleted(s.world.db, r) {
      CompletedRunsAreTrue(moves, cfg, r);
    }
  }

  /** From any state the services reached, later steps keep created drafts, completed batches and bindings. */
  lemma ServiceRunsKeep(steps: seq<Step>, more: seq<Step>, cfg: TrialConfig)
    requires ValidTrialConfig(cfg)
    ensures var s := ServiceRun(FRESH_SERVICE, steps, cfg);
            var s' := ServiceRun(s, more, cfg);
            StatusesKept(s.world, s'.world) && BindingsKept(s.world.db.owned, s'.world.db.owned)
  {
    var s := ServiceRun(FRESH_SERVICE, steps, cfg);
    var moves := ServiceRunIsMoves(FRESH_SERVICE, steps, Seeing, cfg);
    CompletionRun(FRESH_SERVICE, moves, cfg);
    var later := ServiceRunIsMoves(s, more, Seeing, cfg);
    CompletionRun(s, later, cfg);
    KeptRun(s, later, cfg);
  }

  /** Service steps whose lookups before a repeated create see past creates, and whose creates use fresh ids,
      leave at most one invoice for a draft's tag if and only if at most one create took effect while no attempt
      of the draft was counted. */
  lemma ServiceInvoicesExactly(steps: seq<Step>, cfg: TrialConfig, d: DraftId)
    requires TrustedSteps(Seeing, FRESH_SERVICE, steps, cfg)
    ensures CountedInvoices(ServiceRun(FRESH_SERVICE, steps, cfg).world, d)
  {
    var moves := ServiceRunIsMoves(FRESH_SERVICE, steps, Seeing, cfg);
    OneInvoicePerDraft(moves, cfg, d);
  }

  /** With an honest provider they leave at most one for a smoke tag; and at most one for a draft's tag, when no
      process dies between a create and its store write. */
  lemma ServiceInvoices(steps: seq<Step>, cfg: TrialConfig, d: DraftId, key: string)
    requires TrustedSteps(Honest, FRESH_SERVICE, steps, cfg)
    ensures var w := ServiceRun(FRESH_SERVICE, steps, cfg).world;
            |Invoices(w.remote, SmokeTag(key))| <= 1
            && ((forall i :: 0 <= i < |steps| ==> StoresCreates(steps[i])) ==> |Invoices(w.remote, TrialTag(d))| <= 1)
  {
    var moves := ServiceRunIsMoves(FRESH_SERVICE, steps, Honest, cfg);
    RemoteRun(FRESH_SERVICE, moves, cfg);
    if forall i :: 0 <= i < |steps| ==> StoresCreates(steps[i]) {
      NoDeathOneInvoice(moves, cfg, d);
    }
  }
}
