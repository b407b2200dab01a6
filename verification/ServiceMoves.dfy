/** The trial, webhook, worker and smoke services as one machine that moves a draft, a transaction or a
    provider call at a time. Its one restriction is what an indivisible pass gives: a draft is issued only
    while it is pending as the page listed it, and looked up by the reconciler only while it is unknown as
    listed. Everything else interleaves freely, and a process may die after any move. */
module ServiceMoves {
  import opened Domain
  import opened Tables
  import opened Transactions
  import opened InvoiceProvider
  import opened OwnershipMirror
  import opened TagPayouts
  import opened TrialService
  import opened DraftProtocol
  import ES = EventStore
  import IS = InvoiceStore

  datatype Service = Service(world: World, payouts: seq<Payout>)

  const FRESH_SERVICE: Service := Service(World(EMPTY_DB, map[], map[]), [])

  datatype Move =
    | IssueDraft(draft: IS.InvoiceDraft, answer: Answer, dies: bool, at: Time)
    | LookUpDraft(draft: IS.InvoiceDraft, reply: Lookup, at: Time)
    | SaveBatch(batch: BatchId, amounts: seq<Cents>, at: Time)
    | OnRuns(run: RunTxn)
    | OnEvents(event: EventTxn)
    | OnJobs(job: JobTxn)
    | RegisterSmokeTag(key: string, at: Time)
    | CreateSmoke(key: string, creation: Creation)
    | BindSmoke(key: string, invoice: InvoiceId, at: Time)

  ghost predicate CanMove(w: World, m: Move) {
    match m
    case IssueDraft(d, _, _, _) => Listed(w.db.drafts, d, DraftPending)
    case LookUpDraft(d, _, _) => Listed(w.db.drafts, d, DraftUnknown)
    case SaveBatch(b, amounts, _) => b in w.db.batches && |amounts| == w.db.batches[b].target
    case _ => true
  }

  ghost function MoveWorld(w: World, m: Move, cfg: TrialConfig): World {
    match m
    case IssueDraft(d, a, dies, at) => Issue(w, d, a, dies, at, cfg).world
    case LookUpDraft(d, reply, at) => ReconcileOne(w, d, reply, at, cfg).world
    case SaveBatch(b, amounts, at) => w.(db := After(w.db, IS.Save(w.db, b, amounts, at)))
    case OnRuns(txn) => w.(db := RunStep(w.db, txn, cfg.maxClaims))
    case OnEvents(txn) => w.(db := EventStep(w.db, txn))
    case OnJobs(txn) => w.(db := w.db.(jobs := JobStep(w.db.jobs, txn)))
    case RegisterSmokeTag(key, at) => w.(db := IS.RegisterSmoke(w.db, SmokeTag(key), at))
    case CreateSmoke(key, c) => w.(remote := AdmitInvoice(w.remote, SmokeTag(key), c))
    case BindSmoke(key, x, at) => w.(db := After(w.db, IS.Bind(w.db, SmokeTag(key), x, at)))
  }

  ghost function AfterMove(s: Service, m: Move, cfg: TrialConfig): Service {
    if !CanMove(s.world, m) then s
    else Service(MoveWorld(s.world, m, cfg), s.payouts + if m.OnEvents? then Queues(s.world.db, m.event) else [])
  }

  ghost function RunMoves(s: Service, moves: seq<Move>, cfg: TrialConfig): Service
    decreases |moves|
  {
    if moves == [] then s else RunMoves(AfterMove(s, moves[0], cfg), moves[1..], cfg)
  }

  lemma {:induction false} RunConcat(s: Service, a: seq<Move>, b: seq<Move>, cfg: TrialConfig)
    ensures RunMoves(s, a + b, cfg) == RunMoves(RunMoves(s, a, cfg), b, cfg)
    decreases |a|
  {
    if a == [] {
      assert a + b == b;
    } else {
      assert (a + b)[1..] == a[1..] + b;
      RunConcat(AfterMove(s, a[0], cfg), a[1..], b, cfg);
    }
  }

  // ---- What every move keeps ----

  ghost predicate ExactIn(w: World) {
    Exact(w.db.owned, w.db.drafts)
  }

  /** Bindings are written once, drafts stay, and created drafts stay created. */
  ghost predicate Kept(w: World, w': World) {
    BindingsKept(w.db.owned, w'.db.owned) && DraftsKept(w.db.drafts, w'.db.drafts)
  }

  lemma DeliverEffect(db: Db, txn: EventTxn)
    requires Exact(db.owned, db.drafts)
    ensures var db' := EventStep(db, txn);
            && Exact(db'.owned, db'.drafts)
            && ((db'.owned == db.owned && db'.drafts == db.drafts)
                || (txn.Deliver? && txn.event.Credited? && exists t :: CreditsTag(db, db', txn, t)))
  {
    if txn.Deliver? {
      var rec := MakeRecord(txn.event, txn.digest, txn.at);
      if rec.event.Lifecycle? {
        ES.TransferEffect(db, rec);
      } else {
        ES.RecordEffect(db, rec, txn.jobId);
        if rec.event.Credited? {
          AttributeEffect(db.owned, db.drafts, rec.event.invoice, rec.event.tags, rec.receivedAt);
          var a := ES.AttributionOf(db, rec);
          assert ES.Eligible(db, rec) && a.Attributed? ==> CreditsTag(db, EventStep(db, txn), txn, a.tag);
        }
      }
    }
  }

  /** A delivery that attributes its credit to the owned row of a tag. */
  ghost predicate CreditsTag(db: Db, db': Db, txn: EventTxn, t: Tag)
    requires txn.Deliver? && txn.event.Credited?
  {
    && ES.Attributable(db.owned, txn.event.invoice, txn.event.tags, t)
    && BindsAtMost(db.owned, db'.owned, t, Some(txn.event.invoice))
    && CreditsDraft(db.drafts, db'.drafts, t, txn.event.invoice, txn.at)
  }

  lemma KeptDraftMove(w: World, m: Move, cfg: TrialConfig)
    requires ExactIn(w) && CanMove(w, m) && (m.IssueDraft? || m.LookUpDraft?)
    ensures ExactIn(MoveWorld(w, m, cfg)) && Kept(w, MoveWorld(w, m, cfg))
  {
    match m
    case IssueDraft(d, a, dies, at) => IssueEffect(w, d, a, dies, at, cfg);
    case LookUpDraft(d, reply, at) => ReconcileEffect(w, d, reply, at, cfg);
  }

  lemma KeptMove(w: World, m: Move, cfg: TrialConfig)
    requires ExactIn(w) && CanMove(w, m)
    ensures ExactIn(MoveWorld(w, m, cfg)) && Kept(w, MoveWorld(w, m, cfg))
  {
    match m
    case SaveBatch(b, amounts, at) => SaveEffect(w.db, b, amounts, at);
    case OnRuns(txn) => RunFrame(w.db, txn, cfg.maxClaims);
    case OnEvents(txn) => DeliverEffect(w.db, txn);
    case RegisterSmokeTag(key, at) => SmokeRegisterEffect(w.db, key, at);
    case BindSmoke(key, x, at) => SmokeBindEffect(w.db, key, x, at);
    case _ =>
      if m.IssueDraft? || m.LookUpDraft? {
        KeptDraftMove(w, m, cfg);
      }
  }

  lemma {:induction false} KeptRun(s: Service, moves: seq<Move>, cfg: TrialConfig)
    requires ExactIn(s.world)
    ensures ExactIn(RunMoves(s, moves, cfg).world) && Kept(s.world, RunMoves(s, moves, cfg).world)
    decreases |moves|
  {
    if moves != [] {
      var s' := AfterMove(s, moves[0], cfg);
      if CanMove(s.world, moves[0]) {
        KeptMove(s.world, moves[0], cfg);
      }
      KeptRun(s', moves[1..], cfg);
    }
  }
}
