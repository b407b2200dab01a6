/** The services' moves as transactions: they never overwrite a binding, so no tag is paid twice. */
module ServicePayouts {
  import opened Domain
  import opened Transactions
  import opened InvoiceProvider
  import opened TrialService
  import opened DraftProtocol
  import opened TagPayouts
  import opened ServiceMoves
  import IS = InvoiceStore

  function FailureOf(d: IS.InvoiceDraft, e: InvoiceError, at: Time): IS.DraftFailure {
    IS.DraftFailure(d.id, e.Name(), at)
  }

  /** The store write of an issue. */
  function IssueTxn(d: IS.InvoiceDraft, a: Answer, at: Time, cfg: TrialConfig): InvoiceTxn {
    if SettledByLookup(d, a) then
      match a.lookup
      case Found(x) => MarkCreated(d.id, x, at)
      case LookupRaised(e) =>
        if e.Retryable() then RetryDraft(FailureOf(d, e, at), DraftBackoff(cfg, d.attempts), cfg.maxAttempts)
        else MarkFailed(FailureOf(d, e, at))
    else
      match a.creation.reply
      case Ok(x) => MarkCreated(d.id, x, at)
      case CreateRaised(e) =>
        if e.TimesOut() then MarkUnknown(FailureOf(d, e, at))
        else if e.Retryable() then RetryDraft(FailureOf(d, e, at), DraftBackoff(cfg, d.attempts), cfg.maxAttempts)
        else MarkFailed(FailureOf(d, e, at))
  }

  /** The transaction of a move, if it has one. */
  function TxnsOf(m: Move, cfg: TrialConfig): seq<Txn> {
    match m
    case IssueDraft(d, a, dies, at) =>
      if dies && !SettledByLookup(d, a) then [] else [OfInvoices(IssueTxn(d, a, at, cfg))]
    case LookUpDraft(d, reply, at) =>
      if reply.LookupRaised? then []
      else [OfInvoices(ReconcileDraft(d, FoundIn(reply), at, cfg.maxAttempts, cfg.maxReconciles,
                                      DraftBackoff(cfg, d.attempts)))]
    case SaveBatch(b, amounts, at) => [OfInvoices(SaveDrafts(b, amounts, at))]
    case OnRuns(txn) => [OfRuns(txn)]
    case OnEvents(txn) => [OfEvents(txn)]
    case OnJobs(txn) => [OfJobs(txn)]
    case RegisterSmokeTag(key, at) => [OfInvoices(RegisterSmoke(key, at))]
    case CreateSmoke(_, _) => []
    case BindSmoke(key, x, at) => [OfInvoices(BindInvoice(SmokeTag(key), x, at))]
  }

  ghost function BooksOf(s: Service): Books {
    Books(s.world.db, s.payouts)
  }

  lemma IssueIsTransaction(w: World, d: IS.InvoiceDraft, a: Answer, at: Time, cfg: TrialConfig)
    ensures Issue(w, d, a, false, at, cfg).world.db == InvoiceStep(w.db, IssueTxn(d, a, at, cfg))
  {
  }

  lemma MoveIsTransaction(s: Service, m: Move, cfg: TrialConfig)
    requires CanMove(s.world, m)
    ensures var txns := TxnsOf(m, cfg);
            if txns == [] then BooksOf(AfterMove(s, m, cfg)) == BooksOf(s)
            else |txns| == 1 && BooksOf(AfterMove(s, m, cfg)) == PayStep(BooksOf(s), txns[0], cfg.maxClaims)
  {
    if m.IssueDraft? {
      IssueIsTransaction(s.world, m.draft, m.answer, m.at, cfg);
    }
  }

  /** A listed draft is unbound, so the move that stores its answer overwrites nothing. */
  lemma MoveOverwritesNothing(w: World, m: Move, txn: Txn, cfg: TrialConfig)
    requires ExactIn(w) && CanMove(w, m) && TxnsOf(m, cfg) == [txn]
    ensures !Overwrites(w.db.owned, txn)
  {
    if m.IssueDraft? || m.LookUpDraft? {
      assert ExactDraft(w.db.owned, w.db.drafts, m.draft.id);
    }
  }

  lemma RunJoins(s: Books, a: seq<Txn>, b: seq<Txn>, maxClaims: int)
    requires |a| <= 1
    ensures var mid := if a == [] then s else PayStep(s, a[0], maxClaims);
            && PayRun(s, a + b, maxClaims) == PayRun(mid, b, maxClaims)
            && (Guarded(s, a + b, maxClaims) <==> (a == [] || !OverwritesPaid(s, a[0])) && Guarded(mid, b, maxClaims))
  {
    if a == [] {
      assert a + b == b;
    } else {
      assert (a + b)[1..] == b;
    }
  }

  /** Every run of moves is a guarded run of transactions. */
  lemma {:induction false} RunIsGuarded(s: Service, moves: seq<Move>, cfg: TrialConfig) returns (txns: seq<Txn>)
    requires ExactIn(s.world)
    ensures PayRun(BooksOf(s), txns, cfg.maxClaims) == BooksOf(RunMoves(s, moves, cfg))
    ensures Guarded(BooksOf(s), txns, cfg.maxClaims)
    decreases |moves|
  {
    txns := [];
    if moves != [] {
      var s', m := AfterMove(s, moves[0], cfg), moves[0];
      var first: seq<Txn> := [];
      if CanMove(s.world, m) {
        first := TxnsOf(m, cfg);
        KeptMove(s.world, m, cfg);
        MoveIsTransaction(s, m, cfg);
        if first != [] {
          assert first == [first[0]];
          MoveOverwritesNothing(s.world, m, first[0], cfg);
        }
      }
      var rest := RunIsGuarded(s', moves[1..], cfg);
      RunJoins(BooksOf(s), first, rest, cfg.maxClaims);
      txns := first + rest;
    }
  }

  /** Over any run of the services' moves from the start, whatever the provider answers, jobs and payouts
      correspond one to one and no tag is paid twice. */
  lemma ServicesPayOnce(moves: seq<Move>, cfg: TrialConfig)
    ensures var s := RunMoves(FRESH_SERVICE, moves, cfg);
            && PayoutsOk(s.world.db.owned, s.world.db.jobs, s.payouts)
            && (forall i, k :: 0 <= i < |s.payouts| && 0 <= k < |s.payouts| && s.payouts[i].tag == s.payouts[k].tag ==>
                  i == k)
  {
    var txns := RunIsGuarded(FRESH_SERVICE, moves, cfg);
    OnePayoutPerTag(txns, cfg.maxClaims);
  }
}
