/** From owned tags to provider transfers: workers, deliveries and all other transactions interleaved, at most one
    transfer is made for each owned tag, as long as no draft write overwrites a binding that was paid. */
module TagTransfers {
  import opened Domain
  import opened Tables
  import opened Transactions
  import opened OwnershipMirror
  import opened Client
  import opened TransferWorker
  import opened TagPayouts
  import opened Payout
  import TS = TransferStore

  /** The machine of workers with the payouts that were queued so far. */
  datatype Shop = Shop(sys: Sys, payouts: seq<TagPayouts.Payout>)

  const OPENING: Shop := Shop(INITIAL, [])

  ghost function ShopBooks(s: Shop): Books {
    Books(s.sys.db, s.payouts)
  }

  /** The store transaction of an action, if it has one. */
  function ActionTxns(s: Sys, a: Action, cfg: Config): seq<Txn>
    requires a.Record? ==> PcOf(s, a.w).Finishing?
  {
    match a
    case Store(txn) => [txn]
    case Claim(_, j, now) => [OfJobs(LeaseJob(j, now, now + cfg.leaseSeconds))]
    case Record(w) => [OfJobs(FinishJob(PcOf(s, w).claim, PcOf(s, w).finish, PcOf(s, w).now))]
    case _ => []
  }

  ghost function ShopNext(s: Shop, a: Action, cfg: Config, maxClaims: int, decode: Digest -> Event): Shop {
    Shop(Next(s.sys, a, cfg, maxClaims, decode),
         s.payouts + if Enabled(s.sys, a, decode) && a.Store? && a.txn.OfEvents? then Queues(s.sys.db, a.txn.e) else [])
  }

  ghost function ShopRun(s: Shop, actions: seq<Action>, cfg: Config, maxClaims: int, decode: Digest -> Event): Shop
    decreases |actions|
  {
    if actions == [] then s
    else ShopRun(ShopNext(s, actions[0], cfg, maxClaims, decode), actions[1..], cfg, maxClaims, decode)
  }

  /** No enabled transaction of the run overwrites a binding that was paid. */
  ghost predicate ShopGuarded(s: Shop, actions: seq<Action>, cfg: Config, maxClaims: int, decode: Digest -> Event)
    decreases |actions|
  {
    actions == []
    || ((Enabled(s.sys, actions[0], decode) && actions[0].Store? ==> !OverwritesPaid(ShopBooks(s), actions[0].txn))
        && ShopGuarded(ShopNext(s, actions[0], cfg, maxClaims, decode), actions[1..], cfg, maxClaims, decode))
  }

  /** An action moves the books by its transaction, or not at all. */
  lemma ActionIsTransaction(s: Shop, a: Action, cfg: Config, maxClaims: int, decode: Digest -> Event)
    requires Enabled(s.sys, a, decode)
    ensures var txns := ActionTxns(s.sys, a, cfg);
            var books := ShopBooks(ShopNext(s, a, cfg, maxClaims, decode));
            if txns == [] then books == ShopBooks(s)
            else |txns| == 1 && books == PayStep(ShopBooks(s), txns[0], maxClaims)
  {
    if a.Claim? {
      ClaimIsLease(s.sys, a.w, a.job, a.now, cfg);
    }
  }

  lemma ActionInOrder(s: Shop, a: Action, cfg: Config, maxClaims: int, decode: Digest -> Event)
    requires Mirror(s.sys.db.owned, s.sys.db.drafts) && InOrder(ShopBooks(s)) && Enabled(s.sys, a, decode)
    requires a.Store? ==> !OverwritesPaid(ShopBooks(s), a.txn)
    ensures var books := ShopBooks(ShopNext(s, a, cfg, maxClaims, decode));
            InOrder(books) && Mirror(books.db.owned, books.db.drafts)
  {
    ActionIsTransaction(s, a, cfg, maxClaims, decode);
    var txns := ActionTxns(s.sys, a, cfg);
    if txns != [] {
      InOrderExactly(ShopBooks(s), txns[0], maxClaims);
      MirrorStep(s.sys.db, txns[0], maxClaims);
    }
  }

  lemma {:induction false} ShopInOrder(s: Shop, actions: seq<Action>, cfg: Config, maxClaims: int,
                                       decode: Digest -> Event)
    requires Mirror(s.sys.db.owned, s.sys.db.drafts) && InOrder(ShopBooks(s))
    requires ShopGuarded(s, actions, cfg, maxClaims, decode)
    ensures InOrder(ShopBooks(ShopRun(s, actions, cfg, maxClaims, decode)))
    ensures ShopRun(s, actions, cfg, maxClaims, decode).sys == Run(s.sys, actions, cfg, maxClaims, decode)
    decreases |actions|
  {
    if actions != [] {
      var s' := ShopNext(s, actions[0], cfg, maxClaims, decode);
      if Enabled(s.sys, actions[0], decode) {
        ActionInOrder(s, actions[0], cfg, maxClaims, decode);
      } else {
        assert ShopBooks(s') == ShopBooks(s);
      }
      ShopInOrder(s', actions[1..], cfg, maxClaims, decode);
    }
  }

  /** The transfer pays the invoice of a payout with the tag. */
  ghost predicate PaysTag(payouts: seq<TagPayouts.Payout>, t: Transfer, tag: Tag) {
    exists k :: 0 <= k < |payouts| && payouts[k].tag == tag && t.external == TrialTransfer(payouts[k].invoice)
  }

  ghost predicate PaysOwnedTag(owned: map<Tag, OwnedRow>, payouts: seq<TagPayouts.Payout>, t: Transfer) {
    exists tag :: tag in owned && PaysTag(payouts, t, tag)
  }

  /** Every transfer pays an owned tag, and no two pay the same one. */
  ghost predicate OneTransferPerTag(owned: map<Tag, OwnedRow>, transfers: seq<Transfer>,
                                    payouts: seq<TagPayouts.Payout>)
  {
    && (forall i :: 0 <= i < |transfers| ==> PaysOwnedTag(owned, payouts, transfers[i]))
    && (forall i, j, tag | 0 <= i < |transfers| && 0 <= j < |transfers| &&
          PaysTag(payouts, transfers[i], tag) && PaysTag(payouts, transfers[j], tag) :: i == j)
  }

  lemma TransferPaysTag(s: Shop, i: nat) returns (tag: Tag)
    requires InOrder(ShopBooks(s)) && PaidOnce(s.sys) && i < |s.sys.transfers|
    ensures tag in s.sys.db.owned && PaysTag(s.payouts, s.sys.transfers[i], tag)
  {
    assert PaysOneJob(s.sys.db.jobs, s.sys.transfers[i]);
    var j :| j in s.sys.db.jobs && PaysOnly(s.sys.db.jobs, s.sys.transfers[i], j);
    assert QueuedAs(s.payouts, j);
    var k :| 0 <= k < |s.payouts| && s.payouts[k].job == j;
    assert PayoutOk(s.sys.db.owned, s.sys.db.jobs, s.payouts[k]);
    tag := s.payouts[k].tag;
  }

  lemma TransfersFollowPayouts(s: Shop)
    requires InOrder(ShopBooks(s)) && PaidOnce(s.sys)
    ensures OneTransferPerTag(s.sys.db.owned, s.sys.transfers, s.payouts)
  {
    var transfers := s.sys.transfers;
    forall i | 0 <= i < |transfers| ensures PaysOwnedTag(s.sys.db.owned, s.payouts, transfers[i]) {
      var tag := TransferPaysTag(s, i);
    }
    forall i, j, tag | 0 <= i < |transfers| && 0 <= j < |transfers| &&
      PaysTag(s.payouts, transfers[i], tag) && PaysTag(s.payouts, transfers[j], tag)
      ensures i == j
    {
      var k :| 0 <= k < |s.payouts| && s.payouts[k].tag == tag
               && transfers[i].external == TrialTransfer(s.payouts[k].invoice);
      var l :| 0 <= l < |s.payouts| && s.payouts[l].tag == tag
               && transfers[j].external == TrialTransfer(s.payouts[l].invoice);
      assert k == l;
    }
  }

  /** Over any interleaving of workers, deliveries, lost replies, crashes and other transactions in which no draft
      write overwrites a binding that was paid: the machine is the one of exactly-once payout, every transfer of
      the provider pays an owned tag, and no two pay the same one. */
  lemma OneTransferForEachTag(actions: seq<Action>, cfg: Config, maxClaims: int, decode: Digest -> Event)
    requires ShopGuarded(OPENING, actions, cfg, maxClaims, decode)
    ensures var s := ShopRun(OPENING, actions, cfg, maxClaims, decode);
            && s.sys == Run(INITIAL, actions, cfg, maxClaims, decode) && PaidOnce(s.sys)
            && OneTransferPerTag(s.sys.db.owned, s.sys.transfers, s.payouts)
  {
    ShopInOrder(OPENING, actions, cfg, maxClaims, decode);
    ExactlyOncePayout(actions, cfg, maxClaims, decode);
    TransfersFollowPayouts(ShopRun(OPENING, actions, cfg, maxClaims, decode));
  }
}
