/** Any sequence of store transactions, in any order and with any arguments: the invariants of every
    reachable database and what no step takes back. */
module Interleaving {
  import opened Domain
  import opened Tables
  import opened Transactions
  import opened OwnershipMirror
  import opened Correspondence
  import opened RunInvariants

  ghost predicate AllAuthentic(txns: seq<Txn>, decode: Digest -> Event) {
    forall i :: 0 <= i < |txns| && txns[i].OfEvents? ==> Authentic(txns[i].e, decode)
  }

  ghost predicate Invariant(db: Db, maxClaims: int, decode: Digest -> Event) {
    && Mirror(db.owned, db.drafts)
    && Corresponds(db.events, db.jobs, decode)
    && RunsOk(db.batches, db.runs, maxClaims)
  }

  lemma InvariantStep(db: Db, txn: Txn, maxClaims: int, decode: Digest -> Event)
    requires Invariant(db, maxClaims, decode) && maxClaims >= 0 && (txn.OfEvents? ==> Authentic(txn.e, decode))
    ensures Invariant(Step(db, txn, maxClaims), maxClaims, decode)
  {
    MirrorStep(db, txn, maxClaims);
    CorrespondenceStep(db, txn, maxClaims, decode);
    RunsStep(db, txn, maxClaims);
  }

  /** Over any run the invariant is kept, events keep their outcome (except a waiting one), jobs their identity
      and final status, batches their target, and an inactive run stays inactive. */
  lemma {:induction false} RunKeepsHistory(db: Db, txns: seq<Txn>, maxClaims: int, decode: Digest -> Event)
    requires Invariant(db, maxClaims, decode) && AllAuthentic(txns, decode) && maxClaims >= 0
    ensures var db' := RunTxns(db, txns, maxClaims);
            Invariant(db', maxClaims, decode) && HistoryKept(db, db') && RunsKept(db, db')
    decreases |txns|
  {
    if txns != [] {
      var mid := Step(db, txns[0], maxClaims);
      InvariantStep(db, txns[0], maxClaims, decode);
      HistoryStep(db, txns[0], maxClaims);
      RunsStep(db, txns[0], maxClaims);
      RunKeepsHistory(mid, txns[1..], maxClaims, decode);
      HistoryTransitive(db, mid, RunTxns(mid, txns[1..], maxClaims));
    }
  }

  /** Every database reachable from an empty one keeps the invariant. */
  lemma ReachableInvariant(txns: seq<Txn>, maxClaims: int, decode: Digest -> Event)
    requires AllAuthentic(txns, decode) && maxClaims >= 0
    ensures Invariant(RunTxns(EMPTY_DB, txns, maxClaims), maxClaims, decode)
  {
    RunKeepsHistory(EMPTY_DB, txns, maxClaims, decode);
  }

  /** No two drafts share an invoice, and the owned row bound to an invoice is the one of its draft. */
  lemma DraftInvoicesDistinct(db: Db, maxClaims: int, decode: Digest -> Event)
    requires Invariant(db, maxClaims, decode)
    ensures DraftKeys(db.drafts)
    ensures Schema(db)
  {
    forall d, e | d in db.drafts && e in db.drafts && db.drafts[d].provider == db.drafts[e].provider
      && db.drafts[d].provider.Some?
      ensures d == e
    {
      assert Linked(db.owned, db.drafts, d) && Linked(db.owned, db.drafts, e);
      assert TrialTag(d) == TrialTag(e);
    }
  }
}
