/** The transfer totals of a trial (persistence/review_store.py, `overview`). */
module ReviewTotals {
  import opened Domain
  import opened Tables
  import opened OwnershipMirror
  import opened Correspondence
  import opened DraftProtocol
  import Interleaving
  import Transactions

  // ---- Finite sums ----

  ghost function Sum<T>(s: set<T>, f: T -> int): int {
    if s == {} then 0 else var x :| x in s; f(x) + Sum(s - {x}, f)
  }

  lemma {:induction false} SumWithout<T>(s: set<T>, f: T -> int, x: T)
    requires x in s
    ensures Sum(s, f) == f(x) + Sum(s - {x}, f)
    decreases |s|
  {
    var y :| y in s && Sum(s, f) == f(y) + Sum(s - {y}, f);
    if y != x {
      SumWithout(s - {y}, f, x);
      SumWithout(s - {x}, f, y);
      assert s - {y} - {x} == s - {x} - {y};
    }
  }

  lemma {:induction false} SumSplits<T>(s: set<T>, f: T -> int, g: T -> int, h: T -> int)
    requires forall x :: x in s ==> f(x) == g(x) + h(x)
    ensures Sum(s, f) == Sum(s, g) + Sum(s, h)
    decreases |s|
  {
    if s != {} {
      var x :| x in s;
      SumWithout(s, f, x);
      SumWithout(s, g, x);
      SumWithout(s, h, x);
      SumSplits(s - {x}, f, g, h);
    }
  }

  // ---- The join ----

  /** The run is the trial the overview is about; without a trial nothing is counted. */
  predicate Counted(db: Db, run: Option<RunId>, j: JobId, d: DraftId) {
    && j in db.jobs && db.jobs[j].status.Terminal()
    && d in db.drafts && db.drafts[d].provider == Some(db.jobs[j].invoice)
    && d.batch in db.batches && run == Some(d.batch.run)
  }

  /** The rows of the join of finished jobs with the drafts of a run. */
  function Joined(db: Db, run: Option<RunId>): set<(JobId, DraftId)> {
    set j, d | j in db.jobs && d in db.drafts && Counted(db, run, j, d) :: (j, d)
  }

  /** The finished jobs that pay an invoice of the run. */
  function JobsOfRun(db: Db, run: Option<RunId>): set<JobId> {
    set j | j in db.jobs && exists d :: d in db.drafts && Counted(db, run, j, d)
  }

  datatype Column = Amount | Fee | Net

  function Cell(jobs: map<JobId, JobRow>, c: Column): JobId -> int {
    j => if j !in jobs then 0 else match c case Amount => jobs[j].amount case Fee => jobs[j].fee case Net => jobs[j].net
  }

  /** A column of the jobs, read from a row of the join. */
  function OfRow(f: JobId -> int): ((JobId, DraftId)) -> int {
    (p: (JobId, DraftId)) => f(p.0)
  }

  /** Each job occurs in at most one row of the join. */
  lemma JoinedOnce(db: Db, run: Option<RunId>, p: (JobId, DraftId), q: (JobId, DraftId))
    requires Mirror(db.owned, db.drafts) && p in Joined(db, run) && q in Joined(db, run) && p.0 == q.0
    ensures p == q
  {
    assert Linked(db.owned, db.drafts, p.1) && Linked(db.owned, db.drafts, q.1);
    assert TrialTag(p.1) == TrialTag(q.1);
  }

  function JobsIn(rows: set<(JobId, DraftId)>): set<JobId> {
    set p | p in rows :: p.0
  }

  lemma JobsInRest(rows: set<(JobId, DraftId)>, p: (JobId, DraftId))
    requires p in rows && forall q :: q in rows && q.0 == p.0 ==> q == p
    ensures p.0 in JobsIn(rows) && JobsIn(rows - {p}) == JobsIn(rows) - {p.0}
  {
  }

  /** A sum over join rows, each of a different job, is the sum over those jobs. */
  lemma {:induction false} SumOverJobs(rows: set<(JobId, DraftId)>, f: JobId -> int)
    requires forall p, q :: p in rows && q in rows && p.0 == q.0 ==> p == q
    ensures Sum(rows, OfRow(f)) == Sum(JobsIn(rows), f)
    decreases |rows|
  {
    if rows != {} {
      var p :| p in rows;
      SumWithout(rows, OfRow(f), p);
      JobsInRest(rows, p);
      SumWithout(JobsIn(rows), f, p.0);
      SumOverJobs(rows - {p}, f);
    } else {
      assert JobsIn(rows) == {};
    }
  }

  lemma TotalsOverJobs(db: Db, run: Option<RunId>, f: JobId -> int)
    requires Mirror(db.owned, db.drafts)
    ensures Sum(Joined(db, run), OfRow(f)) == Sum(JobsOfRun(db, run), f)
  {
    var rows := Joined(db, run);
    forall p, q | p in rows && q in rows && p.0 == q.0 ensures p == q {
      JoinedOnce(db, run, p, q);
    }
    SumOverJobs(rows, f);
    assert JobsIn(rows) == JobsOfRun(db, run) by {
      forall j | j in JobsOfRun(db, run) ensures j in JobsIn(rows) {
        var d :| d in db.drafts && Counted(db, run, j, d);
        assert (j, d) in rows && (j, d).0 == j;
      }
    }
  }

  /** Over the join, amounts are fees plus net amounts. */
  lemma JoinConserves(db: Db, run: Option<RunId>, decode: Digest -> Event)
    requires Corresponds(db.events, db.jobs, decode)
    ensures var rows := Joined(db, run);
            Sum(rows, OfRow(Cell(db.jobs, Amount)))
              == Sum(rows, OfRow(Cell(db.jobs, Fee))) + Sum(rows, OfRow(Cell(db.jobs, Net)))
  {
    var rows := Joined(db, run);
    forall p | p in rows
      ensures OfRow(Cell(db.jobs, Amount))(p) == OfRow(Cell(db.jobs, Fee))(p) + OfRow(Cell(db.jobs, Net))(p)
    {
      assert JobOfEvent(db.events, db.jobs[p.0]);
    }
    SumSplits(rows, OfRow(Cell(db.jobs, Amount)), OfRow(Cell(db.jobs, Fee)), OfRow(Cell(db.jobs, Net)));
  }

  /** In every reachable database the totals of a trial sum over its finished jobs, each once, and add up. */
  lemma ReachableTotals(txns: seq<Transactions.Txn>, maxClaims: int, decode: Digest -> Event, run: Option<RunId>)
    requires Interleaving.AllAuthentic(txns, decode) && maxClaims >= 0
    ensures var db := Transactions.RunTxns(EMPTY_DB, txns, maxClaims);
            var rows, jobs := Joined(db, run), JobsOfRun(db, run);
            && Sum(rows, OfRow(Cell(db.jobs, Amount))) == Sum(jobs, Cell(db.jobs, Amount))
            && Sum(rows, OfRow(Cell(db.jobs, Fee))) == Sum(jobs, Cell(db.jobs, Fee))
            && Sum(rows, OfRow(Cell(db.jobs, Net))) == Sum(jobs, Cell(db.jobs, Net))
            && Sum(jobs, Cell(db.jobs, Amount)) == Sum(jobs, Cell(db.jobs, Fee)) + Sum(jobs, Cell(db.jobs, Net))
  {
    var db := Transactions.RunTxns(EMPTY_DB, txns, maxClaims);
    Interleaving.ReachableInvariant(txns, maxClaims, decode);
    TotalsOverJobs(db, run, Cell(db.jobs, Amount));
    TotalsOverJobs(db, run, Cell(db.jobs, Fee));
    TotalsOverJobs(db, run, Cell(db.jobs, Net));
    JoinConserves(db, run, decode);
  }

  /** One total: the sum of a column over the join. */
  method Total(db: Db, run: Option<RunId>, c: Column) returns (total: int)
    ensures total == Sum(Joined(db, run), OfRow(Cell(db.jobs, c)))
  {
    total := 0;
    ghost var f := OfRow(Cell(db.jobs, c));
    var rest := Joined(db, run);
    while rest != {}
      invariant rest <= Joined(db, run)
      invariant total + Sum(rest, f) == Sum(Joined(db, run), f)
      decreases rest
    {
      var p :| p in rest;
      SumWithout(rest, f, p);
      var job := db.jobs[p.0];
      total := total + match c case Amount => job.amount case Fee => job.fee case Net => job.net;
      rest := rest - {p};
    }
  }

  /** The totals reported for a run: each finished job that pays one of its invoices counts once, and the
      amounts are the fees plus the net amounts. */
  method TransferTotals(db: Db, run: Option<RunId>, ghost decode: Digest -> Event)
    returns (amount: int, fee: int, net: int)
    requires Mirror(db.owned, db.drafts) && Corresponds(db.events, db.jobs, decode)
    ensures amount == Sum(JobsOfRun(db, run), Cell(db.jobs, Amount))
    ensures fee == Sum(JobsOfRun(db, run), Cell(db.jobs, Fee))
    ensures net == Sum(JobsOfRun(db, run), Cell(db.jobs, Net))
    ensures amount == fee + net
  {
    amount := Total(db, run, Amount);
    fee := Total(db, run, Fee);
    net := Total(db, run, Net);
    TotalsOverJobs(db, run, Cell(db.jobs, Amount));
    TotalsOverJobs(db, run, Cell(db.jobs, Fee));
    TotalsOverJobs(db, run, Cell(db.jobs, Net));
    JoinConserves(db, run, decode);
  }

  // ---- By ownership ----

  /** The job's invoice is bound to the tag of a draft of the run. */
  ghost predicate OwnedByRun(db: Db, r: RunId, j: JobId)
    requires j in db.jobs
  {
    exists d: DraftId :: d.batch.run == r && TrialTag(d) in db.owned && db.owned[TrialTag(d)].draft == Some(d)
                         && db.owned[TrialTag(d)].provider == Some(db.jobs[j].invoice)
  }

  lemma CountedForOneRun(db: Db, r: RunId, q: RunId, j: JobId)
    requires Mirror(db.owned, db.drafts) && j in JobsOfRun(db, Some(r)) && j in JobsOfRun(db, Some(q))
    ensures q == r
  {
    var d :| d in db.drafts && Counted(db, Some(r), j, d);
    var e :| e in db.drafts && Counted(db, Some(q), j, e);
    assert Linked(db.owned, db.drafts, d) && Linked(db.owned, db.drafts, e);
    assert TrialTag(d) == TrialTag(e);
  }

  /** While drafts are created exactly as their tags are bound, the jobs counted for a run are the final ones whose
      invoice is bound to a tag of the run; no job counts for two runs, and without a run none counts. */
  lemma CountedByOwnership(db: Db, r: RunId)
    requires Exact(db.owned, db.drafts) && forall d :: d in db.drafts ==> d.batch in db.batches
    ensures forall j :: j in JobsOfRun(db, Some(r)) <==>
              j in db.jobs && (db.jobs[j].status.JobSucceeded? || db.jobs[j].status.JobPermanentFailure?)
              && OwnedByRun(db, r, j)
    ensures forall q :: q != r ==> JobsOfRun(db, Some(r)) * JobsOfRun(db, Some(q)) == {}
    ensures JobsOfRun(db, None) == {}
  {
    forall j | j in db.jobs
      ensures (exists d :: d in db.drafts && Counted(db, Some(r), j, d)) <==>
              db.jobs[j].status.Terminal() && OwnedByRun(db, r, j)
    {
      if d :| d in db.drafts && Counted(db, Some(r), j, d) {
        assert Linked(db.owned, db.drafts, d);
      }
      if db.jobs[j].status.Terminal() && OwnedByRun(db, r, j) {
        var d: DraftId :| d.batch.run == r && TrialTag(d) in db.owned && db.owned[TrialTag(d)].draft == Some(d)
                          && db.owned[TrialTag(d)].provider == Some(db.jobs[j].invoice);
        assert ExactDraft(db.owned, db.drafts, d);
        assert Counted(db, Some(r), j, d);
      }
    }
    forall q, j | j in JobsOfRun(db, Some(r)) && j in JobsOfRun(db, Some(q)) ensures q == r {
      CountedForOneRun(db, r, q, j);
    }
  }
}
