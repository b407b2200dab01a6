/** Smoke batches are safe to interrupt and to rerun. */
module SmokeIdempotence {
  import opened Domain
  import opened Tables
  import opened InvoiceProvider
  import opened TrialService
  import opened OwnershipMirror
  import opened ServiceMoves
  import opened RemoteInvoices
  import opened SmokeBatch
  import Collections
  import ES = EventStore
  import IS = InvoiceStore

  /** The provider's answers for one ordinal, by degree of trust. */
  ghost predicate TrustedSmokeOne(trust: Trust, remote: map<InvoiceId, Tag>, key: string, a: SmokeAnswer) {
    match trust
    case Seeing => a.first.NotFound? ==> FreshEffect(remote, a.creation)
    case Honest =>
      && HonestLookup(remote, SmokeTag(key), a.first)
      && HonestCreation(remote, a.creation)
      && HonestLookup(AdmitInvoice(remote, SmokeTag(key), a.creation), SmokeTag(key), a.second)
  }

  ghost predicate HonestSmokeOne(remote: map<InvoiceId, Tag>, key: string, a: SmokeAnswer) {
    TrustedSmokeOne(Honest, remote, key, a)
  }

  ghost predicate TrustedSmoke(trust: Trust, w: World, namespace: string, reference: string, n: nat,
                               answers: nat -> SmokeAnswer, stops: nat -> Stop)
  {
    n == 0
    || (TrustedSmoke(trust, w, namespace, reference, n - 1, answers, stops)
        && TrustedSmokeOne(trust, SmokeRun(w, namespace, reference, n - 1, answers, stops).world.remote,
                           Key(namespace, reference, n - 1), answers(n - 1)))
  }

  ghost predicate HonestSmoke(w: World, namespace: string, reference: string, n: nat, answers: nat -> SmokeAnswer,
                              stops: nat -> Stop)
  {
    TrustedSmoke(Honest, w, namespace, reference, n, answers, stops)
  }

  // ---- A smoke run is a run of the machine ----

  /** The store writes after the provider handed back an invoice. */
  function Recording(key: string, x: InvoiceId, at: Time): seq<Move> {
    [RegisterSmokeTag(key, at), BindSmoke(key, x, at)]
  }

  lemma RecordingRun(s: Service, key: string, x: InvoiceId, at: Time, reused: bool, trust: Trust, cfg: TrialConfig)
    ensures RunMoves(s, Recording(key, x, at), cfg) == s.(world := RecordSmoke(s.world, key, x, at, reused).world)
    ensures trust.Seeing? || x in Invoices(s.world.remote, SmokeTag(key)) ==>
              TrustedRun(trust, s, Recording(key, x, at), cfg)
  {
    var s1 := AfterMove(s, RegisterSmokeTag(key, at), cfg);
    var s2 := AfterMove(s1, BindSmoke(key, x, at), cfg);
    assert Recording(key, x, at)[1..] == [BindSmoke(key, x, at)];
    assert Recording(key, x, at)[1..][1..] == [];
    assert s1.payouts == s.payouts && s2.payouts == s.payouts;
    assert RunMoves(s2, [], cfg) == s2 && TrustedRun(trust, s2, [], cfg);
  }

  function MovesOfCreate(key: string, a: SmokeAnswer, stop: Stop): seq<Move> {
    [CreateSmoke(key, a.creation)] + (
      if stop.AfterCreate? then []
      else if a.creation.reply.Ok? then Recording(key, a.creation.reply.invoice, a.later)
      else if a.creation.reply.error.UnknownOutcome? && a.second.Found? then Recording(key, a.second.invoice, a.later)
      else [])
  }

  /** The moves of one ordinal, given the answers it meets. */
  function MovesOfOne(key: string, a: SmokeAnswer, stop: Stop): seq<Move> {
    [RegisterSmokeTag(key, a.at)] + (
      if stop.AfterRegister? || a.first.LookupRaised? then []
      else if a.first.Found? then Recording(key, a.first.invoice, a.at)
      else MovesOfCreate(key, a, stop))
  }

  lemma OneHasNoDeaths(key: string, a: SmokeAnswer, stop: Stop)
    ensures NoDeaths(MovesOfOne(key, a, stop))
  {
  }

  lemma OneIsMoves(s: Service, key: string, a: SmokeAnswer, stop: Stop, trust: Trust, cfg: TrialConfig)
    ensures RunMoves(s, MovesOfOne(key, a, stop), cfg) == s.(world := SmokeOne(s.world, key, a, stop).world)
    ensures TrustedSmokeOne(trust, s.world.remote, key, a) ==> TrustedRun(trust, s, MovesOfOne(key, a, stop), cfg)
  {
    var moves := MovesOfOne(key, a, stop);
    var s1 := AfterMove(s, RegisterSmokeTag(key, a.at), cfg);
    RunCons(trust, s, moves[0], moves[1..], cfg);
    assert moves == [moves[0]] + moves[1..] && s1.payouts == s.payouts;
    if !stop.AfterRegister? && a.first.Found? {
      RecordingRun(s1, key, a.first.invoice, a.at, true, trust, cfg);
    } else if !stop.AfterRegister? && a.first.NotFound? {
      var rest := moves[2..];
      RunCons(trust, s1, CreateSmoke(key, a.creation), rest, cfg);
      assert moves[1..] == [CreateSmoke(key, a.creation)] + rest;
      var s2 := AfterMove(s1, CreateSmoke(key, a.creation), cfg);
      assert s2.payouts == s.payouts;
      if !stop.AfterCreate? {
        if a.creation.reply.Ok? {
          RecordingRun(s2, key, a.creation.reply.invoice, a.later, false, trust, cfg);
        } else if a.creation.reply.error.UnknownOutcome? && a.second.Found? {
          RecordingRun(s2, key, a.second.invoice, a.later, false, trust, cfg);
        }
      }
    }
  }

  /** A whole smoke run, complete or stopped part-way, is a run of the machine, as trusted as its answers. */
  lemma {:induction false} SmokeIsMoves(s: Service, namespace: string, reference: string, n: nat,
                                        answers: nat -> SmokeAnswer, stops: nat -> Stop, trust: Trust, cfg: TrialConfig)
    returns (moves: seq<Move>)
    ensures RunMoves(s, moves, cfg) == s.(world := SmokeRun(s.world, namespace, reference, n, answers, stops).world)
    ensures TrustedSmoke(trust, s.world, namespace, reference, n, answers, stops) ==> TrustedRun(trust, s, moves, cfg)
    ensures NoDeaths(moves)
  {
    if n == 0 {
      moves := [];
    } else {
      var before := SmokeIsMoves(s, namespace, reference, n - 1, answers, stops, trust, cfg);
      var p := SmokeRun(s.world, namespace, reference, n - 1, answers, stops);
      moves := before;
      if p.alive {
        var s1 := s.(world := p.world);
        var one := MovesOfOne(Key(namespace, reference, n - 1), answers(n - 1), stops(n - 1));
        OneIsMoves(s1, Key(namespace, reference, n - 1), answers(n - 1), stops(n - 1), trust, cfg);
        OneHasNoDeaths(Key(namespace, reference, n - 1), answers(n - 1), stops(n - 1));
        JoinRuns(trust, s, before, one, cfg);
        moves := before + one;
      }
    }
  }

  // ---- Reruns ----

  ghost predicate Sound(w: World) {
    ExactIn(w) && RemoteOk(w)
  }

  /** What later moves of the services keep. */
  ghost predicate Grown(w: World, w': World) {
    BindingsKept(w.db.owned, w'.db.owned) && RemoteKept(w.remote, w'.remote)
  }

  /** The ordinal's tag is bound to its invoice, which the provider holds under the tag. */
  ghost predicate RecordedAs(w: World, key: string, x: InvoiceId) {
    ES.Bound(w.db.owned, SmokeTag(key), x) && x in Invoices(w.remote, SmokeTag(key))
  }

  lemma MovesAreSound(s: Service, moves: seq<Move>, cfg: TrialConfig)
    requires Sound(s.world) && TrustedRun(Honest, s, moves, cfg)
    ensures var w' := RunMoves(s, moves, cfg).world; Sound(w') && Grown(s.world, w')
  {
    KeptRun(s, moves, cfg);
    RemoteRun(s, moves, cfg);
    RemoteGrows(s, moves, cfg);
  }

  const ANY_CONFIG: TrialConfig := TrialConfig(1, 1, 1, 1, 1)

  /** The invoices of the first ordinals of a reference are recorded. */
  ghost predicate AllRecorded(w: World, namespace: string, reference: string, invoices: seq<InvoiceId>) {
    forall i :: 0 <= i < |invoices| ==> RecordedAs(w, Key(namespace, reference, i), invoices[i])
  }

  lemma RecordsStay(w: World, w': World, namespace: string, reference: string, invoices: seq<InvoiceId>)
    requires AllRecorded(w, namespace, reference, invoices) && Grown(w, w')
    ensures AllRecorded(w', namespace, reference, invoices)
  {
    forall i | 0 <= i < |invoices| ensures RecordedAs(w', Key(namespace, reference, i), invoices[i]) {
      assert RecordedAs(w, Key(namespace, reference, i), invoices[i]);
    }
  }

  lemma RecordSmokeRecords(w: World, key: string, x: InvoiceId, at: Time, reused: bool)
    requires x in Invoices(w.remote, SmokeTag(key))
    ensures var s := RecordSmoke(w, key, x, at, reused);
            s.invoice.Some? ==> s.invoice.value == x && RecordedAs(s.world, key, x)
  {
  }

  lemma OneRecords(w: World, key: string, a: SmokeAnswer, stop: Stop)
    requires HonestSmokeOne(w.remote, key, a)
    ensures var s := SmokeOne(w, key, a, stop); s.invoice.Some? ==> RecordedAs(s.world, key, s.invoice.value)
  {
    var registered := w.(db := IS.RegisterSmoke(w.db, SmokeTag(key), a.at));
    if a.first.Found? {
      RecordSmokeRecords(registered, key, a.first.invoice, a.at, true);
    } else if a.first.NotFound? {
      var created := registered.(remote := AdmitInvoice(w.remote, SmokeTag(key), a.creation));
      if a.creation.reply.Ok? {
        RecordSmokeRecords(created, key, a.creation.reply.invoice, a.later, false);
      } else if a.second.Found? {
        RecordSmokeRecords(created, key, a.second.invoice, a.later, false);
      }
    }
  }

  lemma OneIsSound(w: World, key: string, a: SmokeAnswer, stop: Stop)
    requires Sound(w) && HonestSmokeOne(w.remote, key, a)
    ensures var w' := SmokeOne(w, key, a, stop).world; Sound(w') && Grown(w, w')
  {
    OneIsMoves(Service(w, []), key, a, stop, Honest, ANY_CONFIG);
    MovesAreSound(Service(w, []), MovesOfOne(key, a, stop), ANY_CONFIG);
  }

  lemma GrownTwice(a: World, b: World, c: World)
    requires Grown(a, b) && Grown(b, c)
    ensures Grown(a, c)
  {
  }

  lemma RecordedNext(w: World, namespace: string, reference: string, invoices: seq<InvoiceId>, x: InvoiceId)
    requires AllRecorded(w, namespace, reference, invoices) && RecordedAs(w, Key(namespace, reference, |invoices|), x)
    ensures AllRecorded(w, namespace, reference, invoices + [x])
  {
  }

  /** Every ordinal a run got through is recorded, and stays recorded. */
  lemma {:induction false} RunRecords(w: World, namespace: string, reference: string, n: nat,
                                      answers: nat -> SmokeAnswer, stops: nat -> Stop)
    requires Sound(w) && HonestSmoke(w, namespace, reference, n, answers, stops)
    ensures var p := SmokeRun(w, namespace, reference, n, answers, stops);
            && Sound(p.world) && Grown(w, p.world) && |p.invoices| <= n && (p.alive ==> |p.invoices| == n)
            && AllRecorded(p.world, namespace, reference, p.invoices)
  {
    if n > 0 {
      RunRecords(w, namespace, reference, n - 1, answers, stops);
      var before := SmokeRun(w, namespace, reference, n - 1, answers, stops);
      if before.alive {
        var key, a, stop := Key(namespace, reference, n - 1), answers(n - 1), stops(n - 1);
        var s := SmokeOne(before.world, key, a, stop);
        OneIsSound(before.world, key, a, stop);
        OneRecords(before.world, key, a, stop);
        GrownTwice(w, before.world, s.world);
        RecordsStay(before.world, s.world, namespace, reference, before.invoices);
        if s.invoice.Some? {
          RecordedNext(s.world, namespace, reference, before.invoices, s.invoice.value);
        }
      }
    }
  }

  /** A recorded ordinal is found again: nothing is created and the same invoice comes back. */
  lemma OneAgain(w: World, key: string, x: InvoiceId, a: SmokeAnswer, stop: Stop)
    requires |Invoices(w.remote, SmokeTag(key))| <= 1 && RecordedAs(w, key, x) && HonestSmokeOne(w.remote, key, a)
    ensures var s := SmokeOne(w, key, a, stop);
            && s.world.remote == w.remote
            && (s.invoice.Some? ==> s.invoice == Some(x) && s.reused)
            && (s.invoice.Some? <==> !stop.AfterRegister? && !a.first.LookupRaised?)
  {
    var held := Invoices(w.remote, SmokeTag(key));
    if a.first.Found? && a.first.invoice != x {
      assert {x, a.first.invoice} <= held;
      Collections.SubsetSize({x, a.first.invoice}, held);
    }
  }

  /** No process died and no lookup failed. */
  ghost predicate GetsThrough(n: nat, answers: nat -> SmokeAnswer, stops: nat -> Stop) {
    forall i :: 0 <= i < n ==> !stops(i).AfterRegister? && !answers(i).first.LookupRaised?
  }

  /** The invoice an ordinal gets from the provider: found, created, or found after a create of unknown outcome. */
  function InvoiceFor(a: SmokeAnswer): Option<InvoiceId> {
    if a.first.Found? then Some(a.first.invoice)
    else if a.first.NotFound? && a.creation.reply.Ok? then Some(a.creation.reply.invoice)
    else if a.first.NotFound? && a.creation.reply == InvoiceReply.CreateRaised(UnknownOutcome) && a.second.Found? then
      Some(a.second.invoice)
    else None
  }

  function BoundTo(owned: map<Tag, OwnedRow>, tag: Tag): Option<InvoiceId> {
    if tag in owned then owned[tag].provider else None
  }

  /** The tag is bound to the invoice, or it is unbound and no tag has the invoice. */
  ghost predicate IsFree(owned: map<Tag, OwnedRow>, tag: Tag, x: InvoiceId) {
    BoundTo(owned, tag) == Some(x) || (BoundTo(owned, tag).None? && forall u :: !ES.Bound(owned, u, x))
  }

  lemma BindExactly(db: Db, tag: Tag, x: InvoiceId, at: Time)
    requires tag in db.owned
    ensures var tx := IS.Bind(db, tag, x, at);
            && (tx.Committed? <==> IsFree(db.owned, tag, x))
            && (tx.Committed? ==> BoundTo(tx.db.owned, tag) == Some(x))
  {
    if IS.InvoiceTaken(db.owned, tag, x) {
      var u :| u in db.owned && u != tag && db.owned[u].provider == Some(x);
      assert ES.Bound(db.owned, u, x);
    }
  }

  lemma FreeOnceRegistered(w: World, tag: Tag, at: Time, x: InvoiceId)
    ensures var owned := IS.RegisterSmoke(w.db, tag, at).owned;
            tag in owned && BoundTo(owned, tag) == BoundTo(w.db.owned, tag)
            && (IsFree(owned, tag, x) <==> IsFree(w.db.owned, tag, x))
  {
    var owned := IS.RegisterSmoke(w.db, tag, at).owned;
    assert forall u :: ES.Bound(owned, u, x) <==> ES.Bound(w.db.owned, u, x);
  }

  lemma RecordExactly(w: World, key: string, x: InvoiceId, at: Time, reused: bool)
    ensures var s, tag := RecordSmoke(w, key, x, at, reused), SmokeTag(key);
            var free := IsFree(w.db.owned, tag, x);
            && s.world == w.(db := s.world.db) && s.reused == reused && s.invoice == (if free then Some(x) else None)
            && BoundTo(s.world.db.owned, tag) == (if free then Some(x) else BoundTo(w.db.owned, tag))
  {
    FreeOnceRegistered(w, SmokeTag(key), at, x);
    BindExactly(IS.RegisterSmoke(w.db, SmokeTag(key), at), SmokeTag(key), x, at);
  }

  /** An ordinal gets through exactly when it gets an invoice that its tag may be bound to: the one it is bound to, or,
      while it is not bound, one that no tag has. It creates one only when the lookup finds nothing. */
  lemma OrdinalExactly(w: World, key: string, a: SmokeAnswer)
    ensures var s, tag, x := SmokeOne(w, key, a, Goes), SmokeTag(key), InvoiceFor(a);
            var free := x.Some? && IsFree(w.db.owned, tag, x.value);
            && s.invoice == (if free then x else None)
            && BoundTo(s.world.db.owned, tag) == (if free then x else BoundTo(w.db.owned, tag))
            && (free ==> s.reused == a.first.Found?)
            && s.world.remote == (if a.first.NotFound? then AdmitInvoice(w.remote, tag, a.creation) else w.remote)
  {
    var tag := SmokeTag(key);
    var registered := w.(db := IS.RegisterSmoke(w.db, tag, a.at));
    var created := registered.(remote := AdmitInvoice(w.remote, tag, a.creation));
    FreeOnceRegistered(w, tag, a.at, if InvoiceFor(a).Some? then InvoiceFor(a).value else InvoiceId(""));
    if InvoiceFor(a).Some? {
      RecordExactly(registered, key, InvoiceFor(a).value, a.at, true);
      RecordExactly(created, key, InvoiceFor(a).value, a.later, false);
    }
  }

  /** A run that created nothing and handed back, reused, the first of some invoices. */
  ghost predicate Reused(p: SmokeProgress, w: World, invoices: seq<InvoiceId>, m: nat) {
    && p.world.remote == w.remote
    && p.invoices <= invoices && p.reused == |p.invoices| && (p.alive ==> |p.invoices| == m)
  }

  lemma ReusedNext(p: SmokeProgress, w: World, invoices: seq<InvoiceId>, m: nat, s: SmokeStep)
    requires Reused(p, w, invoices, m) && p.alive && m < |invoices|
    requires s.world.remote == p.world.remote && (s.invoice.Some? ==> s.invoice == Some(invoices[m]) && s.reused)
    ensures Reused(Collected(p, s), w, invoices, m + 1)
  {
  }

  /** One more ordinal of a rerun. */
  lemma RerunOne(p: SmokeProgress, w: World, namespace: string, reference: string, m: nat, a: SmokeAnswer, stop: Stop,
                 invoices: seq<InvoiceId>)
    requires |Invoices(p.world.remote, SmokeTag(Key(namespace, reference, m)))| <= 1
    requires AllRecorded(p.world, namespace, reference, invoices) && m < |invoices|
    requires Reused(p, w, invoices, m) && p.alive && HonestSmokeOne(p.world.remote, Key(namespace, reference, m), a)
    ensures var s := SmokeOne(p.world, Key(namespace, reference, m), a, stop);
            && Reused(Collected(p, s), w, invoices, m + 1)
            && (s.invoice.Some? <==> !stop.AfterRegister? && !a.first.LookupRaised?)
  {
    OneAgain(p.world, Key(namespace, reference, m), invoices[m], a, stop);
    ReusedNext(p, w, invoices, m, SmokeOne(p.world, Key(namespace, reference, m), a, stop));
  }

  lemma RerunRecorded(w: World, namespace: string, reference: string, m: nat, answers: nat -> SmokeAnswer,
                      stops: nat -> Stop, invoices: seq<InvoiceId>)
    requires Sound(w) && HonestSmoke(w, namespace, reference, m, answers, stops)
    requires AllRecorded(w, namespace, reference, invoices)
    ensures var w' := SmokeRun(w, namespace, reference, m, answers, stops).world;
            AllRecorded(w', namespace, reference, invoices)
              && |Invoices(w'.remote, SmokeTag(Key(namespace, reference, m)))| <= 1
  {
    RunRecords(w, namespace, reference, m, answers, stops);
    RecordsStay(w, SmokeRun(w, namespace, reference, m, answers, stops).world, namespace, reference, invoices);
  }

  lemma GetsThroughNext(n: nat, answers: nat -> SmokeAnswer, stops: nat -> Stop)
    ensures GetsThrough(n + 1, answers, stops)
       <==> GetsThrough(n, answers, stops) && !stops(n).AfterRegister? && !answers(n).first.LookupRaised?
  {
  }

  /** After a run recorded its ordinals, whatever the services did since, a rerun of up to as many creates
      nothing, reuses every ordinal, and hands back the same invoices in order; it gets through unless its
      process dies or a lookup fails. */
  lemma {:induction false} RerunReuses(w: World, namespace: string, reference: string, m: nat,
                                       answers: nat -> SmokeAnswer, stops: nat -> Stop, invoices: seq<InvoiceId>)
    requires Sound(w) && HonestSmoke(w, namespace, reference, m, answers, stops) && m <= |invoices|
    requires AllRecorded(w, namespace, reference, invoices)
    ensures var p := SmokeRun(w, namespace, reference, m, answers, stops);
            Reused(p, w, invoices, m) && (p.alive <==> GetsThrough(m, answers, stops))
  {
    if m > 0 {
      var before := SmokeRun(w, namespace, reference, m - 1, answers, stops);
      RerunReuses(w, namespace, reference, m - 1, answers, stops, invoices);
      GetsThroughNext(m - 1, answers, stops);
      if before.alive {
        RerunRecorded(w, namespace, reference, m - 1, answers, stops, invoices);
        RerunOne(before, w, namespace, reference, m - 1, answers(m - 1), stops(m - 1), invoices);
      }
    }
  }

  /** A run goes through the ordinals of a shorter one first. */
  lemma CollectedExtends(p: SmokeProgress, s: SmokeStep)
    ensures p.invoices <= Collected(p, s).invoices && p.reused <= Collected(p, s).reused
  {
  }

  lemma {:induction false} RunExtends(w: World, namespace: string, reference: string, k: nat, m: nat,
                                      answers: nat -> SmokeAnswer, stops: nat -> Stop)
    requires k <= m
    ensures var p := SmokeRun(w, namespace, reference, k, answers, stops);
            var q := SmokeRun(w, namespace, reference, m, answers, stops);
            p.invoices <= q.invoices && p.reused <= q.reused && (q.alive ==> p.alive)
    decreases m
  {
    if k < m {
      RunExtends(w, namespace, reference, k, m - 1, answers, stops);
      var p := SmokeRun(w, namespace, reference, m - 1, answers, stops);
      if p.alive {
        CollectedExtends(p, SmokeOne(p.world, Key(namespace, reference, m - 1), answers(m - 1), stops(m - 1)));
      }
    }
  }

  lemma {:induction false} HonestExtends(w: World, namespace: string, reference: string, k: nat, m: nat,
                                         answers: nat -> SmokeAnswer, stops: nat -> Stop)
    requires k <= m && HonestSmoke(w, namespace, reference, m, answers, stops)
    ensures HonestSmoke(w, namespace, reference, k, answers, stops)
    decreases m
  {
    if k < m {
      HonestExtends(w, namespace, reference, k, m - 1, answers, stops);
    }
  }

  /** A full run of n ordinals, any run of the services, and a rerun of m: through the first n ordinals, or
      through all m if they are fewer, the rerun creates nothing and reuses each in order; what it hands back
      begins with them. */
  lemma SmokeIsIdempotent(s: Service, namespace: string, reference: string, n: nat, answers: nat -> SmokeAnswer,
                          stops: nat -> Stop, between: seq<Move>, m: nat, answers': nat -> SmokeAnswer,
                          stops': nat -> Stop, first: SmokeProgress, w: World, cfg: TrialConfig)
    requires Sound(s.world) && HonestSmoke(s.world, namespace, reference, n, answers, stops)
    requires first == SmokeRun(s.world, namespace, reference, n, answers, stops) && first.alive
    requires TrustedRun(Honest, s.(world := first.world), between, cfg)
    requires w == RunMoves(s.(world := first.world), between, cfg).world
    requires HonestSmoke(w, namespace, reference, m, answers', stops')
    ensures var k := if m < n then m else n;
            var prefix := SmokeRun(w, namespace, reference, k, answers', stops');
            var again := SmokeRun(w, namespace, reference, m, answers', stops');
            && Reused(prefix, w, first.invoices, k)
            && prefix.invoices <= again.invoices && prefix.reused <= again.reused
            && (again.alive ==> prefix.alive)
  {
    var k := if m < n then m else n;
    RunExtends(w, namespace, reference, k, m, answers', stops');
    HonestExtends(w, namespace, reference, k, m, answers', stops');
    RunRecords(s.world, namespace, reference, n, answers, stops);
    MovesAreSound(s.(world := first.world), between, cfg);
    RecordsStay(first.world, w, namespace, reference, first.invoices);
    RerunReuses(w, namespace, reference, k, answers', stops', first.invoices);
  }

  /** A full run hands back a different invoice for each ordinal. */
  lemma SmokeInvoicesDistinct(w: World, namespace: string, reference: string, n: nat, answers: nat -> SmokeAnswer,
                              stops: nat -> Stop, i: nat, j: nat)
    requires Sound(w) && HonestSmoke(w, namespace, reference, n, answers, stops) && i < j
    ensures var invoices := SmokeRun(w, namespace, reference, n, answers, stops).invoices;
            j < |invoices| ==> invoices[i] != invoices[j]
  {
    RunRecords(w, namespace, reference, n, answers, stops);
    var p := SmokeRun(w, namespace, reference, n, answers, stops);
    if j < |p.invoices| {
      assert RecordedAs(p.world, Key(namespace, reference, i), p.invoices[i]);
      assert RecordedAs(p.world, Key(namespace, reference, j), p.invoices[j]);
      if Key(namespace, reference, i) == Key(namespace, reference, j) {
        KeyInjective(namespace, reference, i, reference, j);
      }
    }
  }
}
