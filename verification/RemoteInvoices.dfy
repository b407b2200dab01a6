/** How many invoices the provider holds for a tag: exactly, when the lookup before a repeated create sees past
    creates; and at most one, when the provider is honest and no process dies with a create it did not store. */
module RemoteInvoices {
  import opened Domain
  import opened Tables
  import opened Transactions
  import opened InvoiceProvider
  import opened TrialService
  import opened DraftProtocol
  import opened ServiceMoves
  import ES = EventStore
  import IS = InvoiceStore

  /** Two degrees of trust. Seeing: a lookup that lets an attempted draft be created again sees that the tag has
      no invoice, and creates take effect under fresh ids. Honest: in addition every lookup sees every past
      create, replies tell what happened, and credits carry the tag their invoice was created with. */
  datatype Trust = Seeing | Honest

  ghost predicate SeeingMove(w: World, m: Move) {
    match m
    case IssueDraft(d, a, _, _) => !SettledByLookup(d, a) ==>
      (d.attempts > 0 ==> Invoices(w.remote, TrialTag(d.id)) == {}) && FreshEffect(w.remote, a.creation)
    case CreateSmoke(_, c) => FreshEffect(w.remote, c)
    case _ => true
  }

  ghost predicate HonestMove(w: World, m: Move) {
    match m
    case IssueDraft(d, a, _, _) =>
      && (d.attempts > 0 ==> HonestLookup(w.remote, TrialTag(d.id), a.lookup))
      && (!SettledByLookup(d, a) ==> HonestCreation(w.remote, a.creation))
    case LookUpDraft(d, reply, _) => HonestLookup(w.remote, TrialTag(d.id), reply)
    case OnEvents(txn) => txn.Deliver? && txn.event.Credited? ==> HonestCredit(w, txn.event.invoice, txn.event.tags)
    case CreateSmoke(key, c) => Invoices(w.remote, SmokeTag(key)) == {} && HonestCreation(w.remote, c)
    case BindSmoke(key, x, _) => x in Invoices(w.remote, SmokeTag(key))
    case _ => true
  }

  ghost predicate HonestCredit(w: World, x: InvoiceId, tags: seq<Tag>) {
    if x in w.remote then tags == [w.remote[x]] else forall t :: t in tags ==> t !in w.db.owned
  }

  ghost predicate TrustedMove(trust: Trust, w: World, m: Move) {
    if trust.Seeing? then SeeingMove(w, m) else HonestMove(w, m)
  }

  ghost predicate TrustedRun(trust: Trust, s: Service, moves: seq<Move>, cfg: TrialConfig)
    decreases |moves|
  {
    moves == []
    || ((CanMove(s.world, moves[0]) ==> TrustedMove(trust, s.world, moves[0]))
        && TrustedRun(trust, AfterMove(s, moves[0], cfg), moves[1..], cfg))
  }

  ghost predicate NoDeaths(moves: seq<Move>) {
    forall i :: 0 <= i < |moves| && moves[i].IssueDraft? ==> !moves[i].dies
  }

  lemma HonestSees(w: World, m: Move)
    requires HonestMove(w, m)
    ensures SeeingMove(w, m)
  {
  }

  lemma {:induction false} TrustedConcat(trust: Trust, s: Service, a: seq<Move>, b: seq<Move>, cfg: TrialConfig)
    requires TrustedRun(trust, s, a, cfg) && TrustedRun(trust, RunMoves(s, a, cfg), b, cfg)
    ensures TrustedRun(trust, s, a + b, cfg)
    decreases |a|
  {
    if a == [] {
      assert a + b == b;
    } else {
      assert (a + b)[1..] == a[1..] + b;
      TrustedConcat(trust, AfterMove(s, a[0], cfg), a[1..], b, cfg);
    }
  }

  /** One move before the others. */
  lemma RunCons(trust: Trust, s: Service, m: Move, rest: seq<Move>, cfg: TrialConfig)
    ensures var s' := AfterMove(s, m, cfg);
            && RunMoves(s, [m] + rest, cfg) == RunMoves(s', rest, cfg)
            && (TrustedRun(trust, s, [m] + rest, cfg) <==>
                (CanMove(s.world, m) ==> TrustedMove(trust, s.world, m)) && TrustedRun(trust, s', rest, cfg))
  {
    assert ([m] + rest)[1..] == rest;
  }

  /** One run after another. */
  lemma JoinRuns(trust: Trust, s: Service, a: seq<Move>, b: seq<Move>, cfg: TrialConfig)
    ensures RunMoves(s, a + b, cfg) == RunMoves(RunMoves(s, a, cfg), b, cfg)
    ensures TrustedRun(trust, s, a, cfg) && TrustedRun(trust, RunMoves(s, a, cfg), b, cfg) ==>
              TrustedRun(trust, s, a + b, cfg)
    ensures NoDeaths(a) && NoDeaths(b) ==> NoDeaths(a + b)
  {
    RunConcat(s, a, b, cfg);
    if TrustedRun(trust, s, a, cfg) && TrustedRun(trust, RunMoves(s, a, cfg), b, cfg) {
      TrustedConcat(trust, s, a, b, cfg);
    }
  }

  // ---- The number of invoices ----

  /** Of a draft without attempts the provider holds the invoices of its creates so far that took effect. After
      the first counted attempt a create follows only a lookup that found none: it still holds those, or, if
      there were none, at most one. Each of them but the last was not stored. */
  ghost predicate Seen(drafts: map<DraftId, DraftRow>, remote: map<InvoiceId, Tag>, tallies: map<DraftId, Tally>,
                       d: DraftId)
  {
    var n, t := |Invoices(remote, TrialTag(d))|, TallyOf(tallies, d);
    if d !in drafts then n == 0 && t == NO_TALLY
    else if drafts[d].attempts == 0 then n == t.firsts && t.firsts <= t.unrecorded
    else (if t.firsts > 0 then n == t.firsts else n <= 1) && t.firsts <= t.unrecorded + 1
  }

  ghost predicate AllSeen(w: World) {
    forall d :: Seen(w.db.drafts, w.remote, w.tallies, d)
  }

  /** A create adds to its own tag only. */
  lemma AdmitEffect(remote: map<InvoiceId, Tag>, tag: Tag, c: Creation)
    requires FreshEffect(remote, c)
    ensures var remote' := AdmitInvoice(remote, tag, c);
            && (forall x :: x in remote ==> x in remote' && remote'[x] == remote[x])
            && (forall t :: t != tag ==> Invoices(remote', t) == Invoices(remote, t))
            && |Invoices(remote', tag)| == |Invoices(remote, tag)| + if c.effect.Some? then 1 else 0
  {
    var remote' := AdmitInvoice(remote, tag, c);
    forall t ensures t != tag ==> Invoices(remote', t) == Invoices(remote, t) {
      FreshEffectAdds(remote, tag, c, t);
    }
    FreshEffectAdds(remote, tag, c, tag);
  }

  /** One draft, its history and the invoices of its tag changed, and it is still counted. */
  lemma SeenWrite(w: World, w': World, d: DraftId, row: DraftRow, t: Tally)
    requires AllSeen(w) && w'.db.drafts == w.db.drafts[d := row] && w'.tallies == w.tallies[d := t]
    requires forall u :: u != TrialTag(d) ==> Invoices(w'.remote, u) == Invoices(w.remote, u)
    requires Seen(w'.db.drafts, w'.remote, w'.tallies, d)
    ensures AllSeen(w')
  {
    forall e ensures Seen(w'.db.drafts, w'.remote, w'.tallies, e) {
      assert Seen(w.db.drafts, w.remote, w.tallies, e);
    }
  }

  lemma SeenIssue(w: World, d: IS.InvoiceDraft, a: Answer, dies: bool, now: Time, cfg: TrialConfig)
    requires ExactIn(w) && AllSeen(w) && Listed(w.db.drafts, d, DraftPending)
    requires SeeingMove(w, IssueDraft(d, a, dies, now))
    ensures AllSeen(Issue(w, d, a, dies, now, cfg).world)
  {
    var p := Issue(w, d, a, dies, now, cfg);
    IssueEffect(w, d, a, dies, now, cfg);
    IssueHistory(w, d, a, dies, now, cfg);
    assert Seen(w.db.drafts, w.remote, w.tallies, d.id);
    if p.alive || !SettledByLookup(d, a) {
      var row := if p.alive then IssuedRow(w.db.drafts[d.id], a, now, cfg) else w.db.drafts[d.id];
      assert w.db.drafts[d.id := w.db.drafts[d.id]] == w.db.drafts;
      if !SettledByLookup(d, a) {
        AdmitEffect(w.remote, TrialTag(d.id), a.creation);
      }
      SeenWrite(w, p.world, d.id, row, IssuedTally(TallyOf(w.tallies, d.id), d, a, p.alive));
    }
  }

  lemma SeenReconcile(w: World, d: IS.InvoiceDraft, reply: Lookup, now: Time, cfg: TrialConfig)
    requires ExactIn(w) && AllSeen(w) && Listed(w.db.drafts, d, DraftUnknown)
    ensures AllSeen(ReconcileOne(w, d, reply, now, cfg).world)
  {
    var p := ReconcileOne(w, d, reply, now, cfg);
    ReconcileEffect(w, d, reply, now, cfg);
    assert Seen(w.db.drafts, w.remote, w.tallies, d.id);
    if p.alive && !reply.LookupRaised? {
      SeenWrite(w, p.world, d.id, ReconciledRow(w.db.drafts[d.id], reply, now, cfg), TallyOf(p.world.tallies, d.id));
    }
  }

  /** No draft's attempts, history or invoices changed; new drafts have none. */
  lemma SeenSame(w: World, w': World)
    requires AllSeen(w) && w'.tallies == w.tallies
    requires forall d :: Invoices(w'.remote, TrialTag(d)) == Invoices(w.remote, TrialTag(d))
    requires forall d :: d in w.db.drafts ==> d in w'.db.drafts && w'.db.drafts[d].attempts == w.db.drafts[d].attempts
    requires forall d :: d in w'.db.drafts && d !in w.db.drafts ==> w'.db.drafts[d].attempts == 0
    ensures AllSeen(w')
  {
    forall d ensures Seen(w'.db.drafts, w'.remote, w'.tallies, d) {
      assert Seen(w.db.drafts, w.remote, w.tallies, d);
    }
  }

  lemma SeenDeliver(w: World, w': World, txn: EventTxn)
    requires ExactIn(w) && AllSeen(w) && w' == w.(db := EventStep(w.db, txn))
    ensures AllSeen(w')
  {
    DeliverEffect(w.db, txn);
    SeenSame(w, w');
  }

  lemma SeenMove(w: World, m: Move, cfg: TrialConfig)
    requires ExactIn(w) && AllSeen(w) && CanMove(w, m) && SeeingMove(w, m)
    ensures AllSeen(MoveWorld(w, m, cfg))
  {
    var w' := MoveWorld(w, m, cfg);
    match m
    case IssueDraft(d, a, dies, at) => SeenIssue(w, d, a, dies, at, cfg);
    case LookUpDraft(d, reply, at) => SeenReconcile(w, d, reply, at, cfg);
    case SaveBatch(b, amounts, at) =>
      SaveEffect(w.db, b, amounts, at);
      SeenSame(w, w');
    case OnRuns(txn) =>
      RunFrame(w.db, txn, cfg.maxClaims);
      SeenSame(w, w');
    case OnEvents(txn) => SeenDeliver(w, w', txn);
    case BindSmoke(key, x, at) =>
      SmokeBindEffect(w.db, key, x, at);
      SeenSame(w, w');
    case CreateSmoke(key, c) =>
      AdmitEffect(w.remote, SmokeTag(key), c);
      SeenSame(w, w');
    case _ => SeenSame(w, w');
  }

  lemma {:induction false} SeenRun(s: Service, moves: seq<Move>, cfg: TrialConfig)
    requires ExactIn(s.world) && AllSeen(s.world) && TrustedRun(Seeing, s, moves, cfg)
    ensures var s' := RunMoves(s, moves, cfg); ExactIn(s'.world) && AllSeen(s'.world)
    decreases |moves|
  {
    if moves != [] {
      if CanMove(s.world, moves[0]) {
        KeptMove(s.world, moves[0], cfg);
        SeenMove(s.world, moves[0], cfg);
      }
      SeenRun(AfterMove(s, moves[0], cfg), moves[1..], cfg);
    }
  }

  /** The provider holds at most one invoice for a draft's tag if and only if at most one create took effect
      while no attempt of the draft was counted; if one did, it holds exactly as many as did. */
  ghost predicate CountedInvoices(w: World, d: DraftId) {
    var n, t := |Invoices(w.remote, TrialTag(d))|, TallyOf(w.tallies, d);
    && (n <= 1 <==> t.firsts <= 1)
    && (t.firsts > 0 ==> n == t.firsts)
    && t.firsts <= t.unrecorded + 1 && n <= t.unrecorded + 1
    && (d in w.db.drafts && w.db.drafts[d].attempts == 0 ==> n == t.firsts)
  }

  /** Over any run whose lookups before a repeated create see past creates, and whose creates use fresh ids. */
  lemma OneInvoicePerDraft(moves: seq<Move>, cfg: TrialConfig, d: DraftId)
    requires TrustedRun(Seeing, FRESH_SERVICE, moves, cfg)
    ensures CountedInvoices(RunMoves(FRESH_SERVICE, moves, cfg).world, d)
  {
    SeenRun(FRESH_SERVICE, moves, cfg);
    var w := RunMoves(FRESH_SERVICE, moves, cfg).world;
    assert Seen(w.db.drafts, w.remote, w.tallies, d);
  }

  // ---- An honest provider ----

  /** A bound row is bound to an invoice with its tag. */
  ghost predicate BoundRemotely(owned: map<Tag, OwnedRow>, remote: map<InvoiceId, Tag>) {
    forall t, x :: ES.Bound(owned, t, x) ==> x in remote && remote[x] == t
  }

  ghost predicate RemoteOk(w: World) {
    && AllSeen(w)
    && BoundRemotely(w.db.owned, w.remote)
    && (forall key :: |Invoices(w.remote, SmokeTag(key))| <= 1)
  }

  /** Binding one tag to an invoice that has it. */
  lemma BoundBinds(owned: map<Tag, OwnedRow>, owned': map<Tag, OwnedRow>, t: Tag, x: Option<InvoiceId>,
                   remote: map<InvoiceId, Tag>)
    requires BoundRemotely(owned, remote) && BindsAtMost(owned, owned', t, x)
    requires x.Some? ==> x.value in remote && remote[x.value] == t
    ensures BoundRemotely(owned', remote)
  {
  }

  /** No other row is bound to an invoice with the tag. */
  lemma NotTaken(owned: map<Tag, OwnedRow>, remote: map<InvoiceId, Tag>, t: Tag, x: InvoiceId)
    requires BoundRemotely(owned, remote) && x in remote && remote[x] == t
    ensures !IS.InvoiceTaken(owned, t, x)
  {
    forall u | u in owned && u != t ensures owned[u].provider != Some(x) {
      assert !ES.Bound(owned, u, x);
    }
  }

  // The three parts of the invariant, move by move.

  /** The row's invoice after an honest issue, if it gets one, is the provider's for its tag. */
  lemma IssueRemote(w: World, d: IS.InvoiceDraft, a: Answer, dies: bool, now: Time, cfg: TrialConfig)
    requires Listed(w.db.drafts, d, DraftPending) && HonestMove(w, IssueDraft(d, a, dies, now))
    ensures var remote', row := IssuedRemote(w.remote, d, a), IssuedRow(w.db.drafts[d.id], a, now, cfg);
            && (row.provider.Some? ==> row.provider.value in remote' && remote'[row.provider.value] == TrialTag(d.id))
            && RemoteKept(w.remote, remote')
            && (forall t :: t != TrialTag(d.id) ==> Invoices(remote', t) == Invoices(w.remote, t))
  {
    if !SettledByLookup(d, a) {
      AdmitEffect(w.remote, TrialTag(d.id), a.creation);
    }
  }

  /** An honest issue keeps the invariant, and only a process that dies ends it early: it never meets an
      ownership conflict. */
  lemma RemoteIssue(w: World, d: IS.InvoiceDraft, a: Answer, dies: bool, now: Time, cfg: TrialConfig)
    requires ExactIn(w) && RemoteOk(w) && Listed(w.db.drafts, d, DraftPending)
    requires HonestMove(w, IssueDraft(d, a, dies, now))
    ensures var p := Issue(w, d, a, dies, now, cfg); RemoteOk(p.world) && (p.alive || dies)
  {
    var p, row := Issue(w, d, a, dies, now, cfg), IssuedRow(w.db.drafts[d.id], a, now, cfg);
    HonestSees(w, IssueDraft(d, a, dies, now));
    SeenIssue(w, d, a, dies, now, cfg);
    IssueEffect(w, d, a, dies, now, cfg);
    IssueHistory(w, d, a, dies, now, cfg);
    IssueRemote(w, d, a, dies, now, cfg);
    BoundIssue(w.db.owned, p.world.db.owned, w.remote, IssuedRemote(w.remote, d, a), d.id, row.provider, p.alive);
    assert forall key :: Invoices(p.world.remote, SmokeTag(key)) == Invoices(w.remote, SmokeTag(key));
  }

  lemma BoundIssue(owned: map<Tag, OwnedRow>, owned': map<Tag, OwnedRow>, remote: map<InvoiceId, Tag>,
                   remote': map<InvoiceId, Tag>, d: DraftId, x: Option<InvoiceId>, alive: bool)
    requires BoundRemotely(owned, remote) && RemoteKept(remote, remote')
    requires x.Some? ==> x.value in remote' && remote'[x.value] == TrialTag(d)
    requires if alive then BindsAtMost(owned, owned', TrialTag(d), x) else owned' == owned
    ensures BoundRemotely(owned', remote')
    ensures x.Some? ==> !IS.InvoiceTaken(owned, TrialTag(d), x.value)
  {
    assert BoundRemotely(owned, remote');
    if x.Some? {
      NotTaken(owned, remote', TrialTag(d), x.value);
    }
  }

  /** An honest lookup of the reconciler keeps it, and only a permanent error ends the pass. */
  lemma RemoteReconcile(w: World, d: IS.InvoiceDraft, reply: Lookup, now: Time, cfg: TrialConfig)
    requires ExactIn(w) && RemoteOk(w) && Listed(w.db.drafts, d, DraftUnknown)
    requires HonestMove(w, LookUpDraft(d, reply, now))
    ensures var p := ReconcileOne(w, d, reply, now, cfg);
            RemoteOk(p.world) && (p.alive || reply == LookupRaised(Permanent))
  {
    var p := ReconcileOne(w, d, reply, now, cfg);
    SeenReconcile(w, d, reply, now, cfg);
    ReconcileEffect(w, d, reply, now, cfg);
    if p.alive && !reply.LookupRaised? {
      BoundBinds(w.db.owned, p.world.db.owned, TrialTag(d.id),
                 ReconciledRow(w.db.drafts[d.id], reply, now, cfg).provider, w.remote);
    } else if reply.Found? {
      NotTaken(w.db.owned, w.remote, TrialTag(d.id), reply.invoice);
    }
  }

  /** An honest credit is attributed only to the tag its invoice was created with. */
  lemma BoundDeliver(w: World, txn: EventTxn)
    requires ExactIn(w) && BoundRemotely(w.db.owned, w.remote) && HonestMove(w, OnEvents(txn))
    ensures BoundRemotely(EventStep(w.db, txn).owned, w.remote)
  {
    var db' := EventStep(w.db, txn);
    DeliverEffect(w.db, txn);
    if db'.owned != w.db.owned || db'.drafts != w.db.drafts {
      var t :| CreditsTag(w.db, db', txn, t);
      var x := txn.event.invoice;
      assert ES.Bound(w.db.owned, t, x) ==> x in w.remote && w.remote[x] == t;
      BoundBinds(w.db.owned, db'.owned, t, Some(x), w.remote);
    }
  }

  lemma BoundMove(w: World, m: Move, cfg: TrialConfig)
    requires ExactIn(w) && BoundRemotely(w.db.owned, w.remote) && CanMove(w, m) && HonestMove(w, m)
    requires !m.IssueDraft? && !m.LookUpDraft?
    ensures BoundRemotely(MoveWorld(w, m, cfg).db.owned, MoveWorld(w, m, cfg).remote)
  {
    match m
    case SaveBatch(b, amounts, at) => SaveEffect(w.db, b, amounts, at);
    case OnRuns(txn) => RunFrame(w.db, txn, cfg.maxClaims);
    case OnEvents(txn) => BoundDeliver(w, txn);
    case RegisterSmokeTag(key, at) => SmokeRegisterEffect(w.db, key, at);
    case CreateSmoke(key, c) => AdmitEffect(w.remote, SmokeTag(key), c);
    case BindSmoke(key, x, at) =>
      SmokeBindEffect(w.db, key, x, at);
      BoundBinds(w.db.owned, MoveWorld(w, m, cfg).db.owned, SmokeTag(key), Some(x), w.remote);
    case _ =>
  }

  lemma SmokeTagsMove(w: World, m: Move, cfg: TrialConfig)
    requires HonestMove(w, m) && !m.IssueDraft? && !m.LookUpDraft?
             && forall key :: |Invoices(w.remote, SmokeTag(key))| <= 1
    ensures forall key :: |Invoices(MoveWorld(w, m, cfg).remote, SmokeTag(key))| <= 1
  {
    if m.CreateSmoke? {
      AdmitEffect(w.remote, SmokeTag(m.key), m.creation);
    }
  }

  lemma RemoteMove(w: World, m: Move, cfg: TrialConfig)
    requires ExactIn(w) && RemoteOk(w) && CanMove(w, m) && HonestMove(w, m)
    ensures RemoteOk(MoveWorld(w, m, cfg))
  {
    match m
    case IssueDraft(d, a, dies, at) => RemoteIssue(w, d, a, dies, at, cfg);
    case LookUpDraft(d, reply, at) => RemoteReconcile(w, d, reply, at, cfg);
    case _ =>
      HonestSees(w, m);
      SeenMove(w, m, cfg);
      BoundMove(w, m, cfg);
      SmokeTagsMove(w, m, cfg);
  }

  lemma {:induction false} RemoteRun(s: Service, moves: seq<Move>, cfg: TrialConfig)
    requires ExactIn(s.world) && RemoteOk(s.world) && TrustedRun(Honest, s, moves, cfg)
    ensures var s' := RunMoves(s, moves, cfg); ExactIn(s'.world) && RemoteOk(s'.world)
    decreases |moves|
  {
    if moves != [] {
      if CanMove(s.world, moves[0]) {
        KeptMove(s.world, moves[0], cfg);
        RemoteMove(s.world, moves[0], cfg);
      }
      RemoteRun(AfterMove(s, moves[0], cfg), moves[1..], cfg);
    }
  }

  /** The provider never drops an invoice or its tag. */
  ghost predicate RemoteKept(remote: map<InvoiceId, Tag>, remote': map<InvoiceId, Tag>) {
    forall x :: x in remote ==> x in remote' && remote'[x] == remote[x]
  }

  lemma RemoteGrowsMove(w: World, m: Move, cfg: TrialConfig)
    requires HonestMove(w, m)
    ensures RemoteKept(w.remote, MoveWorld(w, m, cfg).remote)
  {
    if m.IssueDraft? {
      IssueHistory(w, m.draft, m.answer, m.dies, m.at, cfg);
    }
  }

  lemma {:induction false} RemoteGrows(s: Service, moves: seq<Move>, cfg: TrialConfig)
    requires TrustedRun(Honest, s, moves, cfg)
    ensures RemoteKept(s.world.remote, RunMoves(s, moves, cfg).world.remote)
    decreases |moves|
  {
    if moves != [] {
      if CanMove(s.world, moves[0]) {
        RemoteGrowsMove(s.world, moves[0], cfg);
      }
      RemoteGrows(AfterMove(s, moves[0], cfg), moves[1..], cfg);
    }
  }

  // ---- Runs in which no process dies during a create ----

  ghost predicate AllStored(w: World) {
    forall d :: TallyOf(w.tallies, d).unrecorded == 0
  }

  /** An honest issue stores its result unless its process dies. */
  lemma StoredMove(w: World, m: Move, cfg: TrialConfig)
    requires ExactIn(w) && RemoteOk(w) && AllStored(w) && CanMove(w, m) && HonestMove(w, m)
    requires m.IssueDraft? ==> !m.dies
    ensures AllStored(MoveWorld(w, m, cfg))
  {
    if m.IssueDraft? {
      RemoteIssue(w, m.draft, m.answer, false, m.at, cfg);
      IssueHistory(w, m.draft, m.answer, false, m.at, cfg);
    }
    var w' := MoveWorld(w, m, cfg);
    forall d ensures TallyOf(w'.tallies, d).unrecorded == 0 {
      assert TallyOf(w.tallies, d).unrecorded == 0;
    }
  }

  lemma {:induction false} StoredRun(s: Service, moves: seq<Move>, cfg: TrialConfig)
    requires ExactIn(s.world) && RemoteOk(s.world) && AllStored(s.world) && TrustedRun(Honest, s, moves, cfg)
    requires NoDeaths(moves)
    ensures var s' := RunMoves(s, moves, cfg); RemoteOk(s'.world) && AllStored(s'.world)
    decreases |moves|
  {
    if moves != [] {
      var m := moves[0];
      if CanMove(s.world, m) {
        KeptMove(s.world, m, cfg);
        RemoteMove(s.world, m, cfg);
        StoredMove(s.world, m, cfg);
      }
      StoredRun(AfterMove(s, m, cfg), moves[1..], cfg);
    }
  }

  /** With an honest provider and no process that dies between a create and its store write, a draft has at most
      one invoice, and none until an attempt is counted. */
  lemma NoDeathOneInvoice(moves: seq<Move>, cfg: TrialConfig, d: DraftId)
    requires TrustedRun(Honest, FRESH_SERVICE, moves, cfg) && NoDeaths(moves)
    ensures var w := RunMoves(FRESH_SERVICE, moves, cfg).world;
            |Invoices(w.remote, TrialTag(d))| <= 1
            && (d in w.db.drafts && w.db.drafts[d].attempts == 0 ==> Invoices(w.remote, TrialTag(d)) == {})
  {
    StoredRun(FRESH_SERVICE, moves, cfg);
    var w := RunMoves(FRESH_SERVICE, moves, cfg).world;
    assert Seen(w.db.drafts, w.remote, w.tallies, d) && TallyOf(w.tallies, d).unrecorded == 0;
  }

  /** A first create that took effect and was not stored is followed by a second one that may: for every pending
      draft without attempts, the exact condition can be broken. */
  lemma RecreatedAfterDeath(w: World, d: IS.InvoiceDraft, a: Answer, b: Answer, now: Time, later: Time,
                            cfg: TrialConfig)
    requires Listed(w.db.drafts, d, DraftPending) && d.attempts == 0
    requires FreshEffect(w.remote, a.creation) && a.creation.effect.Some?
    requires FreshEffect(AdmitInvoice(w.remote, TrialTag(d.id), a.creation), b.creation) && b.creation.effect.Some?
    ensures var w1 := Issue(w, d, a, true, now, cfg).world;
            var w2 := Issue(w1, d, b, false, later, cfg).world;
            Listed(w1.db.drafts, d, DraftPending)
            && |Invoices(w2.remote, TrialTag(d.id))| == |Invoices(w.remote, TrialTag(d.id))| + 2
            && TallyOf(w2.tallies, d.id).firsts == TallyOf(w.tallies, d.id).firsts + 2
  {
    var w1 := Issue(w, d, a, true, now, cfg).world;
    FreshEffectAdds(w.remote, TrialTag(d.id), a.creation, TrialTag(d.id));
    FreshEffectAdds(w1.remote, TrialTag(d.id), b.creation, TrialTag(d.id));
  }

  /** A create that took effect but timed out leaves the draft unknown and its invoice the only one of its tag. */
  lemma TimedOutCreateIsUnknown(w: World, d: IS.InvoiceDraft, a: Answer, now: Time, cfg: TrialConfig)
    requires ExactIn(w) && RemoteOk(w) && Listed(w.db.drafts, d, DraftPending)
    requires HonestMove(w, IssueDraft(d, a, false, now))
    requires !SettledByLookup(d, a) && Invoices(w.remote, TrialTag(d.id)) == {}
    requires a.creation.effect.Some? && a.creation.reply.CreateRaised? && a.creation.reply.error.TimesOut()
    ensures var w1 := Issue(w, d, a, false, now, cfg).world;
            && ExactIn(w1) && RemoteOk(w1) && Listed(w1.db.drafts, IS.InvoiceDraft(d.id, d.attempts + 1), DraftUnknown)
            && Invoices(w1.remote, TrialTag(d.id)) == {a.creation.effect.value}
  {
    IssueEffect(w, d, a, false, now, cfg);
    IssueHistory(w, d, a, false, now, cfg);
    RemoteIssue(w, d, a, false, now, cfg);
    FreshEffectAdds(w.remote, TrialTag(d.id), a.creation, TrialTag(d.id));
  }

  /** An honest answer about an unknown draft with one invoice creates it with that very invoice, and creates
      nothing at the provider: together, a lost reply is recovered. */
  lemma UnknownDraftIsRecovered(w: World, d: IS.InvoiceDraft, x: InvoiceId, reply: Lookup, now: Time, cfg: TrialConfig)
    requires ExactIn(w) && RemoteOk(w) && Listed(w.db.drafts, d, DraftUnknown)
    requires Invoices(w.remote, TrialTag(d.id)) == {x}
    requires HonestLookup(w.remote, TrialTag(d.id), reply) && !reply.LookupRaised?
    ensures reply == Found(x)
    ensures var p := ReconcileOne(w, d, reply, now, cfg);
            && p.alive && p.world.remote == w.remote && d.id in p.world.db.drafts
            && p.world.db.drafts[d.id].status.DraftCreated? && p.world.db.drafts[d.id].provider == Some(x)
  {
    assert x in Invoices(w.remote, TrialTag(d.id));
    ReconcileEffect(w, d, reply, now, cfg);
    RemoteReconcile(w, d, reply, now, cfg);
  }
}
