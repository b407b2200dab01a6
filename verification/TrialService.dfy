/** The trial service (application/trials.py): starting a run, issuing the drafts of a due batch, and
    reconciling drafts whose outcome is unknown. The functions say what each pass does to the database
    and to the provider, also when the process dies part-way; the class does it step by step. */
module TrialService {
  import opened Domain
  import opened Tables
  import opened InvoiceProvider
  import IS = InvoiceStore
  import RS = TrialStore

  datatype TrialConfig = TrialConfig(leaseSeconds: int, retryBase: int, maxAttempts: int, maxReconciles: int,
                                     maxClaims: int)

  predicate ValidTrialConfig(cfg: TrialConfig) {
    cfg.leaseSeconds > 0 && cfg.retryBase > 0 && cfg.maxAttempts >= 1 && cfg.maxReconciles >= 1 && cfg.maxClaims >= 1
  }

  function DraftBackoff(cfg: TrialConfig, attempts: nat): int {
    cfg.retryBase * Pow2(Min(attempts, 8))
  }

  /** The history of one draft: its create calls, those that took effect while no attempt was counted, those
      whose result no store write followed, its lookups by the reconciler that found nothing, and the provider
      answers that were stored. */
  datatype Tally = Tally(creates: nat, firsts: nat, unrecorded: nat, misses: nat, answers: nat)

  /** The database, the provider's invoices, and the history of each draft. */
  datatype World = World(db: Db, remote: map<InvoiceId, Tag>, tallies: map<DraftId, Tally>)

  const NO_TALLY: Tally := Tally(0, 0, 0, 0, 0)

  function TallyOf(tallies: map<DraftId, Tally>, d: DraftId): Tally {
    if d in tallies then tallies[d] else NO_TALLY
  }

  /** A pass that is not alive ended early: its process died or an error reached the caller. */
  datatype Progress = Progress(world: World, alive: bool)

  // ---- Issuing a draft ----

  /** What the provider answers for one draft in one tick. */
  datatype Answer = Answer(lookup: Lookup, creation: Creation)

  function Retrying(db: Db, d: IS.InvoiceDraft, error: InvoiceError, now: Time, cfg: TrialConfig): Tx<()> {
    match IS.Retry(db, IS.DraftFailure(d.id, error.Name(), now), DraftBackoff(cfg, d.attempts), cfg.maxAttempts)
    case Committed(db', _) => Committed(db', ())
    case RolledBack => RolledBack
  }

  /** What the store writes after looking up a draft that was attempted before. */
  ghost function LookupWrite(db: Db, d: IS.InvoiceDraft, reply: Lookup, now: Time, cfg: TrialConfig): Tx<()>
    requires !reply.NotFound?
  {
    match reply
    case Found(x) => IS.Created(db, d.id, x, now)
    case LookupRaised(e) =>
      if e.Retryable() then Retrying(db, d, e, now, cfg) else IS.Failed(db, IS.DraftFailure(d.id, e.Name(), now))
  }

  /** What the store writes after a create. */
  ghost function CreateWrite(db: Db, d: IS.InvoiceDraft, reply: InvoiceReply, now: Time, cfg: TrialConfig): Tx<()> {
    match reply
    case Ok(x) => IS.Created(db, d.id, x, now)
    case CreateRaised(e) =>
      if e.TimesOut() then IS.UnknownResult(db, IS.DraftFailure(d.id, e.Name(), now))
      else if e.Retryable() then Retrying(db, d, e, now, cfg)
      else IS.Failed(db, IS.DraftFailure(d.id, e.Name(), now))
  }

  /** An attempted draft is looked up first, and created only when the lookup finds nothing. */
  predicate SettledByLookup(d: IS.InvoiceDraft, a: Answer) {
    d.attempts > 0 && !a.lookup.NotFound?
  }

  /** The history after one more create call. */
  function Called(t: Tally, d: IS.InvoiceDraft, c: Creation): Tally {
    t.(creates := t.creates + 1, firsts := t.firsts + if d.attempts == 0 && c.effect.Some? then 1 else 0)
  }

  /** One draft. With `dies` the process dies after the create and before its result is stored. */
  ghost function Issue(w: World, d: IS.InvoiceDraft, a: Answer, dies: bool, now: Time, cfg: TrialConfig): Progress {
    var t := TallyOf(w.tallies, d.id);
    if SettledByLookup(d, a) then
      match LookupWrite(w.db, d, a.lookup, now, cfg)
      case Committed(db', _) =>
        Progress(w.(db := db', tallies := w.tallies[d.id := t.(answers := t.answers + 1)]), true)
      case RolledBack => Progress(w, false)
    else
      var remote := AdmitInvoice(w.remote, TrialTag(d.id), a.creation);
      var called := Called(t, d, a.creation);
      var lost := w.(remote := remote, tallies := w.tallies[d.id := called.(unrecorded := t.unrecorded + 1)]);
      if dies then Progress(lost, false)
      else
        match CreateWrite(w.db, d, a.creation.reply, now, cfg)
        case Committed(db', _) =>
          Progress(w.(db := db', remote := remote, tallies := w.tallies[d.id := called.(answers := t.answers + 1)]),
                   true)
        case RolledBack => Progress(lost, false)
  }

  /** A process that lives, or dies at the k-th draft of a pass: before it, or after its create call. */
  datatype Death = Lives | DiesAt(k: nat, afterCreate: bool)

  function Later(death: Death): Death {
    if death.DiesAt? && death.k > 0 then DiesAt(death.k - 1, death.afterCreate) else Lives
  }

  predicate DiesBefore(death: Death) {
    death.DiesAt? && death.k == 0 && !death.afterCreate
  }

  predicate DiesDuring(death: Death) {
    death.DiesAt? && death.k == 0 && death.afterCreate
  }

  ghost function IssueAll(w: World, page: seq<IS.InvoiceDraft>, answers: DraftId -> Answer, death: Death, now: Time,
                          cfg: TrialConfig): Progress
    decreases |page|
  {
    if DiesBefore(death) then Progress(w, false)
    else if page == [] then Progress(w, true)
    else
      var p := Issue(w, page[0], answers(page[0].id), DiesDuring(death), now, cfg);
      if p.alive then IssueAll(p.world, page[1..], answers, Later(death), now, cfg) else p
  }

  // ---- A tick ----

  datatype TickResult = NoBatch | TickCompleted | TickReconciling | TickDegraded | RetryPending | LiveDisabled

  function TickResultOf(status: BatchStatus): TickResult {
    match status
    case BatchCompleted => TickCompleted
    case BatchReconciling => TickReconciling
    case BatchDegraded => TickDegraded
    case BatchScheduled => RetryPending
    case BatchIssuing => RetryPending
  }

  /** The amounts of a batch's drafts, one for each ordinal below the target. */
  function Amounts(payers: DraftId -> Cents, batch: BatchId, n: nat): (amounts: seq<Cents>)
    ensures |amounts| == n && forall i :: 0 <= i < n ==> amounts[i] == payers(DraftId(batch, i))
  {
    seq(n, i => payers(DraftId(batch, i)))
  }

  /** The claim of a batch and the drafts saved for it. */
  ghost function OpenBatch(db: Db, b: BatchId, payers: DraftId -> Cents, now: Time, cfg: TrialConfig): Tx<()>
    requires b in db.batches
  {
    IS.Save(RS.ClaimBatch(db, b, now + cfg.leaseSeconds), b, Amounts(payers, b, db.batches[b].target), now)
  }

  /** A batch was claimed; the process may die before its drafts are saved, at any draft, or before the settlement. */
  ghost function TickBatch(w: World, b: BatchId, payers: DraftId -> Cents, page: seq<IS.InvoiceDraft>,
                           answers: DraftId -> Answer, saves: bool, death: Death, settles: bool, now: Time,
                           cfg: TrialConfig)
    : Progress
    requires b in w.db.batches
  {
    var saved := OpenBatch(w.db, b, payers, now, cfg);
    if !saves || saved.RolledBack? then Progress(w.(db := RS.ClaimBatch(w.db, b, now + cfg.leaseSeconds)), false)
    else
      var p := IssueAll(w.(db := saved.db), page, answers, death, now, cfg);
      if !p.alive || !settles then Progress(p.world, false)
      else SettleIn(p.world, b, now)
  }

  ghost function SettleIn(w: World, b: BatchId, now: Time): Progress {
    match IS.Settle(w.db, b, now)
    case Committed(db', _) => Progress(w.(db := db'), true)
    case RolledBack => Progress(w, false)
  }

  /** The page of a tick: the due drafts of the batch it claimed, once they are saved. */
  ghost predicate IsTickPage(db: Db, b: BatchId, payers: DraftId -> Cents, page: seq<IS.InvoiceDraft>, now: Time,
                             cfg: TrialConfig)
    requires b in db.batches
  {
    var saved := OpenBatch(db, b, payers, now, cfg);
    saved.Committed? ==> IS.IsPendingPage(saved.db.drafts, b, now, page)
  }

  /** The claimable batch that is scheduled first. */
  ghost predicate IsFirstClaimable(batches: map<BatchId, BatchRow>, b: BatchId, now: Time, maxClaims: int) {
    && b in batches && RS.BatchClaimable(batches[b], now, maxClaims)
    && forall c :: c in batches && RS.BatchClaimable(batches[c], now, maxClaims) ==>
         batches[b].scheduledAt <= batches[c].scheduledAt
  }

  // ---- Reconciling ----

  /** One draft whose outcome is unknown. A transient lookup error skips it, a permanent one ends the pass. */
  ghost function ReconcileOne(w: World, d: IS.InvoiceDraft, reply: Lookup, now: Time, cfg: TrialConfig): Progress {
    match reply
    case LookupRaised(e) => Progress(w, e.Retryable())
    case _ =>
      var t := TallyOf(w.tallies, d.id);
      match IS.Reconcile(w.db, d, FoundIn(reply), now, cfg.maxAttempts, cfg.maxReconciles,
                         DraftBackoff(cfg, d.attempts))
      case Committed(db', _) =>
        Progress(w.(db := db', tallies := w.tallies[d.id :=
          t.(answers := t.answers + 1, misses := t.misses + if reply.NotFound? then 1 else 0)]), true)
      case RolledBack => Progress(w, false)
  }

  function FoundIn(reply: Lookup): Option<InvoiceId> {
    if reply.Found? then Some(reply.invoice) else None
  }

  ghost function ReconcileAll(w: World, page: seq<IS.InvoiceDraft>, replies: DraftId -> Lookup, death: Death, now: Time,
                              cfg: TrialConfig): Progress
    decreases |page|
  {
    if DiesBefore(death) then Progress(w, false)
    else if page == [] then Progress(w, true)
    else
      var p := ReconcileOne(w, page[0], replies(page[0].id), now, cfg);
      if p.alive then ReconcileAll(p.world, page[1..], replies, Later(death), now, cfg) else p
  }

  ghost function SettleAll(w: World, batches: seq<BatchId>, now: Time): Progress {
    if batches == [] then Progress(w, true)
    else
      var p := SettleAll(w, batches[..|batches| - 1], now);
      if p.alive then SettleIn(p.world, batches[|batches| - 1], now) else p
  }

  /** The elements of a set, each once. */
  ghost predicate IsOrderOf(batches: set<BatchId>, order: seq<BatchId>) {
    && (forall i, j :: 0 <= i < j < |order| ==> order[i] != order[j])
    && (forall b :: b in order <==> b in batches)
  }

  /** The batches of the drafts that a pass got an answer for. */
  function AnsweredBatches(page: seq<IS.InvoiceDraft>, replies: DraftId -> Lookup): set<BatchId> {
    set i | 0 <= i < |page| && !replies(page[i].id).LookupRaised? :: page[i].id.batch
  }

  /** A pass over the unknown drafts; a process that dies may have settled some of the batches. */
  ghost function ReconcilePass(w: World, page: seq<IS.InvoiceDraft>, replies: DraftId -> Lookup, death: Death,
                               batches: seq<BatchId>, now: Time, cfg: TrialConfig): Progress
  {
    var p := ReconcileAll(w, page, replies, death, now, cfg);
    if p.alive then SettleAll(p.world, batches, now) else p
  }

  /** How many drafts of a page were found. */
  function FoundCount(page: seq<IS.InvoiceDraft>, replies: DraftId -> Lookup): nat {
    if page == [] then 0
    else FoundCount(page[..|page| - 1], replies) + if replies(page[|page| - 1].id).Found? then 1 else 0
  }

  lemma AnsweredNext(page: seq<IS.InvoiceDraft>, d: IS.InvoiceDraft, replies: DraftId -> Lookup)
    ensures AnsweredBatches(page + [d], replies)
         == AnsweredBatches(page, replies) + if replies(d.id).LookupRaised? then {} else {d.id.batch}
  {
    var more := page + [d];
    forall b | b in AnsweredBatches(page, replies) ensures b in AnsweredBatches(more, replies) {
      var i :| 0 <= i < |page| && !replies(page[i].id).LookupRaised? && page[i].id.batch == b;
      assert more[i] == page[i];
    }
    if !replies(d.id).LookupRaised? {
      assert more[|page|] == d;
    }
  }

  // ---- The service ----

  class TrialService {
    const trials: RS.TrialStore
    const invoices: IS.InvoiceStore
    const provider: InvoiceApi
    const cfg: TrialConfig
    const live: bool
    ghost var tallies: map<DraftId, Tally>

    constructor (trials: RS.TrialStore, invoices: IS.InvoiceStore, provider: InvoiceApi, cfg: TrialConfig, live: bool)
      requires trials.db == invoices.db
      ensures this.trials == trials && this.invoices == invoices && this.provider == provider
      ensures this.cfg == cfg && this.live == live && tallies == map[]
    {
      this.trials, this.invoices, this.provider, this.cfg, this.live := trials, invoices, provider, cfg, live;
      tallies := map[];
    }

    ghost predicate Valid() {
      trials.db == invoices.db
    }

    ghost function View(): World
      reads this, invoices.db, provider
    {
      World(invoices.db.View(), provider.remote, tallies)
    }

    /** None is an error: live operations are disabled, the counts are out of range, or a run is active. */
    method Start(run: RunId, startAt: Time, counts: seq<int>) returns (r: Option<RunId>)
      requires Valid()
      modifies invoices.db
      ensures var schedule := RS.BuildSchedule(startAt, counts);
              if live && schedule.Some? then
                var tx := RS.CreateRun(old(invoices.db.View()), run, startAt, schedule.value);
                invoices.db.View() == After(old(invoices.db.View()), tx)
                  && r == if tx.Committed? then Some(run) else None
              else r.None? && invoices.db.View() == old(invoices.db.View())
    {
      if !live {
        return None;
      }
      var schedule := RS.BuildSchedule(startAt, counts);
      if schedule.None? {
        return None;
      }
      var ok := trials.Create(run, startAt, schedule.value);
      return if ok then Some(run) else None;
    }

    /** Stores the outcome of a lookup, unless it found nothing. */
    method SettleAttemptedDraft(d: IS.InvoiceDraft, reply: Lookup, now: Time) returns (settled: bool, ok: bool)
      requires Valid()
      modifies invoices.db
      ensures settled == !reply.NotFound?
      ensures if settled then
                var tx := LookupWrite(old(invoices.db.View()), d, reply, now, cfg);
                invoices.db.View() == After(old(invoices.db.View()), tx) && ok == tx.Committed?
              else ok && invoices.db.View() == old(invoices.db.View())
    {
      match reply
      case NotFound =>
        return false, true;
      case Found(x) =>
        ok := invoices.MoveDraft(d.id, DraftCreated, Some(x), None, now);
        return true, ok;
      case LookupRaised(e) =>
        if e.Retryable() {
          var again := invoices.RetryDraft(IS.DraftFailure(d.id, e.Name(), now), DraftBackoff(cfg, d.attempts),
                                           cfg.maxAttempts);
          return true, again.Some?;
        }
        ok := invoices.MoveDraft(d.id, DraftFailed, None, Some(e.Name()), now);
        return true, ok;
    }

    method StoreCreation(d: IS.InvoiceDraft, reply: InvoiceReply, now: Time) returns (ok: bool)
      requires Valid()
      modifies invoices.db
      ensures var tx := CreateWrite(old(invoices.db.View()), d, reply, now, cfg);
              invoices.db.View() == After(old(invoices.db.View()), tx) && ok == tx.Committed?
    {
      match reply
      case Ok(x) =>
        ok := invoices.MoveDraft(d.id, DraftCreated, Some(x), None, now);
      case CreateRaised(e) =>
        if e.TimesOut() {
          ok := invoices.MoveDraft(d.id, DraftUnknown, None, Some(e.Name()), now);
        } else if e.Retryable() {
          var again := invoices.RetryDraft(IS.DraftFailure(d.id, e.Name(), now), DraftBackoff(cfg, d.attempts),
                                           cfg.maxAttempts);
          ok := again.Some?;
        } else {
          ok := invoices.MoveDraft(d.id, DraftFailed, None, Some(e.Name()), now);
        }
    }

    /** False is an error that ends the tick. */
    method IssueDraft(d: IS.InvoiceDraft, a: Answer, now: Time) returns (ok: bool)
      requires Valid()
      modifies invoices.db, provider, `tallies
      ensures var p := Issue(old(View()), d, a, false, now, cfg); View() == p.world && ok == p.alive
    {
      ghost var t := TallyOf(tallies, d.id);
      if d.attempts > 0 {
        var settled, stored := SettleAttemptedDraft(d, a.lookup, now);
        if settled {
          if stored {
            tallies := tallies[d.id := t.(answers := t.answers + 1)];
          }
          return stored;
        }
      }
      var reply := provider.CreateInvoice(TrialTag(d.id), a.creation);
      ok := StoreCreation(d, reply, now);
      ghost var called := Called(t, d, a.creation);
      tallies := tallies[d.id := if ok then called.(answers := t.answers + 1)
                           else called.(unrecorded := t.unrecorded + 1)];
    }

    /** Issues the drafts of a page in order. False is an error that ends the tick. */
    method IssueDrafts(drafts: seq<IS.InvoiceDraft>, answers: DraftId -> Answer, now: Time) returns (ok: bool)
      requires Valid()
      modifies invoices.db, provider, `tallies
      ensures IssueAll(old(View()), drafts, answers, Lives, now, cfg) == Progress(View(), ok)
    {
      var i := 0;
      while i < |drafts|
        invariant 0 <= i <= |drafts|
        invariant IssueAll(old(View()), drafts, answers, Lives, now, cfg)
                    == IssueAll(View(), drafts[i..], answers, Lives, now, cfg)
      {
        ok := IssueDraft(drafts[i], answers(drafts[i].id), now);
        if !ok {
          return;
        }
        assert drafts[i..][1..] == drafts[i + 1..];
        i := i + 1;
      }
      ok := true;
    }

    /** The rest of a tick that claimed a batch: its drafts, their issue, and the settlement. None is an error. */
    method TickClaimed(b: BatchId, ghost start: World, now: Time, payers: DraftId -> Cents, answers: DraftId -> Answer)
      returns (r: Option<TickResult>, ghost page: seq<IS.InvoiceDraft>)
      requires Valid() && b in start.db.batches
      requires View() == start.(db := RS.ClaimBatch(start.db, b, now + cfg.leaseSeconds))
      modifies invoices.db, provider, `tallies
      ensures IsTickPage(start.db, b, payers, page, now, cfg)
      ensures var p := TickBatch(start, b, payers, page, answers, true, Lives, true, now, cfg);
              && View() == p.world && r.Some? == p.alive
              && (r.Some? ==> b in invoices.db.batches && r.value == TickResultOf(invoices.db.batches[b].status))
    {
      page := [];
      var ok := invoices.SaveDrafts(b, Amounts(payers, b, invoices.db.batches[b].target), now);
      if !ok {
        return None, [];
      }
      var drafts := invoices.Pending(b, now);
      page := drafts;
      ok := IssueDrafts(drafts, answers, now);
      if !ok {
        return None, page;
      }
      var status := invoices.SettleBatch(b, now);
      return if status.Some? then Some(TickResultOf(status.value)) else None, page;
    }

    /** One tick; the page and the claimed batch are what the store returned. None is an error. */
    method Tick(now: Time, payers: DraftId -> Cents, answers: DraftId -> Answer)
      returns (r: Option<TickResult>, ghost claimed: Option<BatchId>, ghost page: seq<IS.InvoiceDraft>)
      requires Valid()
      modifies invoices.db, provider, `tallies
      ensures !live ==> r == Some(LiveDisabled) && View() == old(View())
      ensures live && claimed.None? ==>
                && r == Some(NoBatch)
                && (forall b :: b in old(invoices.db.batches) ==>
                      !RS.BatchClaimable(old(invoices.db.batches)[b], now, cfg.maxClaims))
                && View() == old(View()).(db := RS.DegradeExhausted(old(invoices.db.View()), now, cfg.maxClaims))
      ensures live && claimed.Some? ==>
                && IsFirstClaimable(old(invoices.db.batches), claimed.value, now, cfg.maxClaims)
                && IsTickPage(old(invoices.db.View()), claimed.value, payers, page, now, cfg)
                && var p := TickBatch(old(View()), claimed.value, payers, page, answers, true, Lives, true, now, cfg);
                   && View() == p.world && r.Some? == p.alive
                   && (r.Some? ==> claimed.value in invoices.db.batches
                                   && r.value == TickResultOf(invoices.db.batches[claimed.value].status))
    {
      claimed, page := None, [];
      if !live {
        return Some(LiveDisabled), None, [];
      }
      var batch := trials.ClaimDueBatch(now, now + cfg.leaseSeconds, cfg.maxClaims);
      if batch.None? {
        return Some(NoBatch), None, [];
      }
      claimed := batch;
      r, page := TickClaimed(batch.value, old(View()), now, payers, answers);
    }

    /** Stores the answer of one lookup. False is an error that ends the pass. */
    method ReconcileDraft(d: IS.InvoiceDraft, reply: Lookup, now: Time) returns (ok: bool)
      requires Valid()
      modifies invoices.db, `tallies
      ensures var p := ReconcileOne(old(View()), d, reply, now, cfg); View() == p.world && ok == p.alive
    {
      if reply.LookupRaised? {
        return reply.error.Retryable();
      }
      ok := invoices.ReconcileDraft(d, FoundIn(reply), now, cfg.maxAttempts, cfg.maxReconciles,
                                    DraftBackoff(cfg, d.attempts));
      if ok {
        ghost var t := TallyOf(tallies, d.id);
        tallies := tallies[d.id := t.(answers := t.answers + 1, misses := t.misses + if reply.NotFound? then 1 else 0)];
      }
    }

    /** Settles a set of batches; `order` is the order it took. */
    method SettleBatches(answered: set<BatchId>, now: Time) returns (ok: bool, ghost order: seq<BatchId>)
      requires Valid()
      modifies invoices.db
      ensures SettleAll(old(View()), order, now) == Progress(View(), ok)
      ensures ok ==> IsOrderOf(answered, order)
    {
      order := [];
      var batches := answered;
      while batches != {}
        invariant batches <= answered && IsOrderOf(answered - batches, order)
        invariant SettleAll(old(View()), order, now) == Progress(View(), true)
        decreases batches
      {
        var b :| b in batches;
        ghost var before := order;
        order := order + [b];
        assert order[..|before|] == before;
        var status := invoices.SettleBatch(b, now);
        if status.None? {
          return false, order;
        }
        batches := batches - {b};
      }
      assert answered - {} == answered;
      return true, order;
    }

    /** Looks the drafts of a page up; `batches` are those of the drafts with an answer. False is an error. */
    method LookUpAll(drafts: seq<IS.InvoiceDraft>, replies: DraftId -> Lookup, now: Time)
      returns (ok: bool, reconciled: nat, batches: set<BatchId>)
      requires Valid()
      modifies invoices.db, `tallies
      ensures ReconcileAll(old(View()), drafts, replies, Lives, now, cfg) == Progress(View(), ok)
      ensures ok ==> reconciled == FoundCount(drafts, replies) && batches == AnsweredBatches(drafts, replies)
    {
      reconciled, batches := 0, {};
      var i := 0;
      while i < |drafts|
        invariant 0 <= i <= |drafts|
        invariant reconciled == FoundCount(drafts[..i], replies)
        invariant batches == AnsweredBatches(drafts[..i], replies)
        invariant ReconcileAll(old(View()), drafts, replies, Lives, now, cfg)
               == ReconcileAll(View(), drafts[i..], replies, Lives, now, cfg)
      {
        var d := drafts[i];
        assert drafts[i..][1..] == drafts[i + 1..] && drafts[..i + 1] == drafts[..i] + [d];
        AnsweredNext(drafts[..i], d, replies);
        var reply := replies(d.id);
        ok := ReconcileDraft(d, reply, now);
        if !ok {
          return;
        }
        if !reply.LookupRaised? {
          batches := batches + {d.id.batch};
          reconciled := reconciled + if reply.Found? then 1 else 0;
        }
        i := i + 1;
      }
      assert drafts[..i] == drafts;
      ok := true;
    }

    /** One reconciliation pass; `order` is the order in which it settled the batches. None is an error. */
    method ReconcileInvoices(now: Time, replies: DraftId -> Lookup)
      returns (r: Option<nat>, ghost page: seq<IS.InvoiceDraft>, ghost order: seq<BatchId>)
      requires Valid()
      modifies invoices.db, `tallies
      ensures IS.IsUnknownPage(old(invoices.db.drafts), now, 100, page)
      ensures r.Some? ==> IsOrderOf(AnsweredBatches(page, replies), order) && r.value == FoundCount(page, replies)
      ensures var p := ReconcilePass(old(View()), page, replies, Lives, order, now, cfg);
              View() == p.world && r.Some? == p.alive
    {
      order := [];
      var drafts := invoices.Unknown(now);
      page := drafts;
      var ok, reconciled, batches := LookUpAll(drafts, replies, now);
      if !ok {
        return None, page, order;
      }
      ok, order := SettleBatches(batches, now);
      return if ok then Some(reconciled) else None, page, order;
    }
  }
}
