/** The smoke batch (application/smoke.py): find or create one invoice for each ordinal of a reference. */
module SmokeBatch {
  import opened Domain
  import opened InvoiceProvider
  import opened TrialService
  import IS = InvoiceStore

  function Digit(n: nat): (c: char)
    requires n < 10
    ensures c != ':'
  {
    "0123456789"[n]
  }

  function Decimal(n: nat): (s: string)
    ensures s != "" && ':' !in s
  {
    if n < 10 then [Digit(n)] else Decimal(n / 10) + [Digit(n % 10)]
  }

  lemma {:induction false} DecimalInjective(m: nat, n: nat)
    requires Decimal(m) == Decimal(n)
    ensures m == n
    decreases m
  {
    var s, t := Decimal(m), Decimal(n);
    assert s[|s| - 1] == Digit(m % 10) && t[|t| - 1] == Digit(n % 10);
    if m >= 10 && n >= 10 {
      assert s[..|s| - 1] == Decimal(m / 10) && t[..|t| - 1] == Decimal(n / 10);
      DecimalInjective(m / 10, n / 10);
    }
  }

  /** What the identifier of a smoke invoice is derived from. */
  function Key(namespace: string, reference: string, ordinal: nat): string {
    "starkbank-trial:smoke:" + namespace + ":" + reference + ":" + Decimal(ordinal)
  }

  /** The text after the last separator determines the rest. */
  lemma LastSeparator(a: string, x: string, b: string, y: string)
    requires a + ":" + x == b + ":" + y && ':' !in x && ':' !in y
    ensures a == b && x == y
  {
    var s := a + ":" + x;
    assert s[|a|] == ':' && s[|b|] == ':' by {
      assert (b + ":" + y)[|b|] == ':';
    }
    assert a == s[..|a|] && b == (b + ":" + y)[..|b|];
    assert x == s[|a| + 1..] && y == (b + ":" + y)[|b| + 1..];
  }

  /** In one namespace, a key determines its reference and its ordinal, even if references contain separators. */
  lemma KeyInjective(namespace: string, r1: string, i: nat, r2: string, j: nat)
    requires Key(namespace, r1, i) == Key(namespace, r2, j)
    ensures r1 == r2 && i == j
  {
    var head := "starkbank-trial:smoke:" + namespace + ":";
    LastSeparator(head + r1, Decimal(i), head + r2, Decimal(j));
    assert r1 == (head + r1)[|head|..] && r2 == (head + r2)[|head|..];
    DecimalInjective(i, j);
  }

  /** What the clock and the provider answer for one ordinal. */
  datatype SmokeAnswer = SmokeAnswer(at: Time, first: Lookup, creation: Creation, second: Lookup, later: Time)

  /** Where the process dies within an ordinal, if it does. */
  datatype Stop = Goes | AfterRegister | AfterCreate

  /** One ordinal; without an invoice the run stopped there, dead or with an error. */
  datatype SmokeStep = SmokeStep(world: World, invoice: Option<InvoiceId>, reused: bool)

  ghost function RecordSmoke(w: World, key: string, x: InvoiceId, at: Time, reused: bool): SmokeStep {
    var registered := IS.RegisterSmoke(w.db, SmokeTag(key), at);
    match IS.Bind(registered, SmokeTag(key), x, at)
    case Committed(db', _) => SmokeStep(w.(db := db'), Some(x), reused)
    case RolledBack => SmokeStep(w.(db := registered), None, reused)
  }

  ghost function SmokeOne(w: World, key: string, a: SmokeAnswer, stop: Stop): SmokeStep {
    var registered := w.(db := IS.RegisterSmoke(w.db, SmokeTag(key), a.at));
    if stop.AfterRegister? then SmokeStep(registered, None, false)
    else
      match a.first
      case Found(x) => RecordSmoke(registered, key, x, a.at, true)
      case LookupRaised(_) => SmokeStep(registered, None, false)
      case NotFound =>
        var created := registered.(remote := AdmitInvoice(w.remote, SmokeTag(key), a.creation));
        if stop.AfterCreate? then SmokeStep(created, None, false)
        else
          match a.creation.reply
          case Ok(x) => RecordSmoke(created, key, x, a.later, false)
          case CreateRaised(e) =>
            if e.UnknownOutcome? && a.second.Found? then RecordSmoke(created, key, a.second.invoice, a.later, false)
            else SmokeStep(created, None, false)
  }

  datatype SmokeProgress = SmokeProgress(world: World, alive: bool, invoices: seq<InvoiceId>, reused: nat)

  /** One ordinal more: its invoice is collected, or the run ends. */
  ghost function Collected(p: SmokeProgress, s: SmokeStep): SmokeProgress {
    if s.invoice.None? then SmokeProgress(s.world, false, p.invoices, p.reused)
    else SmokeProgress(s.world, true, p.invoices + [s.invoice.value], p.reused + if s.reused then 1 else 0)
  }

  ghost function SmokeRun(w: World, namespace: string, reference: string, n: nat, answers: nat -> SmokeAnswer,
                          stops: nat -> Stop): SmokeProgress
  {
    if n == 0 then SmokeProgress(w, true, [], 0)
    else
      var p := SmokeRun(w, namespace, reference, n - 1, answers, stops);
      if !p.alive then p
      else Collected(p, SmokeOne(p.world, Key(namespace, reference, n - 1), answers(n - 1), stops(n - 1)))
  }

  datatype SmokeResult = SmokeResult(invoices: seq<InvoiceId>, reused: nat)

  class SmokeBatchService {
    const provider: InvoiceApi
    const store: IS.InvoiceStore
    const namespace: string

    constructor (provider: InvoiceApi, store: IS.InvoiceStore, namespace: string)
      ensures this.provider == provider && this.store == store && this.namespace == namespace
    {
      this.provider, this.store, this.namespace := provider, store, namespace;
    }

    ghost function View(): World
      reads store.db, provider
    {
      World(store.db.View(), provider.remote, map[])
    }

    /** One ordinal. None is an error that reached the caller. */
    method RunOne(key: string, a: SmokeAnswer) returns (invoice: Option<InvoiceId>, reused: bool)
      modifies store.db, provider
      ensures SmokeOne(old(View()), key, a, Goes) == SmokeStep(View(), invoice, reused)
    {
      var tag := SmokeTag(key);
      store.Register(tag, a.at);
      if a.first.LookupRaised? {
        return None, false;
      }
      if a.first.Found? {
        var ok := store.RecordSmoke(tag, a.first.invoice, a.at);
        return if ok then Some(a.first.invoice) else None, true;
      }
      var reply := provider.CreateInvoice(tag, a.creation);
      var created: InvoiceId;
      if reply.Ok? {
        created := reply.invoice;
      } else if reply.error.UnknownOutcome? && a.second.Found? {
        created := a.second.invoice;
      } else {
        return None, false;
      }
      var ok := store.RecordSmoke(tag, created, a.later);
      return if ok then Some(created) else None, false;
    }

    method Run(reference: string, count: int, answers: nat -> SmokeAnswer) returns (r: Option<SmokeResult>)
      modifies store.db, provider
      ensures var n := if count < 0 then 0 else count;
              var p := SmokeRun(old(View()), namespace, reference, n, answers, i => Goes);
              View() == p.world && r == if p.alive then Some(SmokeResult(p.invoices, p.reused)) else None
    {
      var invoices: seq<InvoiceId> := [];
      var reused: nat := 0;
      var n := if count < 0 then 0 else count;
      var ordinal := 0;
      ghost var stops: nat -> Stop := i => Goes;
      while ordinal < n
        invariant 0 <= ordinal <= n
        invariant SmokeRun(old(View()), namespace, reference, ordinal, answers, stops)
               == SmokeProgress(View(), true, invoices, reused)
      {
        var invoice, again := RunOne(Key(namespace, reference, ordinal), answers(ordinal));
        ordinal := ordinal + 1;
        if invoice.None? {
          StoppedRun(old(View()), namespace, reference, ordinal, n, answers, stops);
          return None;
        }
        invoices := invoices + [invoice.value];
        reused := reused + if again then 1 else 0;
      }
      return Some(SmokeResult(invoices, reused));
    }
  }

  /** A run that stopped before an ordinal stays as it stopped. */
  lemma {:induction false} StoppedRun(w: World, namespace: string, reference: string, k: nat, n: nat,
                                      answers: nat -> SmokeAnswer, stops: nat -> Stop)
    requires k <= n && !SmokeRun(w, namespace, reference, k, answers, stops).alive
    ensures SmokeRun(w, namespace, reference, n, answers, stops) == SmokeRun(w, namespace, reference, k, answers, stops)
    decreases n
  {
    if k < n {
      StoppedRun(w, namespace, reference, k, n - 1, answers, stops);
    }
  }
}
