/** The provider's invoices as the services reach them (domain/provider.py, infrastructure/starkbank_client.py).
    What the provider answers is a parameter of each call. */
module InvoiceProvider {
  import opened Domain

  /** Unknown outcomes are timeouts, and timeouts are transient errors. */
  datatype InvoiceError = UnknownOutcome | TimedOut | Transient | Permanent
  {
    predicate Retryable() {
      !Permanent?
    }

    predicate TimesOut() {
      UnknownOutcome? || TimedOut?
    }

    function Name(): string {
      match this
      case UnknownOutcome => "ProviderUnknownOutcomeError"
      case TimedOut => "ProviderTimeoutError"
      case Transient => "ProviderTransientError"
      case Permanent => "ProviderPermanentError"
    }
  }

  /** A lookup by tag hands back one invoice with the tag, if there is one. */
  datatype Lookup = Found(invoice: InvoiceId) | NotFound | LookupRaised(error: InvoiceError)

  datatype InvoiceReply = Ok(invoice: InvoiceId) | CreateRaised(error: InvoiceError)

  /** A create takes effect under a new id, or not at all, whatever it replies. */
  datatype Creation = Creation(effect: Option<InvoiceId>, reply: InvoiceReply)

  /** The provider's invoices after a create. It does not reject a repeated tag. */
  function AdmitInvoice(remote: map<InvoiceId, Tag>, tag: Tag, c: Creation): map<InvoiceId, Tag> {
    if c.effect.Some? then remote[c.effect.value := tag] else remote
  }

  function Invoices(remote: map<InvoiceId, Tag>, tag: Tag): set<InvoiceId> {
    set x | x in remote && remote[x] == tag
  }

  /** A lookup that sees every past create. */
  predicate HonestLookup(remote: map<InvoiceId, Tag>, tag: Tag, reply: Lookup) {
    match reply
    case Found(x) => x in Invoices(remote, tag)
    case NotFound => Invoices(remote, tag) == {}
    case LookupRaised(_) => true
  }

  /** A create that takes effect under a fresh id, if it does. */
  predicate FreshEffect(remote: map<InvoiceId, Tag>, c: Creation) {
    c.effect.Some? ==> c.effect.value !in remote
  }

  /** A create under a fresh id that it reports when it succeeds. */
  predicate HonestCreation(remote: map<InvoiceId, Tag>, c: Creation) {
    FreshEffect(remote, c) && (c.reply.Ok? ==> c.effect == Some(c.reply.invoice))
  }

  lemma InvoicesAfter(remote: map<InvoiceId, Tag>, x: InvoiceId, tag: Tag, t: Tag)
    requires x !in remote
    ensures Invoices(remote[x := tag], t) == if t == tag then Invoices(remote, t) + {x} else Invoices(remote, t)
  {
  }

  /** A create under a fresh id adds at most one invoice to its tag and none to another. */
  lemma FreshEffectAdds(remote: map<InvoiceId, Tag>, tag: Tag, c: Creation, t: Tag)
    requires FreshEffect(remote, c)
    ensures var remote' := AdmitInvoice(remote, tag, c);
            Invoices(remote', t) == Invoices(remote, t) + (if t == tag && c.effect.Some? then {c.effect.value} else {})
            && |Invoices(remote', t)| == |Invoices(remote, t)| + (if t == tag && c.effect.Some? then 1 else 0)
  {
    if c.effect.Some? {
      InvoicesAfter(remote, c.effect.value, tag, t);
    }
  }

  class InvoiceApi {
    var remote: map<InvoiceId, Tag>

    constructor ()
      ensures remote == map[]
    {
      remote := map[];
    }

    method CreateInvoice(tag: Tag, c: Creation) returns (reply: InvoiceReply)
      modifies this
      ensures remote == AdmitInvoice(old(remote), tag, c) && reply == c.reply
    {
      if c.effect.Some? {
        remote := remote[c.effect.value := tag];
      }
      return c.reply;
    }
  }
}
