/** Identifiers, statuses, events and money: the vocabulary shared by the stores and the services.

    Identifiers derived by `uuid5` or by a format string are free constructors here, which makes
    each of them an injective function of its key. Instants are whole seconds. */
module Domain {

  datatype Option<+T> = None | Some(value: T)

  type Time = int
  type Cents = int

  datatype InvoiceId = InvoiceId(text: string)
  datatype TransferId = TransferId(text: string)
  datatype EventId = EventId(text: string)
  datatype JobId = JobId(text: string)
  datatype RunId = RunId(text: string)
  datatype BatchId = BatchId(run: RunId, slot: int)
  datatype DraftId = DraftId(batch: BatchId, ordinal: int)

  /** The SHA-256 digest of a request body. */
  datatype Digest = Digest(text: string)

  /** Tags seen on provider invoices: those of trial drafts, those of smoke invoices, and the rest. */
  datatype Tag =
    | TrialTag(draft: DraftId)
    | SmokeTag(key: string)
    | ForeignTag(text: string)

  /** External ids of transfers: the one derived from an invoice, or any other text. */
  datatype ExternalId =
    | TrialTransfer(invoice: InvoiceId)
    | OtherTransfer(text: string)

  datatype DraftStatus = DraftPending | DraftCreated | DraftUnknown | DraftFailed

  datatype BatchStatus =
    | BatchScheduled | BatchIssuing | BatchReconciling | BatchCompleted | BatchDegraded

  datatype RunStatus = RunActive | RunCompleted | RunStopped | RunDegraded

  datatype JobStatus =
    | JobPending | JobProcessing | JobUnknown | JobSucceeded | JobPermanentFailure
  {
    predicate Terminal() {
      JobSucceeded? || JobPermanentFailure?
    }
  }

  datatype Outcome =
    | Queued
    | EventIgnored
    | IgnoredWorkspace
    | Rejected
    | DuplicateEvent
    | DuplicateInvoice
    | InvoiceUnknown
    | TransferUpdated
    | TransferUnmatched
    | TransferStale

  /** A signed event after verification. */
  datatype Event =
    | Credited(id: EventId, invoice: InvoiceId, amount: Cents, fee: Cents, workspace: string, tags: seq<Tag>)
    | Ignored(id: EventId, subscription: string, logType: string, workspace: string)
    | Lifecycle(id: EventId, transfer: TransferId, external: ExternalId, status: string, logType: string,
                updatedAt: Time, workspace: string)
  {
    function Subscription(): string {
      match this
      case Credited(_, _, _, _, _, _) => "invoice"
      case Ignored(_, s, _, _) => s
      case Lifecycle(_, _, _, _, _, _, _) => "transfer"
    }

    function LogType(): string {
      match this
      case Credited(_, _, _, _, _, _) => "credited"
      case Ignored(_, _, t, _) => t
      case Lifecycle(_, _, _, _, t, _, _) => t
    }
  }

  /** What the webhook service hands to the event store. */
  datatype EventRecord = EventRecord(event: Event, digest: Digest, receivedAt: Time, net: Option<Cents>)

  /** The net amount of a credit, when the amounts are acceptable. */
  function NetAmount(amount: Cents, fee: Cents): (net: Option<Cents>)
    ensures net.Some? <==> 0 <= fee < amount
    ensures net.Some? ==> net.value > 0 && amount == fee + net.value
  {
    if amount <= 0 || fee < 0 || fee >= amount then None else Some(amount - fee)
  }

  /** The record the webhook service builds for a verified event. */
  function MakeRecord(event: Event, digest: Digest, receivedAt: Time): EventRecord {
    EventRecord(event, digest, receivedAt,
                if event.Credited? then NetAmount(event.amount, event.fee) else None)
  }

  /** A record whose net amount is the one the webhook service computes. */
  predicate WellFormed(rec: EventRecord) {
    rec == MakeRecord(rec.event, rec.digest, rec.receivedAt)
  }

  function Pow2(n: nat): (p: nat)
    ensures p > 0
  {
    if n == 0 then 1 else 2 * Pow2(n - 1)
  }

  function Min(a: int, b: int): int {
    if a <= b then a else b
  }
}
