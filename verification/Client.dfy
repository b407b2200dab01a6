/** The provider's transfers and the client's find-or-create by external id
    (infrastructure/starkbank_client.py). What the provider answers is a parameter of each call. */
module Client {
  import opened Domain

  datatype Transfer = Transfer(id: TransferId, external: ExternalId, amount: Cents, status: string)

  /** The errors the SDK raises, and the ones the client turns them into. */
  datatype SdkError = InternalServerError | UnknownError | ValidationError | InputErrors | OtherError

  datatype ProviderError = TimeoutError | TransientError | PermanentError

  function RaiseProvider(error: SdkError, unknownOutcome: bool): ProviderError {
    if unknownOutcome && (error.InternalServerError? || error.UnknownError? || error.ValidationError?) then TimeoutError
    else if error.InternalServerError? || error.UnknownError? then TransientError
    else PermanentError
  }

  datatype TransferCommand = TransferCommand(external: ExternalId, amount: Cents)

  function BuildTransferCommand(invoice: InvoiceId, amount: Cents): TransferCommand {
    TransferCommand(TrialTransfer(invoice), amount)
  }

  /** A query lists transfers with the tag, not necessarily all of them, or fails. */
  datatype LookupReply = Listed(items: seq<Transfer>) | LookupRaised(error: SdkError)

  /** A create may take effect or not, whatever it replies. */
  datatype CreateReply = Accepted | EmptyReply | CreateRaised(error: SdkError)

  datatype CreateOutcome = CreateOutcome(takesEffect: bool, id: TransferId, status: string, reply: CreateReply)

  datatype Found = FoundTransfer(transfer: Transfer) | NoTransfer | FindFailed(error: ProviderError)

  datatype Ensured = EnsuredTransfer(transfer: Transfer) | EnsureFailed(error: ProviderError)

  predicate Holds(transfers: seq<Transfer>, external: ExternalId) {
    exists i :: 0 <= i < |transfers| && transfers[i].external == external
  }

  /** The provider rejects a repeated external id: it admits a transfer only under a new one. */
  function Admit(transfers: seq<Transfer>, command: TransferCommand, o: CreateOutcome): seq<Transfer> {
    if o.takesEffect && !Holds(transfers, command.external) then
      transfers + [Transfer(o.id, command.external, command.amount, o.status)]
    else transfers
  }

  /** A query lists only transfers that exist. */
  predicate TruthfulLookup(transfers: seq<Transfer>, reply: LookupReply) {
    reply.Listed? ==> forall i :: 0 <= i < |reply.items| ==> reply.items[i] in transfers
  }

  /** A create is accepted only when it admits a transfer. */
  predicate TruthfulCreate(transfers: seq<Transfer>, command: TransferCommand, o: CreateOutcome) {
    o.reply.Accepted? ==> o.takesEffect && !Holds(transfers, command.external)
  }

  ghost predicate FirstAt(items: seq<Transfer>, external: ExternalId, i: int) {
    0 <= i < |items| && items[i].external == external && forall k :: 0 <= k < i ==> items[k].external != external
  }

  /** The transfer is the first one listed with the external id. */
  ghost predicate FirstListed(items: seq<Transfer>, external: ExternalId, t: Transfer) {
    exists i :: FirstAt(items, external, i) && items[i] == t
  }

  /** The first listed transfer with the external id of the command. */
  function FirstMatch(items: seq<Transfer>, external: ExternalId): (r: Found)
    ensures !r.FindFailed?
    ensures r.FoundTransfer? ==> FirstListed(items, external, r.transfer)
    ensures r.NoTransfer? <==> !Holds(items, external)
  {
    if items == [] then NoTransfer
    else if items[0].external == external then
      assert FirstAt(items, external, 0);
      FoundTransfer(items[0])
    else
      var r := FirstMatch(items[1..], external);
      assert r.FoundTransfer? ==> FirstListed(items, external, r.transfer) by {
        if r.FoundTransfer? {
          var i :| FirstAt(items[1..], external, i) && items[1..][i] == r.transfer;
          assert FirstAt(items, external, i + 1);
        }
      }
      assert r.NoTransfer? ==> !Holds(items, external) by {
        assert Holds(items, external) ==> Holds(items[1..], external) by {
          if Holds(items, external) {
            var i :| 0 <= i < |items| && items[i].external == external;
            assert items[1..][i - 1].external == external;
          }
        }
      }
      r
  }

  function Find(reply: LookupReply, external: ExternalId): Found {
    match reply
    case Listed(items) => FirstMatch(items, external)
    case LookupRaised(error) => FindFailed(RaiseProvider(error, false))
  }

  /** What each provider call of one worker pass answers. */
  datatype Answers = Answers(first: LookupReply, create: CreateOutcome, afterRefusal: LookupReply, last: LookupReply)

  class Provider {
    var transfers: seq<Transfer>

    constructor ()
      ensures transfers == []
    {
      transfers := [];
    }

    method CreateTransfer(command: TransferCommand, o: CreateOutcome) returns (reply: CreateReply)
      modifies this
      ensures transfers == Admit(old(transfers), command, o) && reply == o.reply
    {
      if o.takesEffect && !exists i :: 0 <= i < |transfers| && transfers[i].external == command.external {
        transfers := transfers + [Transfer(o.id, command.external, command.amount, o.status)];
      }
      return o.reply;
    }
  }

  class StarkBankClient {
    const provider: Provider

    constructor (provider: Provider)
      ensures this.provider == provider
    {
      this.provider := provider;
    }

    method FindTransfer(command: TransferCommand, reply: LookupReply) returns (r: Found)
      ensures r == Find(reply, command.external)
    {
      match reply
      case LookupRaised(error) =>
        return FindFailed(RaiseProvider(error, false));
      case Listed(items) =>
        var i := 0;
        while i < |items|
          invariant 0 <= i <= |items|
          invariant FirstMatch(items, command.external) == FirstMatch(items[i..], command.external)
        {
          if items[i].external == command.external {
            return FoundTransfer(items[i]);
          }
          assert items[i..][1..] == items[i + 1..];
          i := i + 1;
        }
        return NoTransfer;
    }

    /** Looks the transfer up, creates it when it is not there, and looks again when the create is refused.
        Never a second transfer; a transfer handed back carries the external id of the command. */
    method EnsureTransfer(command: TransferCommand, answers: Answers) returns (r: Ensured)
      modifies provider
      ensures var found := Find(answers.first, command.external);
              provider.transfers == (if found.NoTransfer? then Admit(old(provider.transfers), command, answers.create)
                                     else old(provider.transfers))
      ensures r == EnsureResult(command, answers)
    {
      var existing := FindTransfer(command, answers.first);
      if existing.FindFailed? {
        return EnsureFailed(existing.error);
      }
      if existing.FoundTransfer? {
        return EnsuredTransfer(existing.transfer);
      }
      var reply := provider.CreateTransfer(command, answers.create);
      if reply.EmptyReply? {
        return EnsureFailed(TimeoutError);
      }
      if reply.CreateRaised? && reply.error.InputErrors? {
        var reconciled := FindTransfer(command, answers.afterRefusal);
        if reconciled.FindFailed? {
          return EnsureFailed(reconciled.error);
        }
        if reconciled.FoundTransfer? {
          return EnsuredTransfer(reconciled.transfer);
        }
        return EnsureFailed(PermanentError);
      }
      if reply.CreateRaised? {
        return EnsureFailed(RaiseProvider(reply.error, true));
      }
      return EnsuredTransfer(Transfer(answers.create.id, command.external, command.amount, answers.create.status));
    }
  }

  /** The result of `EnsureTransfer` as a function of the answers it meets. */
  function EnsureResult(command: TransferCommand, answers: Answers): Ensured {
    match Find(answers.first, command.external)
    case FindFailed(error) => EnsureFailed(error)
    case FoundTransfer(t) => EnsuredTransfer(t)
    case NoTransfer =>
      match answers.create.reply
      case Accepted => EnsuredTransfer(Transfer(answers.create.id, command.external, command.amount,
                                                answers.create.status))
      case EmptyReply => EnsureFailed(TimeoutError)
      case CreateRaised(error) =>
        if !error.InputErrors? then EnsureFailed(RaiseProvider(error, true))
        else
          match Find(answers.afterRefusal, command.external)
          case FindFailed(e) => EnsureFailed(e)
          case FoundTransfer(t) => EnsuredTransfer(t)
          case NoTransfer => EnsureFailed(PermanentError)
  }
}
