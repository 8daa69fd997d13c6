/**
 * The store updates of the outbound gateway client (`create_invoice`,
 * `check_invoice` and `check_transaction` in utils/paycom_integration.py).
 * The HTTP exchange is an input: the parsed reply, or a transport failure.
 * Whether the client's one store call raises is an input too, an
 * `Engine.Fault` whose call 0 is that store call. The client catches only
 * transport exceptions, so a raising store call propagates to its caller
 * with nothing recorded.
 */
module Gateway {
  import opened Wrappers
  import opened Tables
  import opened Database
  import Pricing
  import Engine

  /** Code of the exception raised when the HTTP exchange itself fails. */
  const TransportFailed: int := -1

  /** What one HTTP exchange with the gateway yielded. */
  datatype GatewayReply<T> =
    | TransportFailure                          // a requests exception, HTTP errors included
    | GatewayError(code: int, message: string)  // a reply carrying `error`
    | GatewayResult(result: T)                  // a reply carrying `result`

  /** The `result` of opening an invoice. */
  datatype Invoice = Invoice(invoiceId: PaycomId, paymentUrl: string)

  /** The `result` of an invoice check. */
  datatype InvoiceStatus = InvoiceStatus(state: int)

  /** The `result` of a transaction check; `state` may be absent. */
  datatype RemoteTransaction = RemoteTransaction(state: Option<int>, performTime: int)

  /**
   * Exceptions the client raises: PaycomException, the store refusing a
   * second row for an id, or any other exception of a store call, which the
   * client does not catch.
   */
  datatype Raised =
    | PaycomException(code: int, message: string)
    | DuplicateTransaction(id: PaycomId)
    | StoreFailure(message: string)

  /** A client call's effect: the store after it, and what it returned or raised. */
  datatype Sync<T> = Sync(store: Store, outcome: Result<T, Raised>)

  /** The local state a remote invoice state maps to, if any. */
  function LocalState(remote: int): Option<TxnState> {
    if remote == 2 then Some(Paid)
    else if remote == -1 then Some(Cancelled)
    else if remote == -2 then Some(Failed)
    else None
  }

  /**
   * `create_invoice`: a gateway error or a transport failure raises and
   * records nothing; otherwise exactly one pending row, keyed by the invoice
   * id and priced by the bundle table, is recorded and the id and payment
   * link are returned, unless the store call raises.
   */
  function OpenInvoice(s: Store, amount: int, userId: UserId, reply: GatewayReply<Invoice>, fault: Engine.Fault)
    : (r: Sync<(PaycomId, string)>)
    ensures r.outcome.Failure? ==> r.store == s
    ensures reply.TransportFailure? ==>
              r.outcome == Failure(PaycomException(TransportFailed, "Failed to create invoice"))
    ensures reply.GatewayError? ==> r.outcome == Failure(PaycomException(reply.code, reply.message))
    ensures reply.GatewayResult? && fault.Raises(0) ==> r.outcome == Failure(StoreFailure(fault.message))
    ensures reply.GatewayResult? && !fault.Raises(0) && reply.result.invoiceId in s.txns ==>
              r.outcome == Failure(DuplicateTransaction(reply.result.invoiceId))
    ensures r.outcome.Success? <==> reply.GatewayResult? && !fault.Raises(0) && reply.result.invoiceId !in s.txns
    ensures r.outcome.Success? ==>
              && r.outcome.value == (reply.result.invoiceId, reply.result.paymentUrl)
              && r.store == Insert(s, reply.result.invoiceId, userId, amount, Pricing.CalculateUses(amount), 0)
    ensures s.Valid() ==> r.store.Valid()
  {
    match reply
    case TransportFailure => Sync(s, Failure(PaycomException(TransportFailed, "Failed to create invoice")))
    case GatewayError(code, message) => Sync(s, Failure(PaycomException(code, message)))
    case GatewayResult(invoice) =>
      if fault.Raises(0) then Sync(s, Failure(StoreFailure(fault.message)))
      else if invoice.invoiceId in s.txns then Sync(s, Failure(DuplicateTransaction(invoice.invoiceId)))
      else
        Sync(Insert(s, invoice.invoiceId, userId, amount, Pricing.CalculateUses(amount), 0),
             Success((invoice.invoiceId, invoice.paymentUrl)))
  }

  /**
   * `check_invoice`: remote state 2 marks the local row paid at `now`,
   * -1 cancelled and -2 failed with cancel time `now`; any other state
   * leaves the store alone and makes no store call. It never credits an
   * account, and returns the gateway's result as it came unless the store
   * call raises.
   */
  function SyncInvoice(s: Store, invoiceId: PaycomId, reply: GatewayReply<InvoiceStatus>, now: int,
                       fault: Engine.Fault)
    : (r: Sync<InvoiceStatus>)
    ensures r.store.accounts == s.accounts && r.store.txns.Keys == s.txns.Keys
    ensures r.outcome.Failure? ==> r.store == s
    ensures reply.TransportFailure? ==>
              r.outcome == Failure(PaycomException(TransportFailed, "Failed to check invoice"))
    ensures reply.GatewayError? ==> r.outcome == Failure(PaycomException(reply.code, reply.message))
    ensures reply.GatewayResult? && LocalState(reply.result.state).Some? && fault.Raises(0) ==>
              r.outcome == Failure(StoreFailure(fault.message))
    ensures reply.GatewayResult? && (LocalState(reply.result.state).None? || !fault.Raises(0)) ==>
              r.outcome == Success(reply.result)
    ensures reply.GatewayResult? && LocalState(reply.result.state).None? ==> r.store == s
    ensures r.store.nextId == s.nextId
    ensures invoiceId !in s.txns ==> r.store == s
    ensures reply.GatewayResult? && invoiceId in s.txns && LocalState(reply.result.state).Some? &&
            !fault.Raises(0) ==>
              var t := s.txns[invoiceId];
              var state := LocalState(reply.result.state).value;
              r.store.txns == s.txns[invoiceId :=
                if state == Paid then t.(state := state, performTime := now)
                else t.(state := state, cancelTime := now)]
    ensures s.Valid() ==> r.store.Valid()
  {
    match reply
    case TransportFailure => Sync(s, Failure(PaycomException(TransportFailed, "Failed to check invoice")))
    case GatewayError(code, message) => Sync(s, Failure(PaycomException(code, message)))
    case GatewayResult(status) =>
      if LocalState(status.state).Some? && fault.Raises(0) then Sync(s, Failure(StoreFailure(fault.message)))
      else
        var s' :=
          if status.state == 2 then UpdateStatus(s, invoiceId, Paid, Set(now), Keep, Keep)
          else if status.state == -1 then UpdateStatus(s, invoiceId, Cancelled, Keep, Set(now), Keep)
          else if status.state == -2 then UpdateStatus(s, invoiceId, Failed, Keep, Set(now), Keep)
          else s;
        Sync(s', Success(status))
  }

  /**
   * `check_transaction`: the local row becomes paid, with the remote perform
   * time, exactly when the remote state (0 when absent) is 2 and the store
   * call does not raise. It never credits an account, and returns the
   * gateway's result as it came unless the store call raises.
   */
  function SyncTransaction(s: Store, transactionId: PaycomId, reply: GatewayReply<RemoteTransaction>,
                           fault: Engine.Fault)
    : (r: Sync<RemoteTransaction>)
    ensures r.store.accounts == s.accounts && r.store.txns.Keys == s.txns.Keys
    ensures r.outcome.Failure? ==> r.store == s
    ensures reply.TransportFailure? ==>
              r.outcome == Failure(PaycomException(TransportFailed, "Failed to check transaction"))
    ensures reply.GatewayError? ==> r.outcome == Failure(PaycomException(reply.code, reply.message))
    ensures reply.GatewayResult? && reply.result.state == Some(2) && fault.Raises(0) ==>
              r.outcome == Failure(StoreFailure(fault.message))
    ensures reply.GatewayResult? && (reply.result.state != Some(2) || !fault.Raises(0)) ==>
              r.outcome == Success(reply.result)
    ensures r.store.nextId == s.nextId
    ensures transactionId !in s.txns ==> r.store == s
    ensures r.store != s ==> reply.GatewayResult? && reply.result.state == Some(2) && !fault.Raises(0)
    ensures reply.GatewayResult? && reply.result.state == Some(2) && !fault.Raises(0) && transactionId in s.txns ==>
              r.store.txns == s.txns[transactionId := s.txns[transactionId].(
                                state := Paid, performTime := reply.result.performTime)]
    ensures s.Valid() ==> r.store.Valid()
  {
    match reply
    case TransportFailure => Sync(s, Failure(PaycomException(TransportFailed, "Failed to check transaction")))
    case GatewayError(code, message) => Sync(s, Failure(PaycomException(code, message)))
    case GatewayResult(remote) =>
      var state := if remote.state.Some? then remote.state.value else 0;
      if state == 2 && fault.Raises(0) then Sync(s, Failure(StoreFailure(fault.message)))
      else if state == 2 then
        Sync(UpdateStatus(s, transactionId, Paid, Set(remote.performTime), Keep, Keep), Success(remote))
      else Sync(s, Success(remote))
  }

  /**
   * A payment learnt by polling is never credited: `check_invoice` marks the
   * row paid without a credit, and a later PerformTransaction callback for
   * the same id takes the already-paid branch.
   */
  lemma PolledPaymentIsNeverCredited(s: Store, p: PaycomId, now: int, later: int)
    requires p in s.txns && s.txns[p].state == Pending
    ensures var polled := SyncInvoice(s, p, GatewayResult(InvoiceStatus(2)), now, Engine.Healthy).store;
            var performed := Engine.Perform(polled, p, later, Engine.Healthy);
            && performed.store.txns[p].state == Paid
            && performed.store.accounts == s.accounts
            && performed.response == Engine.ResultBody(Engine.Performed(s.txns[p].id, now, 2))
  {
  }

  /** Likewise for a paid state learnt through `check_transaction`. */
  lemma PolledTransactionIsNeverCredited(s: Store, p: PaycomId, remoteTime: int, later: int)
    requires p in s.txns && s.txns[p].state == Pending
    ensures var polled := SyncTransaction(s, p, GatewayResult(RemoteTransaction(Some(2), remoteTime)), Engine.Healthy).store;
            var performed := Engine.Perform(polled, p, later, Engine.Healthy);
            && performed.store.txns[p].state == Paid
            && performed.store.accounts == s.accounts
            && performed.response == Engine.ResultBody(Engine.Performed(s.txns[p].id, remoteTime, 2))
  {
  }

  /**
   * An invoice the client opened is recognised by the CreateTransaction
   * callback for the same id: the callback answers with the recorded row
   * and adds nothing, so the row keeps the bundle-table price.
   */
  lemma CallbackRecognisesOpenedInvoice(s: Store, amount: int, userId: UserId, invoice: Invoice,
                                        caller: UserId, callbackAmount: int, time: int)
    requires invoice.invoiceId !in s.txns && caller in s.accounts
    ensures var recorded := OpenInvoice(s, amount, userId, GatewayResult(invoice), Engine.Healthy).store;
            var callback := Engine.Create(recorded, Engine.Given(caller), Engine.Given(callbackAmount), time,
                                          invoice.invoiceId, Engine.Healthy);
            && callback.store == recorded
            && callback.response == Engine.ResultBody(Engine.Created(0, s.nextId, 1))
            && recorded.txns[invoice.invoiceId].uses == Pricing.CalculateUses(amount)
  {
  }

  /** `create_invoice`: records what the gateway opened, or raises and records nothing. */
  method CreateInvoice(ledger: Ledger, amount: int, userId: UserId, reply: GatewayReply<Invoice>, fault: Engine.Fault)
    returns (r: Result<(PaycomId, string), Raised>)
    requires ledger.Valid()
    modifies ledger
    ensures ledger.Valid()
    ensures ledger.State() == OpenInvoice(old(ledger.State()), amount, userId, reply, fault).store
    ensures r == OpenInvoice(old(ledger.State()), amount, userId, reply, fault).outcome
  {
    var uses := Pricing.CalculateUses(amount);
    match reply
    case TransportFailure =>
      return Failure(PaycomException(TransportFailed, "Failed to create invoice"));
    case GatewayError(code, message) =>
      return Failure(PaycomException(code, message));
    case GatewayResult(invoice) =>
      if fault.Raises(0) {
        return Failure(StoreFailure(fault.message));
      }
      var id := ledger.CreateTransaction(invoice.invoiceId, userId, amount, uses, 0);
      if id.None? {
        return Failure(DuplicateTransaction(invoice.invoiceId));
      }
      r := Success((invoice.invoiceId, invoice.paymentUrl));
  }

  /** `check_invoice`. */
  method CheckInvoice(ledger: Ledger, invoiceId: PaycomId, reply: GatewayReply<InvoiceStatus>, now: int,
                      fault: Engine.Fault)
    returns (r: Result<InvoiceStatus, Raised>)
    requires ledger.Valid()
    modifies ledger
    ensures ledger.Valid()
    ensures ledger.State() == SyncInvoice(old(ledger.State()), invoiceId, reply, now, fault).store
    ensures r == SyncInvoice(old(ledger.State()), invoiceId, reply, now, fault).outcome
  {
    match reply
    case TransportFailure =>
      return Failure(PaycomException(TransportFailed, "Failed to check invoice"));
    case GatewayError(code, message) =>
      return Failure(PaycomException(code, message));
    case GatewayResult(status) =>
      if LocalState(status.state).Some? && fault.Raises(0) {
        return Failure(StoreFailure(fault.message));
      }
      if status.state == 2 {
        ledger.UpdateTransactionStatus(invoiceId, Paid, Set(now), Keep, Keep);
      } else if status.state == -1 {
        ledger.UpdateTransactionStatus(invoiceId, Cancelled, Keep, Set(now), Keep);
      } else if status.state == -2 {
        ledger.UpdateTransactionStatus(invoiceId, Failed, Keep, Set(now), Keep);
      }
      r := Success(status);
  }

  /** `check_transaction`. */
  method CheckTransaction(ledger: Ledger, transactionId: PaycomId, reply: GatewayReply<RemoteTransaction>,
                          fault: Engine.Fault)
    returns (r: Result<RemoteTransaction, Raised>)
    requires ledger.Valid()
    modifies ledger
    ensures ledger.Valid()
    ensures ledger.State() == SyncTransaction(old(ledger.State()), transactionId, reply, fault).store
    ensures r == SyncTransaction(old(ledger.State()), transactionId, reply, fault).outcome
  {
    match reply
    case TransportFailure =>
      return Failure(PaycomException(TransportFailed, "Failed to check transaction"));
    case GatewayError(code, message) =>
      return Failure(PaycomException(code, message));
    case GatewayResult(remote) =>
      var state := if remote.state.Some? then remote.state.value else 0;
      if state == 2 && fault.Raises(0) {
        return Failure(StoreFailure(fault.message));
      }
      if state == 2 {
        ledger.UpdateTransactionStatus(transactionId, Paid, Set(remote.performTime), Keep, Keep);
      }
      r := Success(remote);
  }
}
