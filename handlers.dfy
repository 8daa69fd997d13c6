/**
 * The merchant callback handlers of paycom_handlers.py as methods over the
 * ledger. Each store call is preceded by a test of the fault input: a call
 * that raises ends the handler in its exception branch, with the code that
 * handler uses for unexpected failures.
 */
module PaycomHandlers {
  import opened Wrappers
  import opened Tables
  import opened Engine
  import opened Database

  /** CheckTransaction: echoes the stored row; changes nothing. */
  method HandleCheckTransactionStatus(ledger: Ledger, p: PaycomId, fault: Fault) returns (r: Response)
    ensures r == Status(ledger.State(), p, fault).response
  {
    if fault.Raises(0) {
      return ErrorBody(OperationFailed, fault.message);
    }
    var found := ledger.GetTransactionByPaycomId(p);
    if found.None? {
      return ErrorBody(TransactionNotFound, "Transaction not found");
    }
    var t := found.value;
    r := ResultBody(StatusOf(t.createTime, t.performTime, t.cancelTime, t.id, t.state.Code(),
                             ReportedReason(t.reason)));
  }

  /** CheckPerformTransaction: allows a known user and an unused gateway id; changes nothing. */
  method HandleCheckTransaction(ledger: Ledger, userId: Param<UserId>, p: PaycomId, fault: Fault)
    returns (r: Response)
    ensures r == CheckPerform(ledger.State(), userId, p, fault).response
  {
    if userId.Malformed? {
      return ErrorBody(OperationFailed, userId.message);
    }
    if fault.Raises(0) {
      return ErrorBody(OperationFailed, fault.message);
    }
    var known := ledger.GetUser(userId.value);
    if !known {
      return ErrorBody(UserNotFound, "User not found");
    }
    if fault.Raises(1) {
      return ErrorBody(OperationFailed, fault.message);
    }
    var existing := ledger.GetTransactionByPaycomId(p);
    if existing.Some? {
      return ErrorBody(TransactionExists, "Transaction already exists");
    }
    r := ResultBody(Allow(true));
  }

  /** CreateTransaction. */
  method HandleCreateTransaction(ledger: Ledger, userId: Param<UserId>, amount: Param<int>, time: int,
                                 p: PaycomId, fault: Fault) returns (r: Response)
    requires ledger.Valid()
    modifies ledger
    ensures ledger.Valid()
    ensures ledger.State() == Create(old(ledger.State()), userId, amount, time, p, fault).store
    ensures r == Create(old(ledger.State()), userId, amount, time, p, fault).response
  {
    if userId.Malformed? {
      return ErrorBody(CreateFailed, userId.message);
    }
    if fault.Raises(0) {
      return ErrorBody(CreateFailed, fault.message);
    }
    var known := ledger.GetUser(userId.value);
    if !known {
      return ErrorBody(UserNotFound, "User not found");
    }
    if fault.Raises(1) {
      return ErrorBody(CreateFailed, fault.message);
    }
    var existing := ledger.GetTransactionByPaycomId(p);
    if existing.Some? {
      var t := existing.value;
      return ResultBody(Created(t.createTime, t.id, t.state.Code()));
    }
    if amount.Malformed? {
      return ErrorBody(CreateFailed, amount.message);
    }
    var uses := CallbackUses(amount.value);
    if fault.Raises(2) {
      return ErrorBody(CreateFailed, fault.message);
    }
    var id := ledger.CreateTransaction(p, userId.value, amount.value, uses, time);
    r := ResultBody(Created(time, id.value, 1));
  }

  /**
   * PerformTransaction, as written: the status write and the credit are two
   * store calls, so a credit call that raises leaves the row paid and
   * uncredited (see Engine.PerformAsWritten; Engine.Perform is the atomic
   * correction).
   */
  method HandlePerformTransaction(ledger: Ledger, p: PaycomId, now: int, fault: Fault) returns (r: Response)
    requires ledger.Valid()
    modifies ledger
    ensures ledger.Valid()
    ensures ledger.State() == PerformAsWritten(old(ledger.State()), p, now, fault).store
    ensures r == PerformAsWritten(old(ledger.State()), p, now, fault).response
  {
    if fault.Raises(0) {
      return ErrorBody(OperationFailed, fault.message);
    }
    var found := ledger.GetTransactionByPaycomId(p);
    if found.None? {
      return ErrorBody(TransactionNotFound, "Transaction not found");
    }
    var t := found.value;
    if t.state == Paid {
      return ResultBody(Performed(t.id, t.performTime, 2));
    }
    if fault.Raises(1) {
      return ErrorBody(OperationFailed, fault.message);
    }
    ledger.UpdateTransactionStatus(p, Paid, Set(now), Set(0), Keep);
    if fault.Raises(2) {
      return ErrorBody(OperationFailed, fault.message);
    }
    ledger.AddPurchasedUses(t.userId, t.uses);
    r := ResultBody(Performed(t.id, now, 2));
  }

  /** CancelTransaction. */
  method HandleCancelTransaction(ledger: Ledger, p: PaycomId, reason: Option<int>, now: int, fault: Fault)
    returns (r: Response)
    requires ledger.Valid()
    modifies ledger
    ensures ledger.Valid()
    ensures ledger.State() == Cancel(old(ledger.State()), p, reason, now, fault).store
    ensures r == Cancel(old(ledger.State()), p, reason, now, fault).response
  {
    if fault.Raises(0) {
      return ErrorBody(OperationFailed, fault.message);
    }
    var found := ledger.GetTransactionByPaycomId(p);
    if found.None? {
      return ErrorBody(TransactionNotFound, "Transaction not found");
    }
    if fault.Raises(1) {
      return ErrorBody(OperationFailed, fault.message);
    }
    ledger.UpdateTransactionStatus(p, Cancelled, Set(0), Set(now), Set(reason));
    r := ResultBody(CancelledAt(found.value.id, now, -1));
  }
}
