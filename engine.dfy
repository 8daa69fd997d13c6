/**
 * What each merchant callback of paycom_handlers.py does to the store and
 * answers, as functions from the store before the call to the store after it
 * and the response body. The handler methods in PaycomHandlers are proved to
 * compute exactly these. The lemmas about sequences of callbacks are in
 * EngineLaws; the one lemma here compares the callback's pricing with the
 * bundle table.
 */
module Engine {
  import opened Wrappers
  import opened Tables
  import Pricing

  // Error codes of the merchant protocol, as the handlers send them.
  const CreateFailed: int := -31001
  const TransactionNotFound: int := -31003
  const OperationFailed: int := -31008
  const UserNotFound: int := -31050
  const TransactionExists: int := -31051

  /**
   * A request parameter after conversion: the value, or the message of the
   * exception the conversion raises (`int(None)`, `None // 100000`).
   */
  datatype Param<T> = Given(value: T) | Malformed(message: string)

  /**
   * Whether a store call raises: `RaisesAt(k, m)` makes the k-th store call
   * of the handler (counting from 0, in the order the handler makes them)
   * raise an exception whose text is `m`.
   */
  datatype Fault = Healthy | RaisesAt(call: nat, message: string) {
    predicate Raises(k: nat) {
      RaisesAt? && call == k
    }
  }

  /** The `result` objects of the five callbacks. */
  datatype Reply =
    | Allow(allow: bool)
    | Created(createTime: int, transaction: nat, state: int)
    | Performed(transaction: nat, performTime: int, state: int)
    | CancelledAt(transaction: nat, cancelTime: int, state: int)
    | StatusOf(createTime: int, performTime: int, cancelTime: int, transaction: nat,
               state: int, reason: Option<int>)

  /** A response body: `{result: ...}` or `{error: {code, message}}`. */
  datatype Response = ResultBody(result: Reply) | ErrorBody(code: int, message: string)

  /** A callback's effect: the store after it and the body it answers with. */
  datatype Step = Step(store: Store, response: Response)

  /** Uses granted by the CreateTransaction callback: Python's `amount // 100000`. */
  function CallbackUses(amount: int): int {
    amount / Pricing.TiyinPerUse   // floor division, as Python's // for a positive divisor
  }

  /** The CreateTransaction callback prices linearly, so it disagrees with the bundle table only at 16000 sum. */
  lemma CallbackPricingVersusTable(amount: int)
    requires amount >= 0
    ensures CallbackUses(amount) == Pricing.CalculateUses(amount) <==> amount != 1600000
  {
    if amount != 1600000 {
      Pricing.LinearRateOffTopBundle(amount);
    }
  }

  /** `handle_check_transaction` (CheckPerformTransaction): a pure read. */
  function CheckPerform(s: Store, userId: Param<UserId>, p: PaycomId, fault: Fault): (r: Step)
    ensures r.store == s
    ensures r.response == ResultBody(Allow(true)) <==>
              userId.Given? && !fault.Raises(0) && !fault.Raises(1) &&
              userId.value in s.accounts && p !in s.txns
    ensures r.response == ErrorBody(UserNotFound, "User not found") <==>
              userId.Given? && !fault.Raises(0) && userId.value !in s.accounts
    ensures r.response == ErrorBody(TransactionExists, "Transaction already exists") <==>
              userId.Given? && !fault.Raises(0) && !fault.Raises(1) &&
              userId.value in s.accounts && p in s.txns
    ensures r.response.ErrorBody? ==> r.response.code in {OperationFailed, UserNotFound, TransactionExists}
    ensures userId.Malformed? || fault.Raises(0) || (userId.value in s.accounts && fault.Raises(1)) ==>
              r.response.ErrorBody? && r.response.code == OperationFailed
  {
    if userId.Malformed? then Step(s, ErrorBody(OperationFailed, userId.message))
    else if fault.Raises(0) then Step(s, ErrorBody(OperationFailed, fault.message))
    else if userId.value !in s.accounts then Step(s, ErrorBody(UserNotFound, "User not found"))
    else if fault.Raises(1) then Step(s, ErrorBody(OperationFailed, fault.message))
    else if p in s.txns then Step(s, ErrorBody(TransactionExists, "Transaction already exists"))
    else Step(s, ResultBody(Allow(true)))
  }

  /**
   * `handle_create_transaction`: an unknown user is refused; a known gateway
   * id answers with the stored row; otherwise one pending row is added.
   */
  function Create(s: Store, userId: Param<UserId>, amount: Param<int>, time: int, p: PaycomId,
                  fault: Fault): (r: Step)
    ensures r.response.ErrorBody? ==> r.store == s
    ensures r.response.ErrorBody? ==> r.response.code in {CreateFailed, UserNotFound}
    ensures userId.Malformed? || fault.Raises(0) ||
            (userId.value in s.accounts &&
             (fault.Raises(1) || (p !in s.txns && (amount.Malformed? || fault.Raises(2))))) ==>
              r.response.ErrorBody? && r.response.code == CreateFailed
    ensures r.response == ErrorBody(UserNotFound, "User not found") <==>
              userId.Given? && !fault.Raises(0) && userId.value !in s.accounts
    ensures p in s.txns ==> r.store == s
    ensures r.store.accounts == s.accounts
    ensures userId.Given? && !fault.Raises(0) && !fault.Raises(1) && userId.value in s.accounts && p in s.txns ==>
              r.response == ResultBody(Created(s.txns[p].createTime, s.txns[p].id, s.txns[p].state.Code()))
    ensures userId.Given? && amount.Given? && !fault.Raises(0) && !fault.Raises(1) && !fault.Raises(2) &&
            userId.value in s.accounts && p !in s.txns ==>
              r.store != s
    ensures r.store != s ==>
              && p !in s.txns && userId.Given? && amount.Given?
              && r.store == Insert(s, p, userId.value, amount.value, CallbackUses(amount.value), time)
              && r.response == ResultBody(Created(time, s.nextId, Pending.Code()))
    ensures s.Valid() ==> r.store.Valid()
  {
    if userId.Malformed? then Step(s, ErrorBody(CreateFailed, userId.message))
    else if fault.Raises(0) then Step(s, ErrorBody(CreateFailed, fault.message))
    else if userId.value !in s.accounts then Step(s, ErrorBody(UserNotFound, "User not found"))
    else if fault.Raises(1) then Step(s, ErrorBody(CreateFailed, fault.message))
    else if p in s.txns then
      var t := s.txns[p];
      Step(s, ResultBody(Created(t.createTime, t.id, t.state.Code())))
    else if amount.Malformed? then Step(s, ErrorBody(CreateFailed, amount.message))
    else if fault.Raises(2) then Step(s, ErrorBody(CreateFailed, fault.message))
    else
      Step(Insert(s, p, userId.value, amount.value, CallbackUses(amount.value), time),
           ResultBody(Created(time, s.nextId, 1)))
  }

  /** A perform attempt gets past every store call it makes. */
  predicate Succeeds(fault: Fault) {
    !fault.Raises(0) && !fault.Raises(1) && !fault.Raises(2)
  }

  /**
   * `handle_perform_transaction`, with the status write and the credit as one
   * unit: a failure of either leaves the store as it was. A row already paid
   * answers with its stored perform time and is not credited again.
   */
  function Perform(s: Store, p: PaycomId, now: int, fault: Fault): (r: Step)
    ensures r.response.ErrorBody? ==> r.store == s
    ensures r.response.ErrorBody? ==> r.response.code in {OperationFailed, TransactionNotFound}
    ensures fault.Raises(0) || (p in s.txns && s.txns[p].state != Paid && !Succeeds(fault)) ==>
              r.response.ErrorBody? && r.response.code == OperationFailed
    ensures r.response == ErrorBody(TransactionNotFound, "Transaction not found") <==>
              !fault.Raises(0) && p !in s.txns
    ensures r.store.txns.Keys == s.txns.Keys && r.store.nextId == s.nextId
    ensures p in s.txns && s.txns[p].state == Paid ==> r.store == s
    ensures s.Valid() ==> r.store.Valid()
  {
    if fault.Raises(0) then Step(s, ErrorBody(OperationFailed, fault.message))
    else if p !in s.txns then Step(s, ErrorBody(TransactionNotFound, "Transaction not found"))
    else
      var t := s.txns[p];
      if t.state == Paid then Step(s, ResultBody(Performed(t.id, t.performTime, 2)))
      else if fault.Raises(1) || fault.Raises(2) then Step(s, ErrorBody(OperationFailed, fault.message))
      else
        var paid := UpdateStatus(s, p, Paid, Set(now), Set(0), Keep);
        Step(AddPurchasedUses(paid, t.userId, t.uses), ResultBody(Performed(t.id, now, 2)))
  }

  /**
   * `handle_perform_transaction` as written: the status write and the credit
   * are two separate store calls, so when the credit call raises the row
   * stays paid without the credit.
   */
  function PerformAsWritten(s: Store, p: PaycomId, now: int, fault: Fault): (r: Step)
    ensures r.store.txns.Keys == s.txns.Keys && r.store.nextId == s.nextId
    ensures !(fault.Raises(2) && p in s.txns && s.txns[p].state != Paid) ==> r == Perform(s, p, now, fault)
    ensures fault.Raises(2) && p in s.txns && s.txns[p].state != Paid ==>
              && r.store == UpdateStatus(s, p, Paid, Set(now), Set(0), Keep)
              && r.response == ErrorBody(OperationFailed, fault.message)
    ensures s.Valid() ==> r.store.Valid()
  {
    if fault.Raises(0) then Step(s, ErrorBody(OperationFailed, fault.message))
    else if p !in s.txns then Step(s, ErrorBody(TransactionNotFound, "Transaction not found"))
    else
      var t := s.txns[p];
      if t.state == Paid then Step(s, ResultBody(Performed(t.id, t.performTime, 2)))
      else if fault.Raises(1) then Step(s, ErrorBody(OperationFailed, fault.message))
      else
        var paid := UpdateStatus(s, p, Paid, Set(now), Set(0), Keep);
        if fault.Raises(2) then Step(paid, ErrorBody(OperationFailed, fault.message))
        else Step(AddPurchasedUses(paid, t.userId, t.uses), ResultBody(Performed(t.id, now, 2)))
  }

  /**
   * `handle_cancel_transaction`: marks any known row cancelled, clears its
   * perform time and stores the reason. No account is touched, a paid row
   * included: the credit is not reversed.
   */
  function Cancel(s: Store, p: PaycomId, reason: Option<int>, now: int, fault: Fault): (r: Step)
    ensures r.store.accounts == s.accounts
    ensures r.response.ErrorBody? ==> r.store == s
    ensures r.response.ErrorBody? ==> r.response.code in {OperationFailed, TransactionNotFound}
    ensures fault.Raises(0) || (p in s.txns && fault.Raises(1)) ==>
              r.response.ErrorBody? && r.response.code == OperationFailed
    ensures r.response == ErrorBody(TransactionNotFound, "Transaction not found") <==>
              !fault.Raises(0) && p !in s.txns
    ensures r.store.txns.Keys == s.txns.Keys && r.store.nextId == s.nextId
    ensures s.Valid() ==> r.store.Valid()
  {
    if fault.Raises(0) then Step(s, ErrorBody(OperationFailed, fault.message))
    else if p !in s.txns then Step(s, ErrorBody(TransactionNotFound, "Transaction not found"))
    else if fault.Raises(1) then Step(s, ErrorBody(OperationFailed, fault.message))
    else
      var t := s.txns[p];
      Step(UpdateStatus(s, p, Cancelled, Set(0), Set(now), Set(reason)),
           ResultBody(CancelledAt(t.id, now, -1)))
  }

  /** The reason reported by CheckTransaction: null when unset or 0 (falsy in Python). */
  function ReportedReason(reason: Option<int>): (r: Option<int>)
    ensures r.None? <==> reason.None? || reason.value == 0
    ensures r.Some? ==> r == reason
  {
    if reason.Some? && reason.value != 0 then reason else None
  }

  /** `handle_check_transaction_status` (CheckTransaction): a pure read echoing the stored row. */
  function Status(s: Store, p: PaycomId, fault: Fault): (r: Step)
    ensures r.store == s
    ensures r.response.ResultBody? <==> !fault.Raises(0) && p in s.txns
    ensures r.response.ErrorBody? ==>
              r.response.code == (if fault.Raises(0) then OperationFailed else TransactionNotFound)
    ensures r.response.ResultBody? ==>
              var t := s.txns[p];
              r.response.result == StatusOf(t.createTime, t.performTime, t.cancelTime, t.id,
                                            t.state.Code(), ReportedReason(t.reason))
  {
    if fault.Raises(0) then Step(s, ErrorBody(OperationFailed, fault.message))
    else if p !in s.txns then Step(s, ErrorBody(TransactionNotFound, "Transaction not found"))
    else
      var t := s.txns[p];
      Step(s, ResultBody(StatusOf(t.createTime, t.performTime, t.cancelTime, t.id,
                                  t.state.Code(), ReportedReason(t.reason))))
  }
}
