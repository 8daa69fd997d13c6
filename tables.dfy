/**
 * The persisted state the payment code works on, as a value: the transaction
 * table keyed by the gateway's id and the users table with its use counters,
 * plus the counter that assigns internal transaction ids. The functions here
 * are the effects of the transaction and credit helpers the handlers call
 * (`create_transaction`, `update_transaction_status`, `add_purchased_uses`).
 * The reads and the two use-counter decrements are specified directly on
 * the maps by the methods of `Database.Ledger`.
 */
module Tables {
  import opened Wrappers

  type UserId = int
  type PaycomId = string

  /** Local transaction states, with the numbers the handlers report. */
  datatype TxnState = Pending | Paid | Cancelled | Failed {
    function Code(): int {
      match this
      case Pending => 1
      case Paid => 2
      case Cancelled => -1
      case Failed => -2
    }
  }

  /** A row of the transaction table, by name instead of by tuple index. */
  datatype Txn = Txn(
    id: nat,               // [0] internal id
    userId: UserId,        // [4] owning user
    amount: int,           // amount in tiyin
    uses: int,             // [6] uses granted when paid
    state: TxnState,       // [3]
    createTime: int,       // [7]
    performTime: int,      // [8] 0 until performed
    cancelTime: int,       // [9] 0 until cancelled
    reason: Option<int>)   // [10] cancel reason, null until set

  /** A user's use counters. */
  datatype Account = Account(freeUses: int, purchasedUses: int) {
    function Total(): int { freeUses + purchasedUses }
  }

  /** An optional keyword argument of an update: a column left as it is, or set. */
  datatype Change<T> = Keep | Set(value: T) {
    function Apply(current: T): T {
      if Set? then value else current
    }
  }

  datatype Store = Store(txns: map<PaycomId, Txn>, accounts: map<UserId, Account>, nextId: nat) {
    /** Internal ids are below the next one to hand out, and no two rows share one. */
    ghost predicate Valid() {
      && (forall p :: p in txns ==> txns[p].id < nextId)
      && (forall p, q :: p in txns && q in txns && txns[p].id == txns[q].id ==> p == q)
    }
  }

  /** A user's purchased uses, 0 for an unknown user. */
  function Purchased(s: Store, u: UserId): int {
    if u in s.accounts then s.accounts[u].purchasedUses else 0
  }

  /** `create_transaction`: a new pending row under a fresh internal id. */
  function Insert(s: Store, p: PaycomId, user: UserId, amount: int, uses: int, createTime: int): (r: Store)
    requires p !in s.txns
    ensures r.txns.Keys == s.txns.Keys + {p}
    ensures forall q :: q in s.txns ==> r.txns[q] == s.txns[q]
    ensures r.txns[p] == Txn(s.nextId, user, amount, uses, Pending, createTime, 0, 0, None)
    ensures r.accounts == s.accounts && r.nextId == s.nextId + 1
    ensures s.Valid() ==> r.Valid()
  {
    Store(s.txns[p := Txn(s.nextId, user, amount, uses, Pending, createTime, 0, 0, None)],
          s.accounts, s.nextId + 1)
  }

  /**
   * `update_transaction_status`: sets the state and the columns given; an
   * unknown id matches no row and changes nothing.
   */
  function UpdateStatus(s: Store, p: PaycomId, state: TxnState, performTime: Change<int>,
                        cancelTime: Change<int>, reason: Change<Option<int>>): (r: Store)
    ensures r.accounts == s.accounts && r.nextId == s.nextId
    ensures r.txns.Keys == s.txns.Keys
    ensures forall q :: q in s.txns && q != p ==> r.txns[q] == s.txns[q]
    ensures p in s.txns ==>
              var t := s.txns[p];
              r.txns[p] == t.(state := state, performTime := performTime.Apply(t.performTime),
                              cancelTime := cancelTime.Apply(t.cancelTime), reason := reason.Apply(t.reason))
    ensures p !in s.txns ==> r == s
    ensures s.Valid() ==> r.Valid()
  {
    if p !in s.txns then s
    else
      var t := s.txns[p];
      var t' := t.(state := state, performTime := performTime.Apply(t.performTime),
                   cancelTime := cancelTime.Apply(t.cancelTime), reason := reason.Apply(t.reason));
      s.(txns := s.txns[p := t'])
  }

  /**
   * `add_purchased_uses`: adds `n` to one user's purchased uses; an unknown
   * user matches no row and changes nothing.
   */
  function AddPurchasedUses(s: Store, u: UserId, n: int): (r: Store)
    ensures r.txns == s.txns && r.nextId == s.nextId
    ensures r.accounts.Keys == s.accounts.Keys
    ensures forall v :: v in s.accounts && v != u ==> r.accounts[v] == s.accounts[v]
    ensures u in s.accounts ==>
              r.accounts[u].purchasedUses == s.accounts[u].purchasedUses + n &&
              r.accounts[u].freeUses == s.accounts[u].freeUses
    ensures forall v :: Purchased(r, v) == Purchased(s, v) + (if v == u && u in s.accounts then n else 0)
    ensures s.Valid() ==> r.Valid()
  {
    if u !in s.accounts then s
    else
      var a := s.accounts[u];
      s.(accounts := s.accounts[u := a.(purchasedUses := a.purchasedUses + n)])
  }
}
