/**
 * The store as the handlers see it: a ledger object whose helpers read and
 * update the transaction table and the users table in place. Each helper is
 * specified by the corresponding function on the Store value.
 */
module Database {
  import opened Wrappers
  import opened Tables

  class Ledger {
    var txns: map<PaycomId, Txn>
    var accounts: map<UserId, Account>
    var nextId: nat

    /** The tables as a value. */
    function State(): Store
      reads this
    {
      Store(txns, accounts, nextId)
    }

    ghost predicate Valid()
      reads this
    {
      State().Valid()
    }

    /** An empty transaction table over the given users. */
    constructor (users: map<UserId, Account>)
      ensures Valid()
      ensures State() == Store(map[], users, 0)
    {
      txns := map[];
      accounts := users;
      nextId := 0;
    }

    /** `get_user`: whether the user has a row. */
    method GetUser(u: UserId) returns (found: bool)
      ensures found <==> u in accounts
    {
      found := u in accounts;
    }

    /** `get_transaction_by_paycom_id`: the row under a gateway id, if any. */
    method GetTransactionByPaycomId(p: PaycomId) returns (t: Option<Txn>)
      ensures t.Some? <==> p in txns
      ensures t.Some? ==> t.value == txns[p]
    {
      if p in txns {
        t := Some(txns[p]);
      } else {
        t := None;
      }
    }

    /**
     * `create_transaction`: inserts a pending row and returns its internal
     * id; a gateway id already present violates the table's uniqueness and
     * inserts nothing.
     */
    method CreateTransaction(p: PaycomId, u: UserId, amount: int, uses: int, createTime: int)
      returns (id: Option<nat>)
      requires Valid()
      modifies this
      ensures Valid()
      ensures p in old(txns) ==> id.None? && State() == old(State())
      ensures p !in old(txns) ==>
                id == Some(old(nextId)) && State() == Insert(old(State()), p, u, amount, uses, createTime)
    {
      if p in txns {
        return None;
      }
      id := Some(nextId);
      txns := txns[p := Txn(nextId, u, amount, uses, Pending, createTime, 0, 0, None)];
      nextId := nextId + 1;
    }

    /** `update_transaction_status`. */
    method UpdateTransactionStatus(p: PaycomId, state: TxnState, performTime: Change<int>,
                                   cancelTime: Change<int>, reason: Change<Option<int>>)
      requires Valid()
      modifies this
      ensures Valid()
      ensures State() == UpdateStatus(old(State()), p, state, performTime, cancelTime, reason)
    {
      if p in txns {
        var t := txns[p];
        txns := txns[p := t.(state := state, performTime := performTime.Apply(t.performTime),
                             cancelTime := cancelTime.Apply(t.cancelTime), reason := reason.Apply(t.reason))];
      }
    }

    /** `add_purchased_uses`. */
    method AddPurchasedUses(u: UserId, n: int)
      requires Valid()
      modifies this
      ensures Valid()
      ensures State() == Tables.AddPurchasedUses(old(State()), u, n)
    {
      if u in accounts {
        var a := accounts[u];
        accounts := accounts[u := a.(purchasedUses := a.purchasedUses + n)];
      }
    }

    /** `get_free_uses_left`. */
    method GetFreeUsesLeft(u: UserId) returns (n: int)
      requires u in accounts
      ensures n == accounts[u].freeUses
    {
      n := accounts[u].freeUses;
    }

    /** `get_purchased_uses`. */
    method GetPurchasedUses(u: UserId) returns (n: int)
      requires u in accounts
      ensures n == accounts[u].purchasedUses
    {
      n := accounts[u].purchasedUses;
    }

    /** `decrement_free_uses`. */
    method DecrementFreeUses(u: UserId)
      requires u in accounts
      modifies this
      ensures txns == old(txns) && nextId == old(nextId)
      ensures accounts == old(accounts)[u := old(accounts[u]).(freeUses := old(accounts[u]).freeUses - 1)]
    {
      var a := accounts[u];
      accounts := accounts[u := a.(freeUses := a.freeUses - 1)];
    }

    /** `decrement_purchased_uses`. */
    method DecrementPurchasedUses(u: UserId)
      requires u in accounts
      modifies this
      ensures txns == old(txns) && nextId == old(nextId)
      ensures accounts == old(accounts)[u := old(accounts[u]).(purchasedUses := old(accounts[u]).purchasedUses - 1)]
    {
      var a := accounts[u];
      accounts := accounts[u := a.(purchasedUses := a.purchasedUses - 1)];
    }
  }
}
