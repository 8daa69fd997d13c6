/**
 * Spending one use of the evaluation feature (`check_and_decrement_uses` in
 * utils/usage_utils.py): a free use goes first, a purchased use only when no
 * free use is left.
 */
module Usage {
  import opened Tables
  import opened Database

  /** The outcome of one spend on an account: whether a use was granted, and the counters after it. */
  function SpendUse(a: Account): (r: (bool, Account))
    ensures r.0 <==> a.freeUses > 0 || a.purchasedUses > 0
    ensures r.1.Total() == a.Total() - (if r.0 then 1 else 0)
    ensures a.freeUses > 0 ==> r.1.purchasedUses == a.purchasedUses
    ensures a.freeUses <= 0 ==> r.1.freeUses == a.freeUses
    ensures !r.0 ==> r.1 == a
    ensures a.freeUses >= 0 && a.purchasedUses >= 0 ==> r.1.freeUses >= 0 && r.1.purchasedUses >= 0
  {
    if a.freeUses > 0 then (true, a.(freeUses := a.freeUses - 1))
    else if a.purchasedUses > 0 then (true, a.(purchasedUses := a.purchasedUses - 1))
    else (false, a)
  }

  /** `check_and_decrement_uses`: spends one use of a known user's account. */
  method CheckAndDecrementUses(ledger: Ledger, u: UserId) returns (ok: bool)
    requires u in ledger.accounts
    modifies ledger
    ensures ledger.txns == old(ledger.txns) && ledger.nextId == old(ledger.nextId)
    ensures ledger.accounts == old(ledger.accounts)[u := SpendUse(old(ledger.accounts[u])).1]
    ensures ok == SpendUse(old(ledger.accounts[u])).0
  {
    var freeUsesLeft := ledger.GetFreeUsesLeft(u);
    var purchasedUses := ledger.GetPurchasedUses(u);
    if freeUsesLeft > 0 {
      ledger.DecrementFreeUses(u);
      return true;
    } else if purchasedUses > 0 {
      ledger.DecrementPurchasedUses(u);
      return true;
    }
    return false;
  }

  /** The counters after `n` consecutive spends, and how many of them were granted. */
  function SpendMany(a: Account, n: nat): (int, Account)
    decreases n
  {
    if n == 0 then (0, a)
    else
      var (ok, a') := SpendUse(a);
      var (granted, last) := SpendMany(a', n - 1);
      (granted + (if ok then 1 else 0), last)
  }

  function Min(x: int, y: int): int { if x <= y then x else y }

  /**
   * From non-negative counters, `n` spends grant as many uses as the account
   * holds, up to `n`; the free ones are used up first and neither counter
   * goes below zero.
   */
  lemma {:induction false} SpendManyDrainsFreeFirst(a: Account, n: nat)
    requires a.freeUses >= 0 && a.purchasedUses >= 0
    ensures var (granted, last) := SpendMany(a, n);
            && granted == Min(n, a.Total())
            && last.freeUses == a.freeUses - Min(n, a.freeUses)
            && last.purchasedUses == a.purchasedUses - (granted - Min(n, a.freeUses))
            && last.freeUses >= 0 && last.purchasedUses >= 0
    decreases n
  {
    if n > 0 {
      var (ok, a') := SpendUse(a);
      SpendManyDrainsFreeFirst(a', n - 1);
    }
  }
}
