/**
 * Pricing of purchased uses (`calculate_uses` in utils/paycom_integration.py).
 * Amounts are integer tiyin; 100 tiyin make one sum (UZS), and outside the
 * three bundles one use costs 1000 sum, that is 100000 tiyin.
 */
module Pricing {

  /** Tiyin per use outside the bundles: 1000 sum. */
  const TiyinPerUse: int := 100000

  /** The three bundles: 5000, 10000 and 16000 sum. */
  predicate IsBundle(amountTiyin: int) {
    amountTiyin == 500000 || amountTiyin == 1000000 || amountTiyin == 1600000
  }

  /** Python's `int(x)` on a quotient: truncation toward zero. */
  function TruncatedQuotient(a: int, d: int): int
    requires d > 0
  {
    if a >= 0 then a / d else -((-a) / d)
  }

  /**
   * Uses granted for a payment. Outside the bundles the number of whole
   * units of 100000 tiyin, never a fraction of one; a negative amount
   * truncates toward zero as Python's `int` does.
   */
  function CalculateUses(amountTiyin: int): (uses: int)
    ensures amountTiyin >= 0 ==> uses >= 0
    ensures !IsBundle(amountTiyin) && amountTiyin >= 0 ==>
              uses * TiyinPerUse <= amountTiyin < (uses + 1) * TiyinPerUse
    ensures !IsBundle(amountTiyin) && amountTiyin < 0 ==>
              (uses - 1) * TiyinPerUse < amountTiyin <= uses * TiyinPerUse
  {
    if amountTiyin == 500000 then 5
    else if amountTiyin == 1000000 then 10
    else if amountTiyin == 1600000 then 20
    else TruncatedQuotient(amountTiyin, TiyinPerUse)
  }

  /** The bundle prices. */
  lemma BundlePrices()
    ensures CalculateUses(500000) == 5
    ensures CalculateUses(1000000) == 10
    ensures CalculateUses(1600000) == 20
  {
  }

  /** For every non-negative amount other than the 16000-sum bundle, the table agrees with floor division. */
  lemma LinearRateOffTopBundle(amountTiyin: int)
    requires amountTiyin >= 0 && amountTiyin != 1600000
    ensures CalculateUses(amountTiyin) == amountTiyin / TiyinPerUse
  {
  }

  /** The 16000-sum bundle grants 20 uses where the linear rate would grant 16. */
  lemma TopBundleBonus()
    ensures CalculateUses(1600000) == 1600000 / TiyinPerUse + 4
  {
  }

  /**
   * The table is not monotone: paying 17000 sum grants fewer uses than
   * paying 16000 sum.
   */
  lemma PayingMoreCanGrantLess()
    ensures CalculateUses(1700000) < CalculateUses(1600000)
  {
  }
}
