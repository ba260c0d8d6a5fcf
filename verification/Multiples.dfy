/** Repeated addition, kept apart from the solver's nonlinear arithmetic. */
module Multiples {
  /** So many times an amount. */
  function Times(k: nat, amount: int): (r: int)
    ensures amount >= 0 ==> r >= 0
  {
    if k == 0 then 0 else Times(k - 1, amount) + amount
  }

  lemma {:induction false} TimesIsProduct(k: nat, amount: int)
    ensures Times(k, amount) == k * amount
  {
    if k > 0 {
      TimesIsProduct(k - 1, amount);
      assert k * amount == (k - 1) * amount + amount;
    }
  }

  lemma {:induction false} TimesGrows(j: nat, k: nat, amount: int)
    requires j <= k && amount >= 0
    ensures Times(j, amount) <= Times(k, amount)
  {
    if j < k {
      TimesGrows(j, k - 1, amount);
    }
  }
}
