/** Two facts about natural numbers that several modules use. */
module Arithmetic {
  function Min(a: nat, b: nat): nat {
    if a <= b then a else b
  }

  lemma TimesKeepsOrder(a: int, b: int, n: nat)
    requires a <= b
    ensures a * n <= b * n
  {
  }
}
