/** Small shared definitions. */
module Basics {

  datatype Option<+T> = None | Some(value: T)

  function Min(a: int, b: int): int { if a < b then a else b }

  function Max(a: int, b: int): int { if a < b then b else a }

  /** What holds at zero and is handed on holds up to n. */
  lemma {:induction false} CountUp(P: nat -> bool, n: nat)
    requires P(0) && forall k: nat :: k < n && P(k) ==> P(k + 1)
    ensures forall k: nat :: k <= n ==> P(k)
  {
    if n > 0 {
      CountUp(P, n - 1);
      assert P(n - 1) ==> P(n - 1 + 1);
    }
  }
}
