/** Values that may be absent: SQL NULL columns and lookups that find nothing. */
module Wrappers {
  datatype Option<+T> = None | Some(value: T)
}

/** The arithmetic of the backoff formulas. */
module Numbers {
  function Pow2(n: nat): nat {
    if n == 0 then 1 else 2 * Pow2(n - 1)
  }

  lemma PowersDouble(n: nat)
    ensures Pow2(0) == 1 && Pow2(n + 1) == Pow2(n) + Pow2(n) && Pow2(10) == 1024
  {
    assert Pow2(10) == 4 * Pow2(8) && Pow2(8) == 4 * Pow2(6) && Pow2(6) == 4 * Pow2(4) && Pow2(4) == 16;
  }

  function Min(a: int, b: int): int {
    if a <= b then a else b
  }
}
