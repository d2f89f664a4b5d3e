/** Repeating a step. */
module Iteration {

  function Iterate<T>(f: T -> T, k: nat, x: T): T {
    if k == 0 then x else Iterate(f, k - 1, f(x))
  }

  lemma {:induction false} IterateSum<T>(f: T -> T, j: nat, k: nat, x: T)
    ensures Iterate(f, j + k, x) == Iterate(f, k, Iterate(f, j, x))
  {
    if j > 0 {
      IterateSum(f, j - 1, k, f(x));
    }
  }

  /** A step that changes nothing changes nothing when it is repeated. */
  lemma {:induction false} IterateFixed<T>(f: T -> T, k: nat, x: T)
    requires f(x) == x
    ensures Iterate(f, k, x) == x
  {
    if k > 0 {
      IterateFixed(f, k - 1, x);
    }
  }

  lemma IterateOn<T>(f: T -> T, j: nat, k: nat, x: T)
    requires j <= k && f(Iterate(f, j, x)) == Iterate(f, j, x)
    ensures Iterate(f, k, x) == Iterate(f, j, x)
  {
    IterateSum(f, j, k - j, x);
    IterateFixed(f, k - j, Iterate(f, j, x));
  }
}
