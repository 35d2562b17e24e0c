/** The bounded cyclic cursor every list, table and page cursor of the browser
    behaves like while its index is in range: one step forward from the last
    position lands on the first, one step back from the first on the last. */
module Cyclic {

  /** One step forward on a ring of `n` positions. */
  function Step(i: nat, n: nat): (r: nat)
    requires i < n
    ensures r < n
    ensures r == (i + 1) % n
    ensures StepBack(r, n) == i
  {
    if i == n - 1 then 0 else i + 1
  }

  /** One step back on a ring of `n` positions. */
  function StepBack(i: nat, n: nat): (r: nat)
    requires i < n
    ensures r < n
  {
    if i == 0 then n - 1 else i - 1
  }

  /** `k` forward steps. */
  function Steps(i: nat, n: nat, k: nat): (r: nat)
    requires i < n
    ensures r < n
    decreases k
  {
    if k == 0 then i else Steps(Step(i, n), n, k - 1)
  }

  /** One step back undoes one step forward and vice versa. */
  lemma StepBackIsInverse(i: nat, n: nat)
    requires i < n
    ensures StepBack(Step(i, n), n) == i
    ensures Step(StepBack(i, n), n) == i
  {
  }

  /** Stepping `a` then `b` times is stepping `a + b` times. */
  lemma {:induction false} StepsAdd(i: nat, n: nat, a: nat, b: nat)
    requires i < n
    ensures Steps(i, n, a + b) == Steps(Steps(i, n, a), n, b)
    decreases a
  {
    if a > 0 {
      StepsAdd(Step(i, n), n, a - 1, b);
    }
  }

  /** Before the end of the ring, `k` steps forward advance the index by `k`. */
  lemma {:induction false} StepsBeforeWrap(i: nat, n: nat, k: nat)
    requires i + k < n
    ensures Steps(i, n, k) == i + k
    decreases k
  {
    if k > 0 {
      StepsBeforeWrap(i + 1, n, k - 1);
    }
  }

  /** `n` steps forward on a ring of `n` positions come back to the start. */
  lemma FullCycle(i: nat, n: nat)
    requires i < n
    ensures Steps(i, n, n) == i
  {
    StepsBeforeWrap(i, n, n - 1 - i);
    assert Steps(i, n, n - 1 - i) == n - 1;
    assert Steps(n - 1, n, 1) == 0;
    StepsAdd(i, n, n - 1 - i, 1);
    assert Steps(i, n, n - i) == 0;
    if i > 0 {
      StepsBeforeWrap(0, n, i);
    }
    StepsAdd(i, n, n - i, i);
  }
}
