/** `dispatcher<round_robin>`: the counter is advanced atomically and taken modulo the number of contexts. */
module DispatcherModel {

  /** The range of `size_t`. */
  const RANGE: nat := 0x1_0000_0000_0000_0000

  class RoundRobin {
    const ctxCnt: nat
    var cur: nat
    /** The number of dispatches so far. */
    ghost var made: nat

    ghost predicate Valid()
      reads this
    {
      ctxCnt > 0 && cur == made % RANGE
    }

    constructor (ctxCnt: nat)
      requires ctxCnt > 0
      ensures Valid() && this.ctxCnt == ctxCnt && made == 0
    {
      this.ctxCnt, cur, made := ctxCnt, 0, 0;
    }

    method Dispatch() returns (ctx: nat)
      requires Valid()
      modifies this
      ensures Valid() && made == old(made) + 1
      ensures ctx == Target(ctxCnt, old(made)) < ctxCnt
    {
      ctx := cur % ctxCnt;
      cur := (cur + 1) % RANGE;
      made := made + 1;
    }
  }

  /** The context that gets the dispatch number `t`, counted from zero. */
  function Target(k: nat, t: nat): (ctx: nat)
    requires k > 0
    ensures ctx < k
  {
    (t % RANGE) % k
  }

  /** How many of the dispatches from `lo` up to `hi` go to context `i`. */
  function Load(k: nat, i: nat, lo: nat, hi: nat): nat
    requires k > 0 && lo <= hi
    decreases hi - lo
  {
    if lo == hi then 0 else Load(k, i, lo, hi - 1) + if Target(k, hi - 1) == i then 1 else 0
  }

  lemma DivModStep(n: nat, k: nat)
    requires k > 0
    ensures if n % k == k - 1 then (n + 1) / k == n / k + 1 && (n + 1) % k == 0
            else (n + 1) / k == n / k && (n + 1) % k == n % k + 1
  {
    var q, r := n / k, n % k;
    assert n == q * k + r;
    if r == k - 1 {
      assert n + 1 == (q + 1) * k;
      DivModUnique(n + 1, k, q + 1, 0);
    } else {
      DivModUnique(n + 1, k, q, r + 1);
    }
  }

  lemma DivModUnique(n: nat, k: nat, q: nat, r: nat)
    requires k > 0 && n == q * k + r && r < k
    ensures n / k == q && n % k == r
  {
    var q', r' := n / k, n % k;
    assert q' * k + r' == n;
    if q < q' {
      LargerQuotient(k, q, r, q', r');
    } else if q' < q {
      LargerQuotient(k, q', r', q, r);
    }
  }

  lemma LargerQuotient(k: nat, q: nat, r: nat, q': nat, r': nat)
    requires q < q' && r < k
    ensures q * k + r < q' * k + r'
  {
    var d := q' - q - 1;
    assert q' * k == (q + 1 + d) * k == q * k + k + d * k;
    assert d * k >= 0;
  }

  lemma TargetBeforeWrap(k: nat, n: nat)
    requires 0 < k && n < RANGE
    ensures Target(k, n) == n % k
  {
  }

  /** After `n` dispatches, short of a wrap, context `i` has received n/k tasks, and one more if i < n mod k. */
  lemma {:induction false} LoadAfter(k: nat, i: nat, n: nat)
    requires 0 < k && i < k && n <= RANGE
    ensures Load(k, i, 0, n) == n / k + if i < n % k then 1 else 0
    decreases n
  {
    if n > 0 {
      LoadAfter(k, i, n - 1);
      DivModStep(n - 1, k);
      TargetBeforeWrap(k, n - 1);
    } else {
      DivModUnique(0, k, 0, 0);
    }
  }

  lemma {:induction false} LoadSplits(k: nat, i: nat, lo: nat, hi: nat)
    requires k > 0 && lo <= hi
    ensures Load(k, i, 0, hi) == Load(k, i, 0, lo) + Load(k, i, lo, hi)
    decreases hi - lo
  {
    if lo < hi {
      LoadSplits(k, i, lo, hi - 1);
    }
  }

  /** Over any window of consecutive dispatches, two contexts differ by at most one. */
  lemma WindowsAreBalanced(k: nat, i: nat, j: nat, lo: nat, hi: nat)
    requires 0 < k && i < k && j < k && lo <= hi <= RANGE
    ensures -1 <= Load(k, i, lo, hi) - Load(k, j, lo, hi) <= 1
  {
    LoadSplits(k, i, lo, hi);
    LoadSplits(k, j, lo, hi);
    LoadAfter(k, i, lo);
    LoadAfter(k, i, hi);
    LoadAfter(k, j, lo);
    LoadAfter(k, j, hi);
  }

  /** The wrap of the counter goes unnoticed exactly when the number of contexts divides the range. */
  lemma WrapIsHarmlessIff(k: nat)
    requires k > 0
    ensures (forall t: nat :: Target(k, t) == t % k) <==> RANGE % k == 0
  {
    if RANGE % k == 0 {
      forall t: nat ensures Target(k, t) == t % k {
        var q, r, c := t / RANGE, t % RANGE, RANGE / k;
        var a, b := r / k, r % k;
        assert RANGE == c * k && t == q * RANGE + r && r == a * k + b;
        assert q * RANGE == (q * c) * k;
        assert t == (q * c + a) * k + b;
        DivModUnique(t, k, q * c + a, b);
      }
    } else {
      assert Target(k, RANGE) == 0 by { DivModUnique(0, k, 0, 0); }
    }
  }
}
