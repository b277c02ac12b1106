/** When the logger saves on its own: after a record whose step `s`
    satisfies `(s + 1) mod N == 0`, where N is the flush interval. */
module FlushPolicy {
  import opened Options
  import opened Records

  predicate ShouldFlush(step: int, every: int)
    requires every > 0
  {
    (step + 1) % every == 0
  }

  /** Buffer length after `k` records logged without a step on a logger
      whose buffer started empty. */
  function AutoBuffered(k: nat, every: int): nat
    requires every > 0
  {
    if k == 0 then 0
    else
      var b := AutoBuffered(k - 1, every);
      if ShouldFlush(StepFor(None, b), every) then 0 else b + 1
  }

  /** Number of automatic saves during those `k` records. */
  function AutoSaves(k: nat, every: int): nat
    requires every > 0
  {
    if k == 0 then 0
    else
      var b := AutoBuffered(k - 1, every);
      AutoSaves(k - 1, every) + if ShouldFlush(StepFor(None, b), every) then 1 else 0
  }

  /** With steps filled in, the `k`-th record (from 0) gets step `k mod N`,
      so steps run 0, 1, ..., N - 1 and start again at 0 after each save;
      a save happens exactly on every N-th record. */
  lemma {:induction false} AutoStepCycle(k: nat, every: int)
    requires every > 0
    ensures AutoBuffered(k, every) == k % every
    ensures StepFor(None, AutoBuffered(k, every)) == k % every
    ensures ShouldFlush(StepFor(None, AutoBuffered(k, every)), every) <==> (k + 1) % every == 0
    ensures AutoSaves(k, every) == k / every
  {
    if k > 0 {
      AutoStepCycle(k - 1, every);
      var b := (k - 1) % every;
      FlushAtRemainder(b, every);
      DivStep(k - 1, every, b + 1 == every);
    } else {
      DivModUnique(0, every, 0, 0);
    }
    var c := k % every;
    FlushAtRemainder(c, every);
    DivStep(k, every, c + 1 == every);
  }

  /** A buffer shorter than N triggers a save exactly when it is one short. */
  lemma FlushAtRemainder(b: int, every: int)
    requires 0 <= b < every
    ensures ShouldFlush(b, every) <==> b + 1 == every
  {
    if b + 1 == every {
      DivModUnique(b + 1, every, 1, 0);
    } else {
      DivModUnique(b + 1, every, 0, b + 1);
    }
  }

  /** Euclidean division has one quotient and remainder. */
  lemma DivModUnique(a: int, n: int, q: int, r: int)
    requires n > 0 && 0 <= r < n && a == q * n + r
    ensures a / n == q && a % n == r
  {
    var q0, r0 := a / n, a % n;
    assert (q - q0) * n == r0 - r;
    if q > q0 {
      MulAtLeast(q - q0, n);
    } else if q < q0 {
      MulAtLeast(q0 - q, n);
    }
  }

  lemma MulAtLeast(d: int, n: int)
    requires d >= 1 && n > 0
    ensures d * n >= n
  {
    assert d * n == (d - 1) * n + n;
  }

  /** Quotient and remainder of `m + 1` from those of `m`. */
  lemma DivStep(m: nat, n: int, wraps: bool)
    requires n > 0
    requires wraps <==> m % n + 1 == n
    ensures wraps ==> (m + 1) % n == 0 && (m + 1) / n == m / n + 1
    ensures !wraps ==> (m + 1) % n == m % n + 1 && (m + 1) / n == m / n
  {
    var q, r := m / n, m % n;
    if wraps {
      assert m + 1 == (q + 1) * n + 0;
      DivModUnique(m + 1, n, q + 1, 0);
    } else {
      DivModUnique(m + 1, n, q, r + 1);
    }
  }
}
