/** The retry delay: a doubling loop on signed 64-bit nanoseconds. */
module DeliveryBackoff {
  import opened DeadlinePolicy

  /** `base` doubled `k` times, without a machine width. */
  function Doubled(base: int, k: nat): int {
    if k == 0 then base else 2 * Doubled(base, k - 1)
  }

  /** The loop: at most `steps` doublings, each cut to 64 bits, while still below `max`. */
  function Doubling(d: Int64, max: Int64, steps: nat): Int64
    decreases steps
  {
    if steps == 0 || d >= max then d else Doubling(WrapInt64(2 * d), max, steps - 1)
  }

  function Backoff(base: Int64, max: Int64, attempts: int): Int64 {
    var d := Doubling(base, max, if attempts > 1 then attempts - 1 else 0);
    if d > max then max else d
  }

  method Compute(base: Int64, max: Int64, attempts: int) returns (d: Int64)
    ensures d == Backoff(base, max, attempts)
  {
    d := base;
    var i := 1;
    while i < attempts && d < max
      invariant i >= 1 && (attempts > 1 ==> i <= attempts)
      invariant Doubling(base, max, if attempts > 1 then attempts - 1 else 0)
                == Doubling(d, max, if attempts > i then attempts - i else 0)
    {
      d := WrapInt64(d * 2);
      i := i + 1;
    }
    if d > max {
      d := max;
    }
  }

  /** What the delay is meant to be: base * 2^(attempts-1), capped. */
  function Intended(base: int, max: int, attempts: int): int {
    if attempts <= 1 then base
    else if Doubled(base, attempts - 1) < max then Doubled(base, attempts - 1) else max
  }

  /** The first doubling of the base that reaches the cap. */
  function FirstReaching(base: int, max: int): int
    requires base > 0
    decreases max - base
  {
    if base >= max then base else FirstReaching(2 * base, max)
  }

  lemma {:induction false} DoubledFromFront(base: int, k: nat)
    requires k > 0
    ensures Doubled(base, k) == Doubled(2 * base, k - 1)
  {
    if k > 1 {
      DoubledFromFront(base, k - 1);
    }
  }

  lemma {:induction false} DoubledGrows(base: int, k: nat)
    requires base > 0
    ensures Doubled(base, k) >= base
  {
    if k > 0 {
      DoubledGrows(base, k - 1);
    }
  }

  lemma SmallStays(n: int)
    requires 0 <= n < TWO_63
    ensures WrapInt64(n) == n
  {}

  lemma {:induction false} DoublingIsIntended(d: Int64, max: Int64, steps: nat)
    requires 0 < d && FirstReaching(d, max) < TWO_63
    ensures var r := Doubling(d, max, steps);
            if Doubled(d, steps) < max then r == Doubled(d, steps) else r >= max
    decreases steps
  {
    if steps > 0 {
      DoubledGrows(d, steps);
      if d < max {
        FirstIsLarger(2 * d, max);
        SmallStays(2 * d);
        DoublingIsIntended(2 * d, max, steps - 1);
        DoubledFromFront(d, steps);
      }
    }
  }

  lemma {:induction false} FirstIsLarger(base: int, max: int)
    requires base > 0
    ensures FirstReaching(base, max) >= base && FirstReaching(base, max) >= max
    ensures base < max ==> FirstReaching(base, max) < 2 * max
    decreases max - base
  {
    if base < max {
      FirstIsLarger(2 * base, max);
    }
  }

  /** When the first doubling to reach the cap does not fit, some number of attempts sends
      the loop past it to a negative delay. */
  lemma {:induction false} OverflowIsReached(d: Int64, max: Int64) returns (steps: nat)
    requires 0 < d && FirstReaching(d, max) >= TWO_63
    ensures Doubling(d, max, steps) < 0 && steps > 0 && Doubled(d, steps) >= max
    decreases max - d
  {
    assert d < max;
    if 2 * d >= TWO_63 {
      steps := 1;
      assert WrapInt64(2 * d) == 2 * d - TWO_64;
      assert Doubling(WrapInt64(2 * d), max, 0) == WrapInt64(2 * d);
      assert Doubled(d, 0) == d && Doubled(d, 1) == 2 * d;
    } else {
      var rest := OverflowIsReached(2 * d, max);
      steps := rest + 1;
      DoubledFromFront(d, steps);
    }
  }

  /** The loop computes the intended delay for every number of attempts exactly when the first
      doubling that reaches the cap still fits 64 bits. */
  lemma ClosedFormIff(base: Int64, max: Int64)
    requires 0 < base <= max
    ensures (forall attempts: int :: Backoff(base, max, attempts) == Intended(base, max, attempts))
            <==> FirstReaching(base, max) < TWO_63
  {
    if FirstReaching(base, max) < TWO_63 {
      forall attempts: int ensures Backoff(base, max, attempts) == Intended(base, max, attempts) {
        if attempts > 1 {
          DoublingIsIntended(base, max, attempts - 1);
        }
      }
    } else {
      var steps := OverflowIsReached(base, max);
      assert Backoff(base, max, steps + 1) < 0;
      assert Intended(base, max, steps + 1) == max;
    }
  }

  /** Any cap up to 2^62 fits, whatever the base. */
  lemma SmallCapsFit(base: Int64, max: Int64)
    requires 0 < base <= max <= TWO_63 / 2
    ensures FirstReaching(base, max) < TWO_63
  {
    FirstIsLarger(base, max);
  }

  /** Where it fits, the delay stays between base and cap and never shrinks as attempts grow. */
  lemma BackoffIsMonotone(base: Int64, max: Int64, a: int, b: int)
    requires 0 < base <= max && FirstReaching(base, max) < TWO_63 && a <= b
    ensures base <= Backoff(base, max, a) <= Backoff(base, max, b) <= max
  {
    ClosedFormIff(base, max);
    assert Backoff(base, max, a) == Intended(base, max, a) && Backoff(base, max, b) == Intended(base, max, b);
    if a > 1 {
      DoubledGrows(base, a - 1);
      DoubledMonotone(base, a - 1, b - 1);
    } else if b > 1 {
      DoubledGrows(base, b - 1);
    }
  }

  lemma {:induction false} DoubledMonotone(base: int, j: nat, k: nat)
    requires base > 0 && j <= k
    ensures Doubled(base, j) <= Doubled(base, k)
  {
    if j < k {
      DoubledMonotone(base, j, k - 1);
      DoubledGrows(base, k - 1);
    }
  }
}
