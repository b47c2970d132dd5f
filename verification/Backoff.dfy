/** Reconnect backoff in nanoseconds, on 64-bit integers that wrap. */
module Backoff {
  import opened Decimal

  const TWO_62: int := 0x4000_0000_0000_0000
  const TWO_64: int := 0x1_0000_0000_0000_0000
  const DEFAULT_MIN: int := 1_000_000_000
  const DEFAULT_MAX: int := 30_000_000_000

  /** Two's-complement wrap-around. */
  function Wrap(n: int): (r: int)
    ensures InInt64(r)
  {
    (n - MIN_INT64) % TWO_64 + MIN_INT64
  }

  /** Nothing wraps that fits. */
  lemma WrapFits(n: int)
    requires InInt64(n)
    ensures Wrap(n) == n
  {
  }

  function NextBackoff(current: int, limit: int): int {
    var next := Wrap(current * 2);
    if next < limit then next else limit
  }

  /** The option defaults: a positive minimum and a maximum not below it. */
  function WithDefaults(min: int, max: int): (r: (int, int))
    ensures 0 < r.0 <= r.1
    ensures 0 < min <= max ==> r == (min, max)
    ensures min <= 0 && max <= 0 ==> r == (1_000_000_000, 30_000_000_000)
    ensures min < TWO_62 && max < TWO_62 ==> r.1 < TWO_62
  {
    var lo := if min <= 0 then DEFAULT_MIN else min;
    (lo, if max >= lo then max else if DEFAULT_MAX > lo then DEFAULT_MAX else lo)
  }

  function Pow2(j: nat): (p: int)
    ensures p >= 1
  {
    if j == 0 then 1 else 2 * Pow2(j - 1)
  }

  /** The backoff after j failed or short-lived connections in a row. */
  function After(min: int, max: int, j: nat): int {
    if j == 0 then min else NextBackoff(After(min, max, j - 1), max)
  }

  function Capped(min: int, max: int, j: nat): int {
    if min * Pow2(j) < max then min * Pow2(j) else max
  }

  lemma {:induction false} AfterIsCapped(min: int, max: int, j: nat)
    requires 0 < min <= max < TWO_62
    ensures After(min, max, j) == Capped(min, max, j)
    ensures min <= After(min, max, j) <= max
  {
    hide Wrap;
    if j > 0 {
      AfterIsCapped(min, max, j - 1);
      var c := After(min, max, j - 1);
      WrapFits(c * 2);
      DoubleIt(min, Pow2(j - 1));
      MulAtLeast(min, Pow2(j));
    }
  }

  lemma DoubleIt(a: int, b: int)
    ensures a * (2 * b) == 2 * (a * b)
  {
  }

  lemma MulAtLeast(a: int, b: int)
    requires a > 0 && b >= 1
    ensures a * b >= a
  {
    if b > 1 {
      assert a * b == a * (b - 1) + a;
      assert a * (b - 1) > 0;
    }
  }

  lemma {:induction false} Pow2Grows(j: nat)
    ensures Pow2(j) > j
  {
    if j > 0 {
      Pow2Grows(j - 1);
    }
  }

  /** The doubling never wraps, and the backoff is min·2^j capped at max for
      every j, exactly when the configured maximum is below 2^62 ns. */
  lemma CappedExactlyBelowTwo62(min: int, max: int)
    requires 0 < min <= max && InInt64(max)
    ensures (forall j: nat :: After(min, max, j) == Capped(min, max, j)) <==> max < TWO_62
  {
    if max < TWO_62 {
      forall j: nat ensures After(min, max, j) == Capped(min, max, j) {
        AfterIsCapped(min, max, j);
      }
    } else {
      var j: nat := max;
      Pow2Grows(j);
      Pow2Grows(j + 1);
      MulAtLeast(Pow2(j), min);
      MulAtLeast(Pow2(j + 1), min);
      assert Pow2(j) * min == min * Pow2(j) && Pow2(j + 1) * min == min * Pow2(j + 1);
      assert Capped(min, max, j) == max && Capped(min, max, j + 1) == max;
      if After(min, max, j) == max {
        assert Wrap(max * 2) == max * 2 - TWO_64;
        assert After(min, max, j + 1) < 0;
      }
    }
  }

  // ------------------------------------------------------------ the run loop

  /** One turn: the connect failed, the connection dropped early, or it lasted. */
  datatype Outcome = Failed | ShortLived | Stable

  /** Failed or short-lived connections since the last stable one. */
  function Streak(os: seq<Outcome>): nat {
    if os == [] || os[|os| - 1] == Stable then 0 else 1 + Streak(os[..|os| - 1])
  }

  /** A streak reaches back to the last stable connection, or to the start. */
  lemma {:induction false} StreakMeaning(os: seq<Outcome>, k: nat)
    ensures Streak(os) == k <==>
      && k <= |os| && (forall i :: |os| - k <= i < |os| ==> os[i] != Stable)
      && (k < |os| ==> os[|os| - 1 - k] == Stable)
    decreases |os|
  {
    if os != [] && os[|os| - 1] != Stable {
      var front := os[..|os| - 1];
      if k > 0 {
        StreakMeaning(front, k - 1);
      }
    }
  }

  /** The sleep of turn i: before the doubling on a failure, after it on a
      drop. */
  function SleepOf(min: int, max: int, os: seq<Outcome>, i: nat): int
    requires i < |os|
  {
    After(min, max, Streak(if os[i] == Failed then os[..i] else os[..i + 1]))
  }

  method Run(min: int, max: int, os: seq<Outcome>) returns (sleeps: seq<int>, backoff: int)
    ensures backoff == After(min, max, Streak(os))
    ensures |sleeps| == |os| && forall i :: 0 <= i < |os| ==> sleeps[i] == SleepOf(min, max, os, i)
  {
    backoff, sleeps := min, [];
    for i := 0 to |os|
      invariant backoff == After(min, max, Streak(os[..i]))
      invariant |sleeps| == i && forall k :: 0 <= k < i ==> sleeps[k] == SleepOf(min, max, os, k)
    {
      assert os[..i + 1][..i] == os[..i];
      if os[i] == Failed {
        sleeps := sleeps + [backoff];
        backoff := NextBackoff(backoff, max);
      } else {
        backoff := if os[i] == Stable then min else NextBackoff(backoff, max);
        sleeps := sleeps + [backoff];
      }
    }
    assert os[..|os|] == os;
  }

  /** Every sleep of every run lies between the two bounds. */
  lemma SleepsAreBounded(min: int, max: int, os: seq<Outcome>, i: nat)
    requires 0 < min <= max < TWO_62 && i < |os|
    ensures min <= SleepOf(min, max, os, i) <= max
    ensures SleepOf(min, max, os, i) == Capped(min, max, Streak(if os[i] == Failed then os[..i] else os[..i + 1]))
  {
    AfterIsCapped(min, max, Streak(if os[i] == Failed then os[..i] else os[..i + 1]));
  }

  /** After a reset a failed connect sleeps the minimum, a short-lived one the
      doubled minimum and a stable one the minimum. */
  lemma SleepAfterReset(min: int, max: int, os: seq<Outcome>, i: nat)
    requires 0 < min <= max < TWO_62 && i < |os| && (i == 0 || os[i - 1] == Stable)
    ensures os[i] != ShortLived ==> SleepOf(min, max, os, i) == min
    ensures os[i] == ShortLived ==> SleepOf(min, max, os, i) == if 2 * min < max then 2 * min else max
  {
    hide Wrap;
    var before, after := os[..i], os[..i + 1];
    assert after[..i] == before && after[i] == os[i];
    assert Streak(before) == 0;
    assert os[i] == Stable || Streak(after) == 1;
    WrapFits(min * 2);
    assert After(min, max, 1) == NextBackoff(After(min, max, 0), max);
  }

  /** Two failures in a row: the second sleeps twice the first, up to the
      maximum. */
  lemma FailuresDouble(min: int, max: int, os: seq<Outcome>, i: nat)
    requires 0 < min <= max < TWO_62 && i + 1 < |os| && os[i] == os[i + 1] == Failed
    ensures
      var first := SleepOf(min, max, os, i);
      SleepOf(min, max, os, i + 1) == if 2 * first < max then 2 * first else max
  {
    hide Wrap;
    assert os[..i + 1][..i] == os[..i];
    AfterIsCapped(min, max, Streak(os[..i]));
    WrapFits(After(min, max, Streak(os[..i])) * 2);
  }
}
