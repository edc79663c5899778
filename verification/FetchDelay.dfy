/**
 Retry timing of the managed-config feed (internal/service/configsource_windows.go), in nanoseconds.
 Doubling wraps around at 64 bits, as it does in the source.
 */
module FetchDelay {
  import opened Arith
  import opened Text

  const MINUTE := 60_000_000_000
  const RETRY_BASE := MINUTE
  const RECHECK := 5 * MINUTE
  const HOUR := 60 * MINUTE

  /** The longest interval for which no doubling can overflow: one minute times 2^27, above 2^62. */
  const LONGEST_SAFE := 8_053_063_680_000_000_000

  newtype Duration = x: int | -0x8000_0000_0000_0000 <= x < 0x8000_0000_0000_0000

  function Wrap(x: int): Duration {
    ((x + 0x8000_0000_0000_0000) % 0x1_0000_0000_0000_0000 - 0x8000_0000_0000_0000) as Duration
  }

  /** The refresh interval in force: an hour when unset or malformed, never below a minute. */
  function ConfigEvery(parsed: Option<Duration>): (d: Duration)
    ensures d as int >= MINUTE
    ensures parsed.Some? && parsed.value as int >= MINUTE ==> d == parsed.value
    ensures parsed.Some? && (parsed.value as int) < MINUTE ==> d as int == MINUTE
    ensures parsed.None? ==> d as int == HOUR
  {
    if parsed.None? then HOUR as Duration
    else if (parsed.value as int) < MINUTE then MINUTE as Duration else parsed.value
  }

  /** The loop variable after k rounds: doubled while it is below the interval. */
  function Doubling(interval: Duration, k: nat): Duration {
    if k == 0 then RETRY_BASE as Duration
    else
      var d := Doubling(interval, k - 1);
      if d < interval then Wrap(2 * d as int) else d
  }

  function Delay(interval: Duration, fails: int): Duration {
    if fails <= 0 then interval
    else if Doubling(interval, fails - 1) > interval then interval else Doubling(interval, fails - 1)
  }

  method NextFetchDelay(interval: Duration, fails: int) returns (d: Duration)
    ensures d == Delay(interval, fails)
  {
    if fails <= 0 {
      return interval;
    }
    d := RETRY_BASE as Duration;
    var i := 1;
    ghost var rounds: nat := 0;
    while i < fails && d < interval
      invariant 1 <= i <= fails && rounds == i - 1
      invariant d == Doubling(interval, rounds)
    {
      d := Wrap(2 * d as int);
      i := i + 1;
      rounds := rounds + 1;
    }
    SettledDoubling(interval, rounds, fails - 1);
    if d > interval {
      d := interval;
    }
  }

  lemma {:induction false} SettledDoubling(interval: Duration, k: nat, n: nat)
    requires k <= n && (k == n || Doubling(interval, k) >= interval)
    ensures Doubling(interval, n) == Doubling(interval, k)
  {
    if k < n {
      SettledDoubling(interval, k, n - 1);
    }
  }

  lemma LongestSafeIsAPower()
    ensures LONGEST_SAFE == Doubled(RETRY_BASE, 27)
    ensures Pow2(62) < LONGEST_SAFE < Pow2(63) == 0x8000_0000_0000_0000
  {
    assert Pow2(9) == 512;
    Pow2Add(9, 9);
    Pow2Add(18, 9);
    assert Pow2(27) == 134_217_728;
    Pow2Add(27, 27);
    Pow2Add(54, 8);
    assert Pow2(8) == 256;
    assert Pow2(62) == 0x4000_0000_0000_0000;
    DoubledIsPow2(RETRY_BASE, 27);
  }

  lemma WrapInRange(x: int)
    requires -0x8000_0000_0000_0000 <= x < 0x8000_0000_0000_0000
    ensures Wrap(x) as int == x
  {
  }

  lemma WrapAbove(x: int)
    requires 0x8000_0000_0000_0000 <= x < 0x1_0000_0000_0000_0000
    ensures Wrap(x) as int == x - 0x1_0000_0000_0000_0000
  {
    assert (x + 0x8000_0000_0000_0000) % 0x1_0000_0000_0000_0000 == x - 0x8000_0000_0000_0000;
  }

  lemma BelowLongestSafe(k: nat)
    requires Doubled(RETRY_BASE, k) < LONGEST_SAFE
    ensures Doubled(RETRY_BASE, k + 1) <= LONGEST_SAFE < 0x8000_0000_0000_0000
  {
    LongestSafeIsAPower();
    if k >= 27 {
      DoubledMonotonic(RETRY_BASE, 27, k);
    } else {
      DoubledMonotonic(RETRY_BASE, k + 1, 27);
    }
  }

  /**
   While the interval is safe the loop variable never wraps, stays
   below twice the interval, and tracks the exact power.
   */
  lemma {:induction false} DoublingIsExact(interval: Duration, k: nat)
    requires interval as int <= LONGEST_SAFE
    ensures MINUTE <= Doubling(interval, k) as int < 2 * Max(interval as int, RETRY_BASE)
    ensures Doubling(interval, k) < interval ==> Doubling(interval, k) as int == Doubled(RETRY_BASE, k)
    ensures Doubling(interval, k) >= interval ==> Doubled(RETRY_BASE, k) >= interval as int
  {
    if k > 0 {
      DoublingIsExact(interval, k - 1);
      DoubledMonotonic(RETRY_BASE, 0, k - 1);
      var d := Doubling(interval, k - 1);
      if d < interval {
        BelowLongestSafe(k - 1);
        WrapInRange(2 * d as int);
      }
    }
  }

  /** The wait promised after k consecutive failures: a minute, doubled each time, capped at the interval. */
  function Promised(interval: Duration, k: nat): int
    requires k > 0
  {
    Min(interval as int, Doubled(RETRY_BASE, k - 1))
  }

  lemma SafeDelayIsPromised(interval: Duration, fails: nat)
    requires interval as int <= LONGEST_SAFE && fails > 0
    ensures Delay(interval, fails) as int == Promised(interval, fails)
  {
    DoublingIsExact(interval, fails - 1);
  }

  /** Beyond that length the 29th failure meets a wrapped, negative wait. */
  lemma UnsafeDelayIsNegative(interval: Duration)
    requires interval as int > LONGEST_SAFE
    ensures (Delay(interval, 29) as int) < 0
  {
    ExactBelow(interval, 27);
    LongestSafeIsAPower();
    WrapAbove(2 * LONGEST_SAFE);
    assert Doubling(interval, 28) == Wrap(2 * LONGEST_SAFE);
  }

  lemma {:induction false} ExactBelow(interval: Duration, k: nat)
    requires interval as int > LONGEST_SAFE && k <= 27
    ensures Doubling(interval, k) as int == Doubled(RETRY_BASE, k) <= LONGEST_SAFE
  {
    LongestSafeIsAPower();
    DoubledMonotonic(RETRY_BASE, k, 27);
    if k > 0 {
      ExactBelow(interval, k - 1);
      WrapInRange(Doubled(RETRY_BASE, k));
    }
  }

  /**
   The schedule keeps its promise for every number of failures exactly for the intervals no doubling can overflow on.
   */
  lemma PromiseKeptExactlyWhenSafe(interval: Duration)
    ensures (forall fails: nat :: fails > 0 ==> Delay(interval, fails) as int == Promised(interval, fails))
            <==> interval as int <= LONGEST_SAFE
  {
    if interval as int <= LONGEST_SAFE {
      forall fails: nat | fails > 0
        ensures Delay(interval, fails) as int == Promised(interval, fails)
      {
        SafeDelayIsPromised(interval, fails);
      }
    } else {
      UnsafeDelayIsNegative(interval);
      DoubledMonotonic(RETRY_BASE, 0, 28);
      assert Delay(interval, 29) as int != Promised(interval, 29);
    }
  }

  // ---- the fetch loop: what it waits after each attempt

  datatype Attempt = Unmanaged | Fetched | Failed

  /** Failed attempts in a row at the end of a history. */
  function TrailingFailures(attempts: seq<(Attempt, Duration)>): nat {
    if attempts == [] || !attempts[|attempts| - 1].0.Failed? then 0
    else 1 + TrailingFailures(attempts[..|attempts| - 1])
  }

  /** The wait after the last attempt of a history, each attempt paired with the interval then in force. */
  function WaitAfter(attempts: seq<(Attempt, Duration)>): Duration
    requires attempts != []
  {
    var (a, interval) := attempts[|attempts| - 1];
    match a
    case Unmanaged => RECHECK as Duration
    case Fetched => interval
    case Failed => Delay(interval, TrailingFailures(attempts))
  }

  /** The supervising loop, one iteration per attempt. */
  method SuperviseConfigSource(attempts: seq<(Attempt, Duration)>) returns (waits: seq<Duration>)
    ensures |waits| == |attempts|
    ensures forall i :: 0 <= i < |waits| ==> waits[i] == WaitAfter(attempts[..i + 1])
  {
    waits := [];
    var fails := 0;
    for i := 0 to |attempts|
      invariant |waits| == i && fails == TrailingFailures(attempts[..i])
      invariant forall k :: 0 <= k < i ==> waits[k] == WaitAfter(attempts[..k + 1])
    {
      assert attempts[..i + 1][..i] == attempts[..i];
      var next := RECHECK as Duration;
      var interval := attempts[i].1;
      match attempts[i].0 {
        case Unmanaged =>
          fails := 0;
        case Fetched =>
          fails := 0;
          next := interval;
        case Failed =>
          fails := fails + 1;
          next := NextFetchDelay(interval, fails);
      }
      waits := waits + [next];
    }
  }

  /** However the loop got there, the k-th failure in a row waits min(interval, 2^(k-1) minutes). */
  lemma KthFailureWaits(before: seq<(Attempt, Duration)>, failures: seq<(Attempt, Duration)>)
    requires before == [] || !before[|before| - 1].0.Failed?
    requires failures != [] && forall i :: 0 <= i < |failures| ==> failures[i].0.Failed?
    requires failures[|failures| - 1].1 as int <= LONGEST_SAFE
    ensures WaitAfter(before + failures) as int == Promised(failures[|failures| - 1].1, |failures|)
  {
    CountFailures(before, failures);
    SafeDelayIsPromised(failures[|failures| - 1].1, |failures|);
  }

  /** Without a channel it looks again in five minutes; after a success it waits one interval, whatever was before. */
  lemma OtherWaits(before: seq<(Attempt, Duration)>, interval: Duration)
    ensures WaitAfter(before + [(Unmanaged, interval)]) as int == 5 * 60 * 1_000_000_000
    ensures WaitAfter(before + [(Fetched, interval)]) == interval
  {
  }

  lemma {:induction false} CountFailures(before: seq<(Attempt, Duration)>, failures: seq<(Attempt, Duration)>)
    requires before == [] || !before[|before| - 1].0.Failed?
    requires forall i :: 0 <= i < |failures| ==> failures[i].0.Failed?
    ensures TrailingFailures(before + failures) == |failures|
  {
    var all := before + failures;
    if failures == [] {
      assert all == before;
    } else {
      CountFailures(before, failures[..|failures| - 1]);
      assert all[..|all| - 1] == before + failures[..|failures| - 1];
    }
  }

  /** The waits of k failures in a row after a success, the interval staying the same. */
  function FailureWaits(interval: Duration, k: nat): seq<int> {
    if k == 0 then [] else FailureWaits(interval, k - 1) + [Delay(interval, k) as int]
  }

  /** Geometric until the interval is reached at the g-th failure, linear from there. */
  function ClosedForm(interval: int, k: nat, g: nat): int {
    if k <= g then Doubled(RETRY_BASE, k) - RETRY_BASE
    else Doubled(RETRY_BASE, g) - RETRY_BASE + Repeated(interval, k - g)
  }

  /** g counts the waits that are still below the interval. */
  predicate ReachesAt(interval: int, g: nat) {
    Doubled(RETRY_BASE, g) >= interval && (g > 0 ==> Doubled(RETRY_BASE, g - 1) < interval)
  }

  /** Every interval is reached, at exactly one number of failures. */
  lemma {:induction false} ReachedAfter(interval: int, k: nat) returns (g: nat)
    requires k > 0 ==> Doubled(RETRY_BASE, k - 1) < interval
    ensures ReachesAt(interval, g)
    decreases interval - Doubled(RETRY_BASE, k)
  {
    if Doubled(RETRY_BASE, k) >= interval {
      g := k;
    } else {
      DoubledMonotonic(RETRY_BASE, 0, k);
      assert Doubled(RETRY_BASE, k + 1) == 2 * Doubled(RETRY_BASE, k);
      g := ReachedAfter(interval, k + 1);
    }
  }

  lemma ReachedOnce(interval: int, g: nat, h: nat)
    requires ReachesAt(interval, g) && ReachesAt(interval, h)
    ensures g == h
  {
    if g < h {
      DoubledMonotonic(RETRY_BASE, g, h - 1);
    } else if h < g {
      DoubledMonotonic(RETRY_BASE, h, g - 1);
    }
  }

  lemma TurningPoint(interval: int)
    ensures exists g: nat :: ReachesAt(interval, g) && forall h: nat :: ReachesAt(interval, h) ==> h == g
  {
    var g := ReachedAfter(interval, 0);
    forall h: nat | ReachesAt(interval, h)
      ensures h == g
    {
      ReachedOnce(interval, g, h);
    }
  }

  /** The waits of k failures in a row sum to the closed form. */
  lemma {:induction false} WaitsSumToClosedForm(interval: Duration, k: nat, g: nat)
    requires MINUTE <= interval as int <= LONGEST_SAFE && ReachesAt(interval as int, g)
    ensures Sum(FailureWaits(interval, k)) == ClosedForm(interval as int, k, g)
  {
    if k > 0 {
      WaitsSumToClosedForm(interval, k - 1, g);
      var waits := FailureWaits(interval, k);
      assert waits[..|waits| - 1] == FailureWaits(interval, k - 1);
      SafeDelayIsPromised(interval, k);
      NextWait(interval, k, g);
    }
  }

  /** The waits never decrease and never exceed the interval. */
  lemma PromisedGrows(interval: Duration, k: nat)
    requires MINUTE <= interval as int && k > 0
    ensures MINUTE <= Promised(interval, k) <= interval as int
    ensures k > 1 ==> Promised(interval, k - 1) <= Promised(interval, k)
  {
    DoubledMonotonic(RETRY_BASE, 0, k - 1);
    if k > 1 {
      DoubledMonotonic(RETRY_BASE, k - 2, k - 1);
    }
  }

  lemma NextWait(interval: Duration, k: nat, g: nat)
    requires k > 0 && ReachesAt(interval as int, g)
    ensures ClosedForm(interval as int, k, g) == ClosedForm(interval as int, k - 1, g) + Promised(interval, k)
  {
    if k <= g {
      DoubledMonotonic(RETRY_BASE, k - 1, g - 1);
    } else {
      DoubledMonotonic(RETRY_BASE, g, k - 1);
      var x := interval as int;
      assert Repeated(x, k - g) == x + Repeated(x, k - g - 1);
    }
  }
}
