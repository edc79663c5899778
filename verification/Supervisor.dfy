/**
 The crash-loop breaker and backoff of the engine supervisor (internal/engine/supervisor.go).
 The environment is whether the job object that holds the engine can be created, the list of run durations, one per
 crash, and the moment the context is cancelled after the last of them: during the sleep that follows it, or during the
 run after that sleep.
 */
module Supervisor {
  import opened Arith

  datatype EngineState = Stopped | Starting | Running | Restarting | Faulted

  datatype Cancellation = InSleep | InRun

  datatype Options = Options(minBackoff: int, maxBackoff: int, healthyFor: int, maxFastFails: int)

  /** Zero fields take the built-in values (200 ms, 30 s, 15 s, 6). */
  function WithDefaults(o: Options): Options {
    Options(if o.minBackoff == 0 then 200_000_000 else o.minBackoff,
            if o.maxBackoff == 0 then 30_000_000_000 else o.maxBackoff,
            if o.healthyFor == 0 then 15_000_000_000 else o.healthyFor,
            if o.maxFastFails == 0 then 6 else o.maxFastFails)
  }

  predicate Fast(o: Options, duration: int) {
    duration < o.healthyFor
  }

  /** The last n runs were all cut short. */
  predicate AllFast(o: Options, runs: seq<int>, n: nat)
    requires n <= |runs|
  {
    forall k :: |runs| - n <= k < |runs| ==> Fast(o, runs[k])
  }

  /**
   The breaker's condition, in terms of the history alone: the last maxFastFails runs (at least one) were all fast.
   */
  predicate Trips(o: Options, runs: seq<int>) {
    var n := if o.maxFastFails < 1 then 1 else o.maxFastFails;
    n <= |runs| && AllFast(o, runs, n)
  }

  /** Fast runs since the last healthy one. */
  function FastStreak(o: Options, runs: seq<int>): nat {
    if runs == [] || !Fast(o, runs[|runs| - 1]) then 0 else 1 + FastStreak(o, runs[..|runs| - 1])
  }

  /** Sleeps taken since the backoff was last reset, before the sleep that follows the last of these runs. */
  function SleepsSinceReset(o: Options, runs: seq<int>): nat {
    if |runs| <= 1 || !Fast(o, runs[|runs| - 1]) then 0 else 1 + SleepsSinceReset(o, runs[..|runs| - 1])
  }

  /** The sleep after m earlier ones since the reset: doubled each time, capped from the second on. */
  function SleepAfter(o: Options, m: nat): int {
    if m == 0 then o.minBackoff else Min(o.maxBackoff, Doubled(o.minBackoff, m))
  }

  /** The first sleep is not capped: the intended schedule is kept exactly where that makes no difference. */
  lemma SleepIsCappedExactly(o: Options, m: nat)
    ensures SleepAfter(o, m) == Min(o.maxBackoff, Doubled(o.minBackoff, m)) <==> o.minBackoff <= o.maxBackoff || m > 0
  {
    if m == 0 {
      assert Doubled(o.minBackoff, m) == o.minBackoff;
    }
  }

  /** The sleeps that follow each run of a history. */
  function SleepsOf(o: Options, runs: seq<int>): seq<int> {
    if runs == [] then []
    else SleepsOf(o, runs[..|runs| - 1]) + [SleepAfter(o, SleepsSinceReset(o, runs))]
  }

  lemma {:induction false} StreakIsAllFast(o: Options, runs: seq<int>, n: nat)
    requires n <= |runs|
    ensures FastStreak(o, runs) >= n <==> AllFast(o, runs, n)
  {
    if n > 0 {
      var front := runs[..|runs| - 1];
      StreakIsAllFast(o, front, n - 1);
      if Fast(o, runs[|runs| - 1]) && AllFast(o, front, n - 1) {
        forall k | |runs| - n <= k < |runs|
          ensures Fast(o, runs[k])
        {
          if k < |runs| - 1 {
            assert runs[k] == front[k];
          }
        }
      }
      if AllFast(o, runs, n) {
        forall k | |front| - (n - 1) <= k < |front|
          ensures Fast(o, front[k])
        {
          assert front[k] == runs[k];
        }
      }
    }
  }

  lemma {:induction false} StreakBound(o: Options, runs: seq<int>)
    ensures FastStreak(o, runs) <= |runs|
  {
    if runs != [] {
      StreakBound(o, runs[..|runs| - 1]);
    }
  }

  lemma DoublingStep(o: Options, m: nat, backoff: int)
    requires 0 <= o.maxBackoff
    requires backoff == SleepAfter(o, m)
    ensures SleepAfter(o, m + 1) == if 2 * backoff > o.maxBackoff then o.maxBackoff else 2 * backoff
  {
    assert Doubled(o.minBackoff, m + 1) == 2 * Doubled(o.minBackoff, m);
    if m == 0 {
      assert Doubled(o.minBackoff, m) == o.minBackoff;
    }
  }

  class EngineSupervisor {
    const opts: Options
    var state: EngineState

    constructor (o: Options)
      ensures opts == WithDefaults(o) && state == Stopped
    {
      opts := WithDefaults(o);
      state := Stopped;
    }

    /**
     Supervises until the breaker trips or the context is cancelled. Without a job object it faults before anything is
     started. Otherwise it faults exactly at the first history the breaker's condition holds for, whenever it is
     cancelled otherwise; each sleep that is begun, the one cut short by the cancellation included, is determined by the
     sleeps since the last reset.
     */
    method Run(job: bool, runs: seq<int>, cancelled: Cancellation) returns (sleeps: seq<int>, used: nat)
      requires 0 <= opts.maxBackoff
      modifies this
      ensures used <= |runs|
      ensures !job ==> state == Faulted && used == 0 && sleeps == []
      ensures forall k :: 0 <= k < used ==> !Trips(opts, runs[..k])
      ensures job ==> (state == Faulted <==> Trips(opts, runs[..used]))
      ensures state != Faulted ==> state == Stopped && used == |runs|
      ensures job && state == Faulted ==> used > 0
      ensures job ==> sleeps == SleepsOf(opts, runs[..if state == Faulted then used - 1 else used])
    {
      if !job {
        state := Faulted;
        return [], 0;
      }
      var backoff := opts.minBackoff;
      var fastFails := 0;
      sleeps := [];
      used := 0;
      while used < |runs|
        invariant used <= |runs|
        invariant fastFails == FastStreak(opts, runs[..used])
        invariant forall k :: 0 <= k <= used ==> !Trips(opts, runs[..k])
        invariant sleeps == SleepsOf(opts, runs[..used])
        invariant used == 0 ==> backoff == opts.minBackoff
        invariant used > 0 ==> backoff == SleepAfter(opts, SleepsSinceReset(opts, runs[..used]) + 1)
      {
        state := Starting;
        var duration := runs[used];
        ghost var front := runs[..used];
        ghost var history := runs[..used + 1];
        assert history[..|history| - 1] == front && history[used] == duration;
        used := used + 1;
        StreakBound(opts, history);
        BreakerCondition(opts, history);
        if duration >= opts.healthyFor {
          backoff := opts.minBackoff;
          fastFails := 0;
        } else {
          fastFails := fastFails + 1;
          if fastFails >= opts.maxFastFails {
            state := Faulted;
            return;
          }
        }
        state := Restarting;
        sleeps := sleeps + [backoff];
        if used == |runs| && cancelled.InSleep? {
          state := Stopped;
          return;
        }
        DoublingStep(opts, SleepsSinceReset(opts, history), backoff);
        backoff := 2 * backoff;
        if backoff > opts.maxBackoff {
          backoff := opts.maxBackoff;
        }
      }
      state := Starting;
      assert runs[..used] == runs;
      state := Stopped;
    }
  }

  /** Counting consecutive fast runs is the same as looking at the last maxFastFails of them. */
  lemma BreakerCondition(o: Options, runs: seq<int>)
    requires runs != []
    ensures Trips(o, runs) <==> Fast(o, runs[|runs| - 1]) && FastStreak(o, runs) >= o.maxFastFails
  {
    var n := if o.maxFastFails < 1 then 1 else o.maxFastFails;
    StreakBound(o, runs);
    if n <= |runs| {
      StreakIsAllFast(o, runs, n);
    }
  }

  // ---- how long a crash loop can last

  lemma {:induction false} StreakSleeps(o: Options, runs: seq<int>)
    ensures FastStreak(o, runs) < |runs| ==> SleepsSinceReset(o, runs) == FastStreak(o, runs)
    ensures FastStreak(o, runs) == |runs| && runs != [] ==> SleepsSinceReset(o, runs) == |runs| - 1
  {
    if |runs| > 1 && Fast(o, runs[|runs| - 1]) {
      StreakSleeps(o, runs[..|runs| - 1]);
      StreakBound(o, runs[..|runs| - 1]);
    }
  }

  lemma {:induction false} SleepsOfAt(o: Options, runs: seq<int>, j: nat)
    requires j < |runs|
    ensures |SleepsOf(o, runs)| == |runs|
    ensures SleepsOf(o, runs)[j] == SleepAfter(o, SleepsSinceReset(o, runs[..j + 1]))
  {
    var front := runs[..|runs| - 1];
    if j < |front| {
      SleepsOfAt(o, front, j);
      assert front[..j + 1] == runs[..j + 1];
    } else {
      assert runs[..j + 1] == runs;
      if front != [] {
        SleepsOfAt(o, front, 0);
      }
    }
  }

  /** The sleeps since the last reset, the one that follows the last run included. */
  function SleptSinceReset(o: Options, runs: seq<int>): int {
    SleepAfter(o, SleepsSinceReset(o, runs))
    + if SleepsSinceReset(o, runs) == 0 then 0 else SleptSinceReset(o, runs[..|runs| - 1])
  }

  lemma {:induction false} SleptIsGeometric(o: Options, runs: seq<int>)
    requires 0 <= o.minBackoff <= o.maxBackoff
    ensures SleptSinceReset(o, runs) <= Doubled(o.minBackoff, SleepsSinceReset(o, runs) + 1) - o.minBackoff
  {
    var m := SleepsSinceReset(o, runs);
    if m > 0 {
      SleptIsGeometric(o, runs[..|runs| - 1]);
    }
  }

  lemma {:induction false} SleptIsASum(o: Options, runs: seq<int>)
    requires runs != []
    ensures SleepsSinceReset(o, runs) < |runs| == |SleepsOf(o, runs)|
    ensures SleptSinceReset(o, runs) == Sum(SleepsOf(o, runs)[|runs| - 1 - SleepsSinceReset(o, runs)..])
  {
    SleepsOfAt(o, runs, 0);
    var front, all, m := runs[..|runs| - 1], SleepsOf(o, runs), SleepsSinceReset(o, runs);
    if m == 0 {
      var part := all[|runs| - 1..];
      assert part[..0] == [];
    } else {
      SleptIsASum(o, front);
      var part := all[|runs| - 1 - m..];
      assert part[..|part| - 1] == SleepsOf(o, front)[|front| - 1 - (m - 1)..];
    }
  }

  /** A run of at least HealthyFor forgives all that went before: it does not trip, and the backoff starts over. */
  lemma HealthyRunResets(o: Options, runs: seq<int>, duration: int)
    requires duration >= o.healthyFor
    ensures !Trips(o, runs + [duration]) && SleepAfter(o, SleepsSinceReset(o, runs + [duration])) == o.minBackoff
    ensures FastStreak(o, runs + [duration]) == 0
  {
    var all := runs + [duration];
    assert all[|all| - 1] == duration;
    BreakerCondition(o, all);
  }

  /** A shorter one adds to the streak and to the backoff. */
  lemma ShortRunCounts(o: Options, runs: seq<int>, duration: int)
    requires duration < o.healthyFor
    ensures FastStreak(o, runs + [duration]) == FastStreak(o, runs) + 1
    ensures SleepsSinceReset(o, runs + [duration]) == if runs == [] then 0 else SleepsSinceReset(o, runs) + 1
  {
    var all := runs + [duration];
    assert all[|all| - 1] == duration && all[..|all| - 1] == runs;
  }

  /** At the fault the streak is exactly the limit, so the run before it, if any, was the last healthy one. */
  lemma FirstTripStreak(o: Options, runs: seq<int>)
    requires o.maxFastFails >= 1
    requires Trips(o, runs) && !Trips(o, runs[..|runs| - 1])
    ensures FastStreak(o, runs) == o.maxFastFails
    ensures |runs| > o.maxFastFails ==> !Fast(o, runs[|runs| - 1 - o.maxFastFails])
  {
    var before, n := runs[..|runs| - 1], o.maxFastFails;
    BreakerCondition(o, runs);
    StreakBound(o, before);
    if before != [] {
      BreakerCondition(o, before);
    }
    if |runs| > n {
      StreakIsAllFast(o, runs, n);
      StreakIsAllFast(o, runs, n + 1);
    }
  }

  /** From the last healthy crash to the fault the supervisor sleeps at most minBackoff * (2^maxFastFails - 1). */
  lemma CrashLoopIsShort(o: Options, runs: seq<int>)
    requires 0 <= o.minBackoff <= o.maxBackoff && o.maxFastFails >= 1
    requires Trips(o, runs) && !Trips(o, runs[..|runs| - 1])
    ensures var sleeps := SleepsOf(o, runs[..|runs| - 1]);
            var from := Max(0, |runs| - 1 - o.maxFastFails); // the last healthy crash, or the start
            from <= |sleeps| && Sum(sleeps[from..]) <= Doubled(o.minBackoff, o.maxFastFails) - o.minBackoff
  {
    var before, n := runs[..|runs| - 1], o.maxFastFails;
    FirstTripStreak(o, runs);
    assert FastStreak(o, before) == n - 1;
    DoubledMonotonic(o.minBackoff, 0, n);
    if before != [] {
      BeforeTheFault(o, before, n);
    }
  }

  lemma BeforeTheFault(o: Options, before: seq<int>, n: nat)
    requires 0 <= o.minBackoff <= o.maxBackoff && n >= 1
    requires before != [] && FastStreak(o, before) == n - 1
    ensures |SleepsOf(o, before)| == |before|
    ensures Sum(SleepsOf(o, before)[Max(0, |before| - n)..]) <= Doubled(o.minBackoff, n) - o.minBackoff
  {
    StreakBound(o, before);
    StreakSleeps(o, before);
    SleptIsASum(o, before);
    SleptIsBounded(o, before, n);
    assert |before| - 1 - SleepsSinceReset(o, before) == Max(0, |before| - n);
  }

  lemma SleptIsBounded(o: Options, runs: seq<int>, n: nat)
    requires 0 <= o.minBackoff <= o.maxBackoff && SleepsSinceReset(o, runs) + 1 <= n
    ensures SleptSinceReset(o, runs) <= Doubled(o.minBackoff, n) - o.minBackoff
  {
    var m := SleepsSinceReset(o, runs) + 1;
    SleptIsGeometric(o, runs);
    DoubledMonotonic(o.minBackoff, m, n);
  }
}
