/** How many restarts a guarded log can hold in any stretch of time. */
module Budget {
  import opened Wrappers
  import opened PolicyTypes
  import opened Breaker
  import opened Trail

  /** Consecutive restarts of one version under one positive limit. */
  ghost predicate Steady(t: Trail, lo: nat, hi: nat, version: string, window: int, max: int) {
    && lo <= hi <= |t| && max > 0
    && forall i :: lo <= i < hi ==>
         t[i].rec.version == version && t[i].limits.window == window && t[i].limits.max == max
  }

  /** The bookkeeping right after restart i. */
  function After(t: Trail, i: nat): Bookkeeping
    requires i < |t|
  {
    Replay(t[..i + 1])
  }

  lemma {:induction false} GuardedPrefix(t: Trail, n: nat)
    requires Guarded(t) && n <= |t|
    ensures Guarded(t[..n])
    decreases |t|
  {
    if n < |t| {
      GuardedPrefix(t[..|t| - 1], n);
      assert t[..|t| - 1][..n] == t[..n];
    } else {
      assert t[..n] == t;
    }
  }

  lemma PrefixStep(t: Trail, i: nat)
    requires Guarded(t) && i < |t|
    ensures Guarded(t[..i + 1])
    ensures After(t, i) == Rolled(Replay(t[..i]), t[i].rec.version, TimeAt(t, i), t[i].limits.window)
    ensures Admitted(Replay(t[..i]), t[i].rec.version, TimeAt(t, i), t[i].limits)
  {
    hide Admitted, Rolled;
    GuardedPrefix(t, i + 1);
    assert t[..i + 1][..i] == t[..i];
  }

  /** One restart, seen from the bookkeeping before it. */
  lemma RestartStep(t: Trail, i: nat)
    requires Guarded(t) && i < |t|
    ensures After(t, i) == Rolled(Replay(t[..i]), t[i].rec.version, TimeAt(t, i), t[i].limits.window)
    ensures After(t, i).windowStart.Some? && After(t, i).version == t[i].rec.version
    ensures 1 <= After(t, i).restartCount
    ensures After(t, i).restartCount == 1 ==> After(t, i).windowStart == Some(TimeAt(t, i))
    ensures t[i].limits.max > 0 ==> After(t, i).restartCount <= t[i].limits.max
  {
    hide Admitted, Rolled, Guarded, Replay;
    PrefixStep(t, i);
    var u := t[..i + 1];
    ReplayShape(u);
    assert u[|u| - 1] == t[i];
    if t[i].limits.max > 0 {
      CountWithinMax(Replay(t[..i]), t[i].rec.version, TimeAt(t, i), t[i].limits);
    }
  }

  lemma CountWithinMax(b: Bookkeeping, version: string, now: int, l: Limits)
    requires Admitted(b, version, now, l) && l.max > 0
    ensures Rolled(b, version, now, l.window).restartCount <= l.max
  {
  }

  /** Between restarts of one version, the window rolls over exactly when it has aged out. */
  lemma RollsOnlyByAge(t: Trail, i: nat)
    requires Guarded(t) && 0 < i < |t| && t[i].rec.version == t[i - 1].rec.version
    ensures var before, after := After(t, i - 1), After(t, i);
            if TimeAt(t, i) - before.windowStart.value >= t[i].limits.window
            then after.windowStart == Some(TimeAt(t, i)) && after.restartCount == 1
            else after.windowStart == before.windowStart && after.restartCount == before.restartCount + 1
  {
    hide Admitted, Replay, Guarded;
    RestartStep(t, i - 1);
    RestartStep(t, i);
  }

  lemma {:induction false} WindowStartsOrdered(t: Trail, lo: nat, hi: nat, version: string, window: int, max: int,
                                               i: nat, j: nat)
    requires Guarded(t) && Steady(t, lo, hi, version, window, max) && window > 0
    requires lo <= i <= j < hi
    ensures After(t, i).windowStart.Some? && After(t, j).windowStart.Some?
    ensures After(t, i).windowStart.value <= After(t, j).windowStart.value
    ensures After(t, i).windowStart == After(t, j).windowStart ==>
              After(t, j).restartCount == After(t, i).restartCount + (j - i)
    decreases j
  {
    hide After, Guarded;
    RestartStep(t, j);
    if i < j {
      WindowStartsOrdered(t, lo, hi, version, window, max, i, j - 1);
      RollsOnlyByAge(t, j);
    }
  }

  /** One breaker window holds at most max restarts: only an interval across two windows can hold more. */
  lemma WindowHoldsMax(t: Trail, lo: nat, hi: nat, version: string, window: int, max: int, i: nat, j: nat)
    requires Guarded(t) && Steady(t, lo, hi, version, window, max) && window > 0
    requires lo <= i <= j < hi && After(t, i).windowStart == After(t, j).windowStart
    ensures j - i + 1 <= max
  {
    hide After, Guarded;
    WindowStartsOrdered(t, lo, hi, version, window, max, i, j);
    RestartStep(t, i);
    RestartStep(t, j);
  }

  /** From restart i on, the log rolls over at most once within one window length. */
  lemma {:induction false} Span(t: Trail, lo: nat, hi: nat, version: string, window: int, max: int, i: nat, j: nat)
    requires Guarded(t) && Steady(t, lo, hi, version, window, max)
    requires lo <= i <= j < hi && TimeAt(t, j) < TimeAt(t, i) + window
    ensures var p, q := After(t, i), After(t, j);
            || (q.windowStart == p.windowStart && q.restartCount == p.restartCount + (j - i))
            || (q.windowStart.Some? && q.windowStart.value >= TimeAt(t, i) && j - i + 1 <= q.restartCount + max - 1)
    decreases j
  {
    hide After, Guarded;
    if i < j {
      TimesOrdered(t, j - 1, j);
      TimesOrdered(t, i, j);
      Span(t, lo, hi, version, window, max, i, j - 1);
      RollsOnlyByAge(t, j);
      RestartStep(t, i);
      RestartStep(t, j - 1);
    }
  }

  lemma PairBudget(t: Trail, lo: nat, hi: nat, version: string, window: int, max: int, i: nat, j: nat)
    requires Guarded(t) && Steady(t, lo, hi, version, window, max)
    requires lo <= i <= j < hi && TimeAt(t, j) < TimeAt(t, i) + window
    ensures j - i + 1 <= 2 * max - 1
  {
    hide After, Guarded;
    Span(t, lo, hi, version, window, max, i, j);
    RestartStep(t, i);
    RestartStep(t, j);
  }

  predicate InInterval(t: Trail, i: nat, from: int, window: int)
    requires i < |t|
  {
    from <= TimeAt(t, i) < from + window
  }

  /** How many restarts of t[lo..hi] fall in the half-open interval [from, from + window). */
  function CountIn(t: Trail, lo: nat, hi: nat, from: int, window: int): nat
    requires hi <= |t|
    decreases hi
  {
    if hi <= lo then 0
    else CountIn(t, lo, hi - 1, from, window) + if InInterval(t, hi - 1, from, window) then 1 else 0
  }

  lemma {:induction false} CountFromFirst(t: Trail, lo: nat, hi: nat, first: nat, from: int, window: int)
    requires lo <= first <= hi <= |t|
    requires forall k :: lo <= k < first ==> !InInterval(t, k, from, window)
    ensures CountIn(t, lo, hi, from, window) <= hi - first
    decreases hi
  {
    if first < hi {
      CountFromFirst(t, lo, hi - 1, first, from, window);
    } else if lo < hi {
      CountFromFirst(t, lo, hi - 1, hi - 1, from, window);
    }
  }

  /** Any interval as long as the window holds at most 2*max - 1 restarts of one version. */
  lemma {:induction false} SlidingBudget(t: Trail, lo: nat, hi: nat, version: string, window: int, max: int, from: int)
    requires Guarded(t) && Steady(t, lo, hi, version, window, max)
    ensures CountIn(t, lo, hi, from, window) <= 2 * max - 1
    decreases hi
  {
    hide Guarded;
    if lo < hi {
      if !InInterval(t, hi - 1, from, window) {
        SlidingBudget(t, lo, hi - 1, version, window, max, from);
      } else {
        var first := lo;
        while !InInterval(t, first, from, window)
          invariant lo <= first < hi
          invariant forall k :: lo <= k < first ==> !InInterval(t, k, from, window)
          decreases hi - first
        {
          first := first + 1;
        }
        CountFromFirst(t, lo, hi, first, from, window);
        PairBudget(t, lo, hi, version, window, max, first, hi - 1);
      }
    }
  }

  /** Of those, the restarts whose patch reached the cluster. */
  function DispatchedIn(t: Trail, lo: nat, hi: nat, from: int, window: int): nat
    requires hi <= |t|
    decreases hi
  {
    if hi <= lo then 0
    else DispatchedIn(t, lo, hi - 1, from, window)
         + if InInterval(t, hi - 1, from, window) && t[hi - 1].dispatched then 1 else 0
  }

  lemma {:induction false} DispatchedAreCounted(t: Trail, lo: nat, hi: nat, from: int, window: int)
    requires hi <= |t|
    ensures DispatchedIn(t, lo, hi, from, window) <= CountIn(t, lo, hi, from, window)
    decreases hi
  {
    if lo < hi { DispatchedAreCounted(t, lo, hi - 1, from, window); }
  }

  /** Restarts are at least the later one's cooldown apart. */
  lemma CooldownSpacing(t: Trail, i: nat, j: nat)
    requires Guarded(t) && i < j < |t|
    ensures TimeAt(t, j) - TimeAt(t, i) >= t[j].limits.cooldown
  {
    TimesOrdered(t, i, j);
  }

  // ---- The bound is attained ----------------------------------------------------------------

  /** One restart at 0, then 2*max - 1 of them a second apart around the end of the first window. */
  function TightTime(max: int, window: int, i: nat): int { if i == 0 then 0 else window - max + i }

  function TightEntry(max: int, window: int, i: nat): Entry {
    Entry(Record(TightTime(max, window, i), None, Cause("app", 0, 0), "v1", InProgress), Limits(1, window, max), true)
  }

  function TightLog(max: int, window: int, n: nat): Trail { seq(n, i requires 0 <= i => TightEntry(max, window, i)) }

  lemma {:induction false} TightIsGuarded(max: int, window: int, n: nat)
    requires max > 0 && window >= 2 * max - 1 && n <= 2 * max
    ensures Guarded(TightLog(max, window, n))
    ensures n > 0 ==>
              Replay(TightLog(max, window, n)) ==
              Bookkeeping(Some(TightTime(max, window, n - 1)), if n <= max then n else n - max,
                          Some(if n <= max then 0 else window), "v1")
  {
    if n > 0 {
      TightIsGuarded(max, window, n - 1);
      assert TightLog(max, window, n) == TightLog(max, window, n - 1) + [TightEntry(max, window, n - 1)];
      LogExtends(TightLog(max, window, n - 1), TightEntry(max, window, n - 1));
    }
  }

  lemma {:induction false} TightCount(max: int, window: int, n: nat)
    requires max > 0 && window >= 2 * max - 1 && 1 <= n <= 2 * max
    ensures CountIn(TightLog(max, window, 2 * max), 0, n, window - max + 1, window) == n - 1
  {
    if n > 1 { TightCount(max, window, n - 1); }
  }

  /** For every max and every window with room for it, 2*max - 1 restarts of one version fit one window length. */
  lemma BudgetIsTight(max: int, window: int)
    requires max > 0 && window >= 2 * max - 1
    ensures var t := TightLog(max, window, 2 * max);
            && Guarded(t) && Steady(t, 0, 2 * max, "v1", window, max)
            && CountIn(t, 0, 2 * max, window - max + 1, window) == 2 * max - 1
  {
    TightIsGuarded(max, window, 2 * max);
    TightCount(max, window, 2 * max);
  }
}
