/** The bounded per-container sample store of internal/sampling/buffer.go, and what its trimming loses. */
module SeriesStore {
  import opened Wrappers
  import opened Detection

  datatype Key = Key(namespace: string, pod: string, container: string)

  /** A container's retained samples and the restart count seen with the newest. */
  datatype Series = Series(samples: seq<Sample>, lastRestarts: int)

  datatype Bounds = Bounds(retention: int, maxLen: int)

  /** What one Observe call is given. */
  datatype Reading = Reading(sample: Sample, restarts: int)

  // ---- One observation -----------------------------------------------------------

  /** How many samples at the front are older than the cutoff. */
  function StalePrefix(s: seq<Sample>, cutoff: int): (n: nat)
    ensures n <= |s|
    ensures forall i :: 0 <= i < n ==> s[i].time < cutoff
    ensures n < |s| ==> s[n].time >= cutoff
  {
    if s == [] || s[0].time >= cutoff then 0 else 1 + StalePrefix(s[1..], cutoff)
  }

  function DropCount(s: seq<Sample>, cutoff: int, maxLen: int): (n: nat)
    requires maxLen >= 0
    ensures n <= |s|
  {
    var stale := StalePrefix(s, cutoff);
    if |s| - maxLen > stale then |s| - maxLen else stale
  }

  lemma DropCountIs(s: seq<Sample>, cutoff: int, maxLen: int, n: nat)
    requires maxLen >= 0 && n <= |s| && forall i :: 0 <= i < n ==> s[i].time < cutoff
    requires n < |s| ==> s[n].time >= cutoff
    ensures DropCount(s, cutoff, maxLen) == if |s| - maxLen > n then |s| - maxLen else n
  {
  }

  /** The untrimmed series: a count increase drops the older samples first. */
  function Appended(ser: Option<Series>, r: Reading): seq<Sample> {
    (if ser.Some? && r.restarts <= ser.value.lastRestarts then ser.value.samples else []) + [r.sample]
  }

  /** The series after one reading: reset on a count increase, append, shift the front out. */
  function Observed(ser: Option<Series>, r: Reading, b: Bounds): Series
    requires b.maxLen >= 0
  {
    var all := Appended(ser, r);
    Series(all[DropCount(all, r.sample.time - b.retention, b.maxLen)..], r.restarts)
  }

  function At(data: map<Key, Series>, key: Key): Option<Series> {
    if key in data then Some(data[key]) else None
  }

  function Covered(ser: Option<Series>, window: int, now: int): bool {
    ser.Some? && WindowCovered(ser.value.samples, window, now)
  }

  class Store {
    var data: map<Key, Series>
    const bounds: Bounds

    constructor (retention: int, maxLen: int)
      ensures data == map[]
      ensures bounds == Bounds(retention, if maxLen < 2 then 2 else maxLen)
    {
      data := map[];
      bounds := Bounds(retention, if maxLen < 2 then 2 else maxLen);
    }

    ghost predicate Valid() { bounds.maxLen >= 2 }

    method Observe(key: Key, sample: Sample, restartCount: int)
      requires Valid()
      modifies this`data
      ensures data == old(data)[key := Observed(At(old(data), key), Reading(sample, restartCount), bounds)]
    {
      hide StalePrefix, DropCount;
      var ser := if key in data then data[key] else Series([], restartCount);
      if restartCount > ser.lastRestarts {
        ser := ser.(samples := []);
      }
      ser := ser.(lastRestarts := restartCount);
      ser := ser.(samples := ser.samples + [sample]);
      ghost var all := Appended(At(data, key), Reading(sample, restartCount));
      assert ser.samples == all;
      var drop := FrontToDrop(ser.samples, sample.time - bounds.retention);
      if drop > 0 {
        ser := ser.(samples := ser.samples[drop..]);
      }
      assert ser.samples == all[drop..];
      data := data[key := ser];
    }

    /** The samples at the front that are too old, or more if the series is still too long. */
    method FrontToDrop(samples: seq<Sample>, cutoff: int) returns (drop: nat)
      requires Valid()
      ensures drop == DropCount(samples, cutoff, bounds.maxLen)
    {
      drop := 0;
      while drop < |samples| && samples[drop].time < cutoff
        invariant 0 <= drop <= |samples|
        invariant forall i :: 0 <= i < drop ==> samples[i].time < cutoff
      {
        drop := drop + 1;
      }
      DropCountIs(samples, cutoff, bounds.maxLen, drop);
      var over := |samples| - bounds.maxLen;
      if over > drop {
        drop := over;
      }
    }

    method IsCovered(key: Key, window: int, now: int) returns (covered: bool)
      ensures covered == Covered(At(data, key), window, now)
    {
      if key !in data || |data[key].samples| < 2 {
        return false;
      }
      return data[key].samples[0].time <= now - window;
    }

    method Samples(key: Key) returns (out: seq<Sample>)
      ensures out == if key in data then data[key].samples else []
    {
      if key !in data {
        return [];
      }
      return data[key].samples;
    }

    /** Evicts every series whose key is not live; returns how many are kept. */
    method Prune(live: set<Key>) returns (kept: nat)
      modifies this`data
      ensures data == map k | k in old(data) && k in live :: old(data)[k]
      ensures kept == |data|
    {
      var pending := data.Keys;
      while pending != {}
        invariant pending <= data.Keys <= old(data).Keys
        invariant forall k :: k in data ==> data[k] == old(data)[k]
        invariant forall k :: k in old(data).Keys && k !in data ==> k !in live
        invariant forall k :: k in data && k !in pending ==> k in live
        decreases pending
      {
        var k :| k in pending;
        pending := pending - {k};
        if k !in live {
          data := data - {k};
        }
      }
      return |data|;
    }
  }

  // ---- The unbounded log -----------------------------------------------------------

  /** The samples since the last increase of the restart count. */
  function SinceBump(log: seq<Reading>): seq<Sample> {
    if log == [] then []
    else
      var n := |log| - 1;
      (if n > 0 && log[n].restarts <= log[n - 1].restarts then SinceBump(log[..n]) else []) + [log[n].sample]
  }

  /** The series after a run of readings of one container. */
  function Replay(log: seq<Reading>, b: Bounds): (ser: Option<Series>)
    requires b.maxLen >= 0
    ensures log == [] <==> ser.None?
    ensures log != [] ==> ser.value.lastRestarts == log[|log| - 1].restarts
  {
    if log == [] then None
    else Some(Observed(Replay(log[..|log| - 1], b), log[|log| - 1], b))
  }

  ghost predicate TimesOrdered(log: seq<Reading>) {
    forall i, j :: 0 <= i < j < |log| ==> log[i].sample.time <= log[j].sample.time
  }

  ghost predicate TimesIncrease(log: seq<Reading>) {
    forall i, j :: 0 <= i < j < |log| ==> log[i].sample.time < log[j].sample.time
  }

  ghost predicate SamplesOrdered(s: seq<Sample>) {
    forall i, j :: 0 <= i < j < |s| ==> s[i].time <= s[j].time
  }

  /** Sample i of the log is within both bounds, seen from the newest sample. */
  ghost predicate InBounds(s: seq<Sample>, i: nat, b: Bounds)
    requires i < |s|
  {
    s[i].time >= s[|s| - 1].time - b.retention && |s| - i <= b.maxLen
  }

  /** r is the tail of s made of exactly the samples within both bounds. */
  ghost predicate KeepsExactly(s: seq<Sample>, r: seq<Sample>, b: Bounds) {
    |r| <= |s| && r == s[|s| - |r|..] && forall i: nat :: i < |s| ==> (i >= |s| - |r| <==> InBounds(s, i, b))
  }

  lemma {:induction false} SinceBumpIsTail(log: seq<Reading>)
    ensures |SinceBump(log)| <= |log|
    ensures forall i :: 0 <= i < |SinceBump(log)| ==>
              SinceBump(log)[i] == log[|log| - |SinceBump(log)| + i].sample
  {
    if log != [] { SinceBumpIsTail(log[..|log| - 1]); }
  }

  /** On a time-ordered series, dropping the front keeps exactly the samples within both bounds. */
  lemma TrimKeepsExactly(all: seq<Sample>, b: Bounds)
    requires b.maxLen >= 1 && SamplesOrdered(all) && all != []
    ensures KeepsExactly(all, all[DropCount(all, all[|all| - 1].time - b.retention, b.maxLen)..], b)
  {
    hide StalePrefix;
    var cutoff := all[|all| - 1].time - b.retention;
    var stale := StalePrefix(all, cutoff);
    forall i: nat | i < |all| ensures all[i].time >= cutoff <==> i >= stale {
      if i >= stale { assert all[stale].time <= all[i].time; }
    }
  }

  /** Samples already dropped stay out of bounds when a newer sample arrives. */
  lemma DroppedStayOut(s: seq<Sample>, r: seq<Sample>, x: Sample, out: seq<Sample>, b: Bounds)
    requires SamplesOrdered(s + [x])
    requires s == [] ==> r == []
    requires s != [] ==> KeepsExactly(s, r, b)
    requires KeepsExactly(r + [x], out, b)
    ensures KeepsExactly(s + [x], out, b)
  {
    hide InBounds, SamplesOrdered, KeepsExactly;
    var all, whole := r + [x], s + [x];
    var cut := |s| - |r|;
    if s != [] { KeptTail(s, r, b); }
    KeptTail(all, out, b);
    assert whole[cut..] == all by { TailExtends(s, r, x); }
    TailOfTail(whole, all, out);
    forall i: nat | i < |whole| ensures i >= |whole| - |out| <==> InBounds(whole, i, b) {
      if i < cut {
        Kept(s, r, b, i);
        OldStaysOut(s, x, i, b);
      } else {
        Kept(all, out, b, i - cut);
        BoundsOfTail(whole, cut, i, b);
      }
    }
    AllKept(whole, out, b);
  }

  lemma KeptTail(s: seq<Sample>, r: seq<Sample>, b: Bounds)
    requires KeepsExactly(s, r, b)
    ensures |r| <= |s| && r == s[|s| - |r|..]
  {
  }

  lemma Kept(s: seq<Sample>, r: seq<Sample>, b: Bounds, i: nat)
    requires KeepsExactly(s, r, b) && i < |s|
    ensures i >= |s| - |r| <==> InBounds(s, i, b)
  {
  }

  lemma AllKept(s: seq<Sample>, r: seq<Sample>, b: Bounds)
    requires |r| <= |s| && r == s[|s| - |r|..]
    requires forall i: nat :: i < |s| ==> (i >= |s| - |r| <==> InBounds(s, i, b))
    ensures KeepsExactly(s, r, b)
  {
  }

  lemma TailExtends(s: seq<Sample>, r: seq<Sample>, x: Sample)
    requires |r| <= |s| && r == s[|s| - |r|..]
    ensures (s + [x])[|s| - |r|..] == r + [x]
  {
  }

  lemma TailOfTail(whole: seq<Sample>, all: seq<Sample>, out: seq<Sample>)
    requires |out| <= |all| <= |whole|
    requires all == whole[|whole| - |all|..] && out == all[|all| - |out|..]
    ensures out == whole[|whole| - |out|..]
  {
  }

  lemma BoundsOfTail(s: seq<Sample>, cut: nat, i: nat, b: Bounds)
    requires cut <= i < |s|
    ensures InBounds(s, i, b) <==> InBounds(s[cut..], i - cut, b)
  {
  }

  lemma OldStaysOut(s: seq<Sample>, x: Sample, i: nat, b: Bounds)
    requires i < |s| && SamplesOrdered(s + [x]) && !InBounds(s, i, b)
    ensures !InBounds(s + [x], i, b)
  {
    var whole := s + [x];
    assert whole[i] == s[i] && whole[|s| - 1] == s[|s| - 1] && whole[|s|] == x;
    assert whole[|s| - 1].time <= whole[|s|].time;
  }

  lemma TailOrdered(s: seq<Sample>, r: seq<Sample>, x: Sample, b: Bounds)
    requires SamplesOrdered(s + [x])
    requires s == [] ==> r == []
    requires s != [] ==> KeepsExactly(s, r, b)
    ensures SamplesOrdered(r + [x])
  {
    var all, cut := r + [x], |s| - |r|;
    assert (s + [x])[cut..] == all;
    assert forall i :: 0 <= i < |all| ==> all[i] == (s + [x])[cut + i];
  }

  /** Trimming an already trimmed series after one more sample is trimming the whole log. */
  lemma TrimStep(s: seq<Sample>, r: seq<Sample>, x: Sample, b: Bounds)
    requires b.maxLen >= 1 && SamplesOrdered(s + [x])
    requires s == [] ==> r == []
    requires s != [] ==> KeepsExactly(s, r, b)
    ensures var all := r + [x];
            KeepsExactly(s + [x], all[DropCount(all, x.time - b.retention, b.maxLen)..], b)
  {
    hide DropCount, KeepsExactly, SamplesOrdered;
    var all := r + [x];
    assert all[|all| - 1] == x;
    TailOrdered(s, r, x, b);
    TrimKeepsExactly(all, b);
    DroppedStayOut(s, r, x, all[DropCount(all, x.time - b.retention, b.maxLen)..], b);
  }

  lemma SinceBumpOrdered(log: seq<Reading>)
    requires TimesOrdered(log)
    ensures SamplesOrdered(SinceBump(log))
  {
    hide SinceBump;
    SinceBumpIsTail(log);
  }

  lemma TailKeepsOrder(s: seq<Sample>, r: seq<Sample>)
    requires SamplesOrdered(s) && |r| <= |s| && r == s[|s| - |r|..]
    ensures SamplesOrdered(r)
  {
  }

  /** Observe refines a batch trim of the log since the last count increase. */
  lemma {:induction false} StoreKeepsExactly(log: seq<Reading>, b: Bounds)
    requires b.maxLen >= 1 && TimesOrdered(log) && log != []
    ensures KeepsExactly(SinceBump(log), Replay(log, b).value.samples, b)
  {
    hide StalePrefix, DropCount, KeepsExactly, SamplesOrdered;
    var n := |log| - 1;
    var before, x := log[..n], log[n];
    SinceBumpOrdered(log);
    if n > 0 && x.restarts <= log[n - 1].restarts {
      StoreKeepsExactly(before, b);
      assert before[n - 1] == log[n - 1];
      TrimStep(SinceBump(before), Replay(before, b).value.samples, x.sample, b);
    } else {
      assert SinceBump(log) == [] + [x.sample];
      if n > 0 { assert Replay(before, b).value.lastRestarts == before[n - 1].restarts; }
      TrimStep([], [], x.sample, b);
    }
  }

  /** The kept series is non-empty, in time order, and within both bounds. */
  lemma {:induction false} SeriesWithinBounds(log: seq<Reading>, b: Bounds)
    requires b.maxLen >= 1 && b.retention >= 0 && TimesOrdered(log) && log != []
    ensures var r := Replay(log, b).value.samples;
            && 0 < |r| <= b.maxLen && SamplesOrdered(r)
            && r[|r| - 1] == log[|log| - 1].sample
            && forall s :: s in r ==> s.time >= r[|r| - 1].time - b.retention
  {
    hide Replay, SinceBump, KeepsExactly, SamplesOrdered;
    var s, r := SinceBump(log), Replay(log, b).value.samples;
    StoreKeepsExactly(log, b);
    SinceBumpOrdered(log);
    SinceBumpNewest(log);
    KeptTail(s, r, b);
    TailKeepsOrder(s, r);
    Kept(s, r, b, |s| - 1);
    var cut := |s| - |r|;
    Kept(s, r, b, cut);
    forall i | 0 <= i < |r| ensures r[i] == s[cut + i] && InBounds(s, cut + i, b) { Kept(s, r, b, cut + i); }
  }

  lemma SinceBumpNewest(log: seq<Reading>)
    requires log != []
    ensures SinceBump(log) != [] && SinceBump(log)[|SinceBump(log)| - 1] == log[|log| - 1].sample
  {
  }

  // ---- Verdicts on the trimmed series --------------------------------------------------

  lemma {:induction false} WindowOfTail(s: seq<Sample>, cut: nat, window: int, now: int)
    requires cut <= |s| && forall i :: 0 <= i < cut ==> s[i].time < now - window
    ensures WindowSamples(s, window, now) == WindowSamples(s[cut..], window, now)
    decreases |s|
  {
    if cut == |s| {
      if s != [] { WindowOfTail(s[..|s| - 1], cut - 1, window, now); assert s[..|s| - 1][cut - 1..] == []; }
    } else {
      WindowOfTail(s[..|s| - 1], cut, window, now);
      assert s[cut..][..|s| - cut - 1] == s[..|s| - 1][cut..];
    }
  }

  /** Once the trimmed series covers the window, its verdict is the verdict on the unbounded log. */
  lemma CoveredVerdictIsExact(log: seq<Reading>, b: Bounds, d: Settings, now: int)
    requires b.maxLen >= 1 && TimesIncrease(log) && log != []
    ensures var r := Replay(log, b).value.samples;
            WindowCovered(r, d.window, now) ==> Judge(r, d, now) == Judge(SinceBump(log), d, now)
    ensures var r := Replay(log, b).value.samples;
            !WindowCovered(r, d.window, now) ==> !Judge(r, d, now).leaking
  {
    hide Replay, SinceBump, WindowSamples, TrendingUp, SustainedAbove, ThresholdBytes;
    var s, r := SinceBump(log), Replay(log, b).value.samples;
    StoreKeepsExactly(log, b);
    SinceBumpIsTail(log);
    if WindowCovered(r, d.window, now) {
      var cut := |s| - |r|;
      assert r[0] == s[cut] && r[|r| - 1] == s[|s| - 1];
      forall i | 0 <= i < cut ensures s[i].time < now - d.window {
        assert s[i].time < s[cut].time;
      }
      WindowOfTail(s, cut, d.window, now);
    }
  }
}
