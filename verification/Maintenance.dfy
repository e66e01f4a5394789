/**
  Maintenance windows of internal/maintenance/window.go at fixed UTC offsets.
  Instants are integer seconds since the Unix epoch, a Thursday.
 */
module Maintenance {
  import opened Wrappers

  const MINUTE := 60
  const DAY := 86400

  /** A resolved location: its name and its fixed offset from UTC in seconds. */
  datatype Location = Location(name: string, offset: int)

  const UTC := Location("UTC", 0)

  /** Days are weekday numbers, Sunday = 0; start and end are minutes since midnight, end exclusive. */
  datatype Window = Window(days: set<int>, start: int, end: int, loc: Location)

  type Windows = seq<Window>

  function DayNumber(t: int, loc: Location): int { (t + loc.offset) / DAY }

  function Weekday(day: int): int { (day + 4) % 7 }

  function MinuteOfDay(t: int, loc: Location): int { (t + loc.offset) % DAY / MINUTE }

  /** The instant at which a minute of a local day begins. */
  function InstantOf(day: int, minute: int, loc: Location): int { day * DAY + minute * MINUTE - loc.offset }

  predicate Contains(w: Window, t: int) {
    Weekday(DayNumber(t, w.loc)) in w.days && w.start <= MinuteOfDay(t, w.loc) < w.end
  }

  ghost predicate Allowed(ws: Windows, t: int) {
    ws == [] || exists w :: w in ws && Contains(w, t)
  }

  method IsAllowed(ws: Windows, t: int) returns (allowed: bool)
    ensures allowed <==> Allowed(ws, t)
  {
    if |ws| == 0 {
      return true;
    }
    for i := 0 to |ws|
      invariant forall j :: 0 <= j < i ==> !Contains(ws[j], t)
    {
      if Contains(ws[i], t) {
        return true;
      }
    }
    return false;
  }

  /** What every accepted window satisfies: some weekday, and a non-empty range within one day. */
  predicate WellFormed(w: Window) {
    && (exists d :: 0 <= d < 7 && d in w.days)
    && 0 <= w.start < w.end <= 24 * 60
  }

  /** t is an instant at which w opens. */
  predicate OpensAt(w: Window, t: int) {
    Contains(w, t) && t == InstantOf(DayNumber(t, w.loc), w.start, w.loc)
  }

  /** c is the first opening of w strictly after t. */
  ghost predicate FirstOpening(w: Window, t: int, c: int) {
    && t < c && OpensAt(w, c)
    && forall u :: t < u < c ==> !OpensAt(w, u)
  }

  lemma InstantRoundTrip(day: int, minute: int, loc: Location)
    requires 0 <= minute < 24 * 60
    ensures DayNumber(InstantOf(day, minute, loc), loc) == day
    ensures MinuteOfDay(InstantOf(day, minute, loc), loc) == minute
  {
  }

  lemma OpeningOfDay(w: Window, day: int)
    requires WellFormed(w) && Weekday(day) in w.days
    ensures OpensAt(w, InstantOf(day, w.start, w.loc))
  {
    InstantRoundTrip(day, w.start, w.loc);
  }

  /** An allowed instant of a window comes at or after the opening of its own day. */
  lemma OpenedEarlierThatDay(w: Window, u: int)
    requires WellFormed(w) && Contains(w, u)
    ensures var o := InstantOf(DayNumber(u, w.loc), w.start, w.loc);
            o <= u && OpensAt(w, o) && forall t :: o <= t <= u ==> Contains(w, t)
  {
    var day := DayNumber(u, w.loc);
    var o := InstantOf(day, w.start, w.loc);
    OpeningOfDay(w, day);
    assert u + w.loc.offset == day * DAY + (u + w.loc.offset) % DAY;
    forall t | o <= t <= u ensures Contains(w, t) {
      var r := t + w.loc.offset - day * DAY;
      assert 0 <= r < DAY;
      assert t + w.loc.offset == day * DAY + r;
      assert DayNumber(t, w.loc) == day && (t + w.loc.offset) % DAY == r;
    }
  }

  /** A day on which w opens at an instant after t. */
  predicate OpensAhead(w: Window, day: int, t: int) {
    Weekday(day) in w.days && InstantOf(day, w.start, w.loc) > t
  }

  /** The day search: the first of today and the next seven days whose opening is still ahead. */
  method NextOpeningOf(w: Window, t: int) returns (opening: Option<int>)
    ensures opening.Some? ==> opening.value > t
    ensures WellFormed(w) ==> opening.Some? && FirstOpening(w, t, opening.value)
  {
    var today := DayNumber(t, w.loc);
    for off := 0 to 8
      invariant forall day :: today <= day < today + off ==> !OpensAhead(w, day, t)
    {
      var day := today + off;
      if Weekday(day) in w.days {
        var candidate := InstantOf(day, w.start, w.loc);
        if candidate > t {
          if WellFormed(w) { FirstOpeningFound(w, t, day); }
          return Some(candidate);
        }
      }
    }
    if WellFormed(w) { SevenDaysSuffice(w, t); }
    return None;
  }

  lemma WeekdayAhead(day: int, d: int) returns (k: int)
    requires 0 <= d < 7
    ensures 1 <= k <= 7 && Weekday(day + k) == d
  {
    var r := Weekday(day);
    k := if d > r then d - r else d - r + 7;
    assert day + 4 == 7 * ((day + 4) / 7) + r;
  }

  /** The search over today and seven more days always meets an opening. */
  lemma SevenDaysSuffice(w: Window, t: int)
    requires WellFormed(w)
    ensures exists day :: DayNumber(t, w.loc) < day <= DayNumber(t, w.loc) + 7 && OpensAhead(w, day, t)
  {
    var today := DayNumber(t, w.loc);
    var d :| 0 <= d < 7 && d in w.days;
    var k := WeekdayAhead(today, d);
    assert OpensAhead(w, today + k, t);
  }

  lemma OpeningDayInOrder(w: Window, u: int, day: int)
    requires WellFormed(w) && OpensAt(w, u) && u < InstantOf(day, w.start, w.loc)
    ensures DayNumber(u, w.loc) < day
  {
  }

  lemma FirstOpeningFound(w: Window, t: int, day: int)
    requires WellFormed(w) && OpensAhead(w, day, t)
    requires forall k :: DayNumber(t, w.loc) <= k < day ==> !OpensAhead(w, k, t)
    ensures FirstOpening(w, t, InstantOf(day, w.start, w.loc))
  {
    OpeningOfDay(w, day);
    forall u | t < u < InstantOf(day, w.start, w.loc) ensures !OpensAt(w, u) {
      assert !OpensAhead(w, DayNumber(u, w.loc), t) || DayNumber(u, w.loc) >= day;
      if OpensAt(w, u) { OpeningDayInOrder(w, u, day); }
    }
  }

  /** The earliest candidate over all windows: the exact instant at which a deferred restart becomes allowed. */
  method NextOpening(ws: Windows, t: int) returns (best: Option<int>)
    ensures best.Some? ==> best.value > t
    ensures AllWellFormed(ws) && ws != [] ==> best.Some? && EarliestOpening(ws, t, best.value)
    ensures AllWellFormed(ws) && !Allowed(ws, t) ==> best.Some? && FirstAllowed(ws, t, best.value)
  {
    best := None;
    for i := 0 to |ws|
      invariant best.Some? ==> best.value > t
      invariant i == 0 ==> best.None?
      invariant AllWellFormed(ws) && i > 0 ==> best.Some? && EarliestOpening(ws[..i], t, best.value)
    {
      var c := NextOpeningOf(ws[i], t);
      ghost var before := best;
      if c.Some? && (best.None? || c.value < best.value) {
        best := c;
      }
      if AllWellFormed(ws) {
        assert ws[i] in ws;
        EarliestNext(ws[..i], ws[i], t, before, c.value);
        assert ws[..i + 1] == ws[..i] + [ws[i]];
      }
    }
    assert ws[..|ws|] == ws;
    if AllWellFormed(ws) && ws != [] && !Allowed(ws, t) {
      DeferralExact(ws, t, best.value);
    }
  }

  /** Restarts are not allowed from t on until just before c, and are allowed at c. */
  ghost predicate FirstAllowed(ws: Windows, t: int, c: int) {
    t < c && Allowed(ws, c) && forall u :: t <= u < c ==> !Allowed(ws, u)
  }

  predicate AllWellFormed(ws: Windows) { forall w :: w in ws ==> WellFormed(w) }

  /** c is the first instant after t at which any of the windows opens. */
  ghost predicate EarliestOpening(ws: Windows, t: int, c: int) {
    && t < c
    && (exists w :: w in ws && OpensAt(w, c))
    && forall w, u :: w in ws && t < u < c ==> !OpensAt(w, u)
  }

  lemma EarliestNext(ws: Windows, w: Window, t: int, best: Option<int>, c: int)
    requires FirstOpening(w, t, c)
    requires ws != [] ==> best.Some? && EarliestOpening(ws, t, best.value)
    requires ws == [] ==> best.None?
    ensures EarliestOpening(ws + [w], t, if best.None? || c < best.value then c else best.value)
  {
  }

  lemma ClosedUntilOpening(w: Window, t: int, c: int, u: int)
    requires WellFormed(w) && !Contains(w, t) && t <= u < c
    requires forall v :: t < v < c ==> !OpensAt(w, v)
    ensures !Contains(w, u)
  {
    if Contains(w, u) { OpenedEarlierThatDay(w, u); }
  }

  /** No window opens between t and c, so none that was closed at t is open before c. */
  lemma {:induction false} DeferralExact(ws: Windows, t: int, c: int)
    requires AllWellFormed(ws) && ws != [] && !Allowed(ws, t)
    requires EarliestOpening(ws, t, c)
    ensures FirstAllowed(ws, t, c)
  {
    forall u | t <= u < c ensures !Allowed(ws, u) {
      forall w | w in ws ensures !Contains(w, u) {
        ClosedUntilOpening(w, t, c, u);
      }
    }
  }

  /** The order of the windows does not matter. */
  lemma AllowedIgnoresOrder(ws: Windows, vs: Windows, t: int)
    requires multiset(ws) == multiset(vs)
    ensures Allowed(ws, t) <==> Allowed(vs, t)
  {
    assert forall w :: w in ws <==> w in multiset(ws);
    assert forall w :: w in vs <==> w in multiset(vs);
    assert |ws| == |multiset(ws)| && |vs| == |multiset(vs)|;
  }
}
