/** What maintenance windows mean on the calendar, in instants and not in the functions that compute them. */
module Calendar {
  import opened Maintenance

  const WEEK := {0, 1, 2, 3, 4, 5, 6}

  /** The Unix epoch is a Thursday: a window on one weekday, open all day, holds it exactly on that day. */
  lemma EpochIsThursday(weekday: int)
    requires 0 <= weekday < 7
    ensures Allowed([Window({weekday}, 0, 24 * 60, UTC)], 0) <==> weekday == 4
  {
    AloneAllowed(Window({weekday}, 0, 24 * 60, UTC), 0);
  }

  lemma AloneAllowed(w: Window, t: int)
    ensures Allowed([w], t) <==> Contains(w, t)
  {
    if Contains(w, t) { assert w in [w]; }
  }

  /** The days that come a day before one of these. */
  function DaysBefore(days: set<int>): set<int> { set d | d in WEEK && (if d == 6 then 0 else d + 1) in days }

  lemma NextDay(t: int, loc: Location)
    ensures DayNumber(t + DAY, loc) == DayNumber(t, loc) + 1
    ensures MinuteOfDay(t + DAY, loc) == MinuteOfDay(t, loc)
  {
  }

  lemma NextWeekday(day: int)
    ensures Weekday(day) in WEEK
    ensures Weekday(day + 1) == if Weekday(day) == 6 then 0 else Weekday(day) + 1
  {
  }

  /** A day later the same window holds as, now, the one a weekday earlier. */
  lemma ADayLater(w: Window, t: int)
    ensures Allowed([w], t + DAY) <==> Allowed([w.(days := DaysBefore(w.days))], t)
  {
    hide DayNumber, MinuteOfDay, Weekday, Allowed;
    AloneAllowed(w, t + DAY);
    AloneAllowed(w.(days := DaysBefore(w.days)), t);
    NextDay(t, w.loc);
    NextWeekday(DayNumber(t, w.loc));
  }

  /** East of Greenwich the clock is ahead: a window holds as the same one at UTC does an offset later. */
  lemma OffsetShifts(w: Window, t: int)
    ensures Allowed([w], t) <==> Allowed([w.(loc := UTC)], t + w.loc.offset)
  {
    AloneAllowed(w, t);
    AloneAllowed(w.(loc := UTC), t + w.loc.offset);
  }

  /** On the epoch's own day: the seconds from the start minute on, up to and without the end minute. */
  lemma WithinTheDay(start: int, end: int, second: int)
    requires 0 <= second < DAY
    ensures Allowed([Window({4}, start, end, UTC)], second) <==> start * MINUTE <= second < end * MINUTE
  {
    AloneAllowed(Window({4}, start, end, UTC), second);
  }
}
