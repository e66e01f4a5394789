/** The flag form of maintenance windows: ParseString, String, and their round trip. */
module WindowText {
  import opened Wrappers
  import opened Text
  import opened Maintenance

  /** The time zone database: the names that resolve, and their fixed offsets. */
  type Zones = map<string, int>

  // ---- Days ------------------------------------------------------------------------

  function WeekdayNamed(s: string): (d: Option<int>)
    ensures d.Some? ==> 0 <= d.value < 7
  {
    if s == "sun" then Some(0)
    else if s == "mon" then Some(1)
    else if s == "tue" then Some(2)
    else if s == "wed" then Some(3)
    else if s == "thu" then Some(4)
    else if s == "fri" then Some(5)
    else if s == "sat" then Some(6)
    else None
  }

  const EVERY_DAY := {0, 1, 2, 3, 4, 5, 6}

  /** The weekdays from `from` to `to` inclusive, wrapping the week. */
  function DayRange(from: int, to: int): set<int> {
    set d | d in EVERY_DAY && if from <= to then from <= d <= to else from <= d || d <= to
  }

  method ExpandRange(from: int, to: int) returns (out: seq<int>)
    requires 0 <= from < 7 && 0 <= to < 7
    ensures forall d :: d in out <==> d in DayRange(from, to)
  {
    out := [];
    ghost var last := if from <= to then to - from else to - from + 7;
    assert WeekdayAfter(from, last) == to;
    for i := 0 to 7
      invariant |out| == i
      invariant forall k :: 0 <= k < i ==> out[k] == WeekdayAfter(from, k) != to
    {
      var wd := (from + i) % 7;
      assert wd == WeekdayAfter(from, i);
      out := out + [wd];
      if wd == to {
        RangeMembers(from, to, out);
        return;
      }
    }
  }

  function WeekdayAfter(from: int, k: int): int { if from + k >= 7 then from + k - 7 else from + k }

  lemma RangeMembers(from: int, to: int, out: seq<int>)
    requires 0 <= from < 7 && 0 <= to < 7
    requires 0 < |out| <= 7 && out[|out| - 1] == to
    requires forall k :: 0 <= k < |out| ==> out[k] == WeekdayAfter(from, k)
    requires forall k :: 0 <= k < |out| - 1 ==> WeekdayAfter(from, k) != to
    ensures forall d :: d in out <==> d in DayRange(from, to)
  {
    var n := if from <= to then to - from else to - from + 7;
    assert WeekdayAfter(from, n) == to;
    forall d ensures d in out <==> d in DayRange(from, to) {
      if d in DayRange(from, to) {
        var k := if from <= d then d - from else d - from + 7;
        assert out[k] == d;
      }
    }
  }

  /** One comma-separated item: nothing, a range, or a day. */
  function ParseDayItem(item: string): Result<set<int>> {
    var tok := TrimSpace(item);
    if tok == "" then Ok({})
    else
      match Cut(tok, '-')
      case Some(p) =>
        (var from, to := WeekdayNamed(TrimSpace(p.0)), WeekdayNamed(TrimSpace(p.1));
         if from.Some? && to.Some? then Ok(DayRange(from.value, to.value)) else Err)
      case None =>
        (match WeekdayNamed(tok)
         case Some(d) => Ok({d})
         case None => Err)
  }

  /** The union of the items; the first bad one fails them all. */
  function ParseDayItems(items: seq<string>): Result<set<int>> {
    if items == [] then Ok({})
    else
      match ParseDayItems(items[..|items| - 1])
      case Err => Err
      case Ok(out) =>
        match ParseDayItem(items[|items| - 1])
        case Err => Err
        case Ok(days) => Ok(out + days)
  }

  function ParseDaysSpec(text: string): Result<set<int>> {
    var s := ToLower(TrimSpace(text));
    if s in {"*", "daily", "all", "everyday"} then Ok(EVERY_DAY)
    else
      match ParseDayItems(Split(s, ','))
      case Err => Err
      case Ok(days) => if days == {} then Err else Ok(days)
  }

  lemma {:induction false} BadItemFails(items: seq<string>, i: nat)
    requires i <= |items| && ParseDayItems(items[..i]).Err?
    ensures ParseDayItems(items).Err?
    decreases |items| - i
  {
    if i < |items| {
      assert items[..i + 1][..i] == items[..i];
      BadItemFails(items, i + 1);
    } else {
      assert items[..i] == items;
    }
  }

  method ParseDays(text: string) returns (r: Result<set<int>>)
    ensures r == ParseDaysSpec(text)
  {
    hide ToLower, TrimSpace, Split, Cut, WeekdayNamed, DayRange;
    var s := ToLower(TrimSpace(text));
    var out := {};
    if s == "*" || s == "daily" || s == "all" || s == "everyday" {
      for wd := 0 to 7
        invariant out == set d | d in EVERY_DAY && d < wd
      {
        out := out + {wd};
      }
      assert out == EVERY_DAY;
      return Ok(out);
    }
    var items := Split(s, ',');
    for i := 0 to |items|
      invariant ParseDayItems(items[..i]) == Ok(out)
    {
      assert items[..i + 1][..i] == items[..i];
      var tok := TrimSpace(items[i]);
      if tok == "" {
        assert out + {} == out;
        continue;
      }
      var rng := Cut(tok, '-');
      if rng.Some? {
        var from := WeekdayNamed(TrimSpace(rng.value.0));
        var to := WeekdayNamed(TrimSpace(rng.value.1));
        if from.None? || to.None? {
          BadItemFails(items, i + 1);
          return Err;
        }
        var days := ExpandRange(from.value, to.value);
        ghost var start := out;
        for k := 0 to |days|
          invariant forall d :: d in out <==> d in start || d in days[..k]
        {
          out := out + {days[k]};
        }
        assert days[..|days|] == days;
        assert forall d :: d in out <==> d in start + DayRange(from.value, to.value);
        assert out == start + DayRange(from.value, to.value);
        continue;
      }
      var wd := WeekdayNamed(tok);
      if wd.None? {
        BadItemFails(items, i + 1);
        return Err;
      }
      out := out + {wd.value};
    }
    assert items[..|items|] == items;
    if out == {} {
      return Err;
    }
    return Ok(out);
  }

  // ---- Times and windows -----------------------------------------------------------------

  function Digit(c: char): int
    requires IsDigit(c)
  {
    c as int - '0' as int
  }

  /** time.Parse("15:04"): one or two hour digits, a colon, exactly two minute digits. */
  function ParseClock(text: string): Result<int> {
    var s := TrimSpace(text);
    if s == "" || !IsDigit(s[0]) then Err
    else
      var two := |s| > 1 && IsDigit(s[1]);
      var hour := if two then Digit(s[0]) * 10 + Digit(s[1]) else Digit(s[0]);
      var rest := s[if two then 2 else 1..];
      if hour >= 24 || |rest| != 3 || rest[0] != ':' || !IsDigit(rest[1]) || !IsDigit(rest[2]) then Err
      else
        var minute := Digit(rest[1]) * 10 + Digit(rest[2]);
        if minute >= 60 then Err else Ok(hour * 60 + minute)
  }

  function LoadZone(tz: string, zones: Zones): Result<Location> {
    if tz == "" || tz == "UTC" then Ok(UTC)
    else if tz in zones then Ok(Location(tz, zones[tz]))
    else Err
  }

  function ParseWindow(days: string, start: string, end: string, tz: string, zones: Zones): Result<Window> {
    var d, sm, em := ParseDaysSpec(days), ParseClock(start), ParseClock(end);
    if d.Err? || sm.Err? || em.Err? || em.value <= sm.value then Err
    else
      match LoadZone(tz, zones)
      case Err => Err
      case Ok(loc) => Ok(Window(d.value, sm.value, em.value, loc))
  }

  /** One window: "<days> <HH:MM>-<HH:MM> <timezone>". */
  function ParsePart(part: string, zones: Zones): Result<Window> {
    var fields := Fields(part);
    if |fields| != 3 then Err
    else
      match Cut(fields[1], '-')
      case None => Err
      case Some(range) => ParseWindow(fields[0], range.0, range.1, fields[2], zones)
  }

  /** The windows of the non-blank parts; the first bad one fails them all. */
  function ParseParts(parts: seq<string>, zones: Zones): Result<Windows> {
    if parts == [] then Ok([])
    else
      match ParseParts(parts[..|parts| - 1], zones)
      case Err => Err
      case Ok(ws) =>
        var part := TrimSpace(parts[|parts| - 1]);
        if part == "" then Ok(ws)
        else
          match ParsePart(part, zones)
          case Err => Err
          case Ok(w) => Ok(ws + [w])
  }

  function ParseText(text: string, zones: Zones): Result<Windows> {
    var s := TrimSpace(text);
    if s == "" then Ok([]) else ParseParts(Split(s, ';'), zones)
  }

  lemma {:induction false} BadPartFails(parts: seq<string>, i: nat, zones: Zones)
    requires i <= |parts| && ParseParts(parts[..i], zones).Err?
    ensures ParseParts(parts, zones).Err?
    decreases |parts| - i
  {
    if i < |parts| {
      assert parts[..i + 1][..i] == parts[..i];
      BadPartFails(parts, i + 1, zones);
    } else {
      assert parts[..i] == parts;
    }
  }

  method ParseString(text: string, zones: Zones) returns (r: Result<Windows>)
    ensures r == ParseText(text, zones)
  {
    hide ParsePart, Split, TrimSpace;
    var s := TrimSpace(text);
    var ws := [];
    if s == "" {
      return Ok(ws);
    }
    var parts := Split(s, ';');
    for i := 0 to |parts|
      invariant ParseParts(parts[..i], zones) == Ok(ws)
    {
      assert parts[..i + 1][..i] == parts[..i];
      var part := TrimSpace(parts[i]);
      if part == "" {
        continue;
      }
      var w := ParsePart(part, zones);
      if w.Err? {
        BadPartFails(parts, i + 1, zones);
        return Err;
      }
      ws := ws + [w.value];
    }
    assert parts[..|parts|] == parts;
    return Ok(ws);
  }

  // ---- Printing -----------------------------------------------------------------------------

  const DAY_NAMES := ["Sun", "Mon", "Tue", "Wed", "Thu", "Fri", "Sat"]

  /** The names of the chosen days among the first n of the week, in week order. */
  function NamesOf(days: set<int>, n: nat): seq<string>
    requires n <= 7
  {
    if n == 0 then []
    else if n - 1 in days then NamesOf(days, n - 1) + [DAY_NAMES[n - 1]]
    else NamesOf(days, n - 1)
  }

  /** A number below 100 in two digits. */
  function TwoDigits(n: nat): string
    requires n < 100
  {
    [('0' as int + n / 10) as char, ('0' as int + n % 10) as char]
  }

  /** A minute of the day as HH:MM. */
  function Clock(m: nat): string
    requires m < 6000
  {
    TwoDigits(m / 60) + ":" + TwoDigits(m % 60)
  }

  function PrintWindow(w: Window): string
    requires WellFormed(w)
  {
    Join(NamesOf(w.days, 7), ",") + " " + (Clock(w.start) + "-" + Clock(w.end)) + " " + w.loc.name
  }

  function PrintEach(ws: Windows): (parts: seq<string>)
    requires AllWellFormed(ws)
    ensures |parts| == |ws|
    ensures forall i :: 0 <= i < |ws| ==> assert ws[i] in ws; parts[i] == PrintWindow(ws[i])
  {
    if ws == [] then []
    else
      var w := ws[|ws| - 1];
      assert w in ws;
      PrintEach(ws[..|ws| - 1]) + [PrintWindow(w)]
  }

  function PrintText(ws: Windows): string
    requires AllWellFormed(ws)
  {
    if ws == [] then "always" else Join(Sorted(PrintEach(ws)), "; ")
  }

  method String(ws: Windows) returns (text: string)
    requires AllWellFormed(ws)
    ensures text == PrintText(ws)
  {
    if |ws| == 0 {
      return "always";
    }
    var parts := [];
    for i := 0 to |ws|
      invariant parts == PrintEach(ws[..i])
    {
      assert ws[..i + 1][..i] == ws[..i];
      var w := ws[i];
      var days := [];
      for wd := 0 to 7
        invariant days == NamesOf(w.days, wd)
      {
        if wd in w.days {
          days := days + [DAY_NAMES[wd]];
        }
      }
      assert w in ws;
      var line := Join(days, ",") + " " + (Clock(w.start) + "-" + Clock(w.end)) + " " + w.loc.name;
      parts := parts + [line];
    }
    assert ws[..|ws|] == ws;
    return Join(Sorted(parts), "; ");
  }
}
