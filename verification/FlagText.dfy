/** What the text of --maintenance-window means on the calendar, counted from the Unix epoch, a Thursday. */
module FlagText {
  import opened Wrappers
  import opened Text
  import opened Maintenance
  import opened WindowText
  import opened WindowRoundTrip

  /** The names of the seven days from the epoch on. */
  const FROM_EPOCH := ["Thu", "Fri", "Sat", "Sun", "Mon", "Tue", "Wed"]

  lemma NameOfDay(i: int)
    requires 0 <= i < 7
    ensures var n := FROM_EPOCH[i];
            && |n| == 3 && Clean(n) && n[0] in {'S', 'M', 'T', 'W', 'F'}
            && WeekdayNamed(ToLower(n)) == Some(Weekday(i))
            && Tight(ToLower(n)) && '-' !in ToLower(n) && ',' !in ToLower(n)
  {
    hide ToLower;
    var n := FROM_EPOCH[i];
    LowerThree(n);
    assert ToLower(n) == ["thu", "fri", "sat", "sun", "mon", "tue", "wed"][i];
  }

  lemma RangeItem(a: string, b: string, from: int, to: int)
    requires Tight(a) && Tight(b) && '-' !in a && '-' !in b
    requires WeekdayNamed(a) == Some(from) && WeekdayNamed(b) == Some(to)
    ensures ParseDayItem(a + "-" + b) == Ok(DayRange(from, to))
  {
    hide WeekdayNamed, TrimSpace, DayRange, Cut;
    TrimTight(a);
    TrimTight(b);
    TrimTight(a + "-" + b);
    CutAt(a, '-', b);
  }

  lemma OneItem(item: string)
    requires ',' !in item
    ensures Split(item, ',') == [item]
    ensures ParseDayItems([item]) == ParseDayItem(item)
  {
    hide ParseDayItem;
    var none: seq<string> := [item][..0];
    assert none == [];
    assert ParseDayItems(none) == Ok({});
    assert forall s: set<int> :: {} + s == s;
  }

  /** A range of day names, wherever it starts. */
  lemma RangeParses(a: int, b: int)
    requires 0 <= a < 7 && 0 <= b < 7
    ensures var text := FROM_EPOCH[a] + "-" + FROM_EPOCH[b];
            ParseDaysSpec(text) == Ok(DayRange(Weekday(a), Weekday(b))) && Clean(text) && text != ""
  {
    hide ParseDayItem, ParseDayItems, ToLower, TrimSpace, Split, WeekdayNamed, DayRange, Clean;
    var x, y := FROM_EPOCH[a], FROM_EPOCH[b];
    var text := x + "-" + y;
    NameOfDay(a);
    NameOfDay(b);
    DashClean();
    ConcatClean(x, "-");
    ConcatClean(x + "-", y);
    CleanTight(text);
    TrimTight(text);
    FirstLower(text);
    LowerConcat(x + "-", y);
    LowerConcat(x, "-");
    LowerDash();
    RangeItem(ToLower(x), ToLower(y), Weekday(a), Weekday(b));
    OneItem(ToLower(text));
    RangeNotEmpty(Weekday(a), Weekday(b));
  }

  lemma LowerDash()
    ensures ToLower("-") == "-"
  {
  }

  lemma RangeNotEmpty(from: int, to: int)
    requires 0 <= from < 7 && 0 <= to < 7
    ensures from in DayRange(from, to)
  {
  }

  /** Counted from the epoch, a range holds the days from its first on up to its last, wrapping the week. */
  lemma RangeWraps(a: int, b: int, k: int)
    requires 0 <= a < 7 && 0 <= b < 7 && 0 <= k < 7
    ensures Weekday(k) in DayRange(Weekday(a), Weekday(b)) <==> (k - a) % 7 <= (b - a) % 7
  {
  }

  /** A text of one window parses to that window alone. */
  lemma OneWindow(part: string, zones: Zones, w: Window)
    requires ParsePart(part, zones) == Ok(w) && Tight(part) && ';' !in part
    ensures ParseText(part, zones) == Ok([w])
  {
    hide ParsePart, TrimSpace;
    TrimTight(part);
    assert Split(part, ';') == [part];
    assert [part][..0] == [];
    assert ParseParts([part][..0], zones) == Ok([]);
    assert [] + [w] == [w];
  }

  lemma ContainsAt(w: Window, day: int, second: int)
    requires 0 <= second < DAY
    ensures var t := day * DAY + second - w.loc.offset;
            Contains(w, t) <==> Weekday(day) in w.days && w.start * MINUTE <= second < w.end * MINUTE
  {
    hide Weekday;
    var t := day * DAY + second - w.loc.offset;
    assert DayNumber(t, w.loc) == day && (t + w.loc.offset) % DAY == second;
  }

  /**
    "<day>-<day> <HH:MM>-<HH:MM> <zone>" allows a restart, by the clock of the zone, from the first of these
    weekdays on up to the last one, from the first time on and before the second one.
   */
  lemma TextOnCalendar(a: int, b: int, start: nat, end: nat, loc: Location, zones: Zones, k: int, second: int)
    requires 0 <= a < 7 && 0 <= b < 7 && start < end < 24 * 60 && 0 <= k < 7 && 0 <= second < DAY
    requires loc.name != "" && Clean(loc.name) && LoadZone(loc.name, zones) == Ok(loc)
    ensures var days := FROM_EPOCH[a] + "-" + FROM_EPOCH[b];
            var ws := ParseText(days + " " + (Clock(start) + "-" + Clock(end)) + " " + loc.name, zones);
            ws.Ok? && (Allowed(ws.value, k * DAY + second - loc.offset) <==>
                         && (k - a) % 7 <= (b - a) % 7
                         && start * 60 <= second < end * 60)
  {
    hide ParsePart, ParseText, ParseDaysSpec, Clock, DayRange, Weekday, LoadZone, Clean, Contains;
    var days := FROM_EPOCH[a] + "-" + FROM_EPOCH[b];
    var part := days + " " + (Clock(start) + "-" + Clock(end)) + " " + loc.name;
    var w := Window(DayRange(Weekday(a), Weekday(b)), start, end, loc);
    RangeParses(a, b);
    PartIs(days, w.days, start, end, loc, zones);
    OneWindow(part, zones, w);
    ContainsAt(w, k, second);
    RangeWraps(a, b, k);
    assert w in [w];
  }

  /** Neither two fields nor four are a window. */
  lemma OnlyThreeFields(a: string, b: string, c: string, d: string, zones: Zones)
    requires a != "" && NoSpace(a) && b != "" && NoSpace(b) && c != "" && NoSpace(c) && d != "" && NoSpace(d)
    ensures ParsePart(a + (" " + b), zones).Err?
    ensures ParsePart(a + (" " + (b + (" " + (c + (" " + d))))), zones).Err?
  {
    hide Fields, NoSpace;
    LastField(b);
    LastField(d);
    FirstField(a, b);
    FirstField(c, d);
    FirstField(b, c + (" " + d));
    FirstField(a, b + (" " + (c + (" " + d))));
  }

  /** The structured form may leave the zone out, which means UTC; any other name must resolve. */
  lemma ZoneOfWindow(days: string, start: string, end: string, tz: string, zones: Zones)
    ensures ParseWindow(days, start, end, "", zones) == ParseWindow(days, start, end, "UTC", zones)
    ensures ParseWindow(days, start, end, tz, zones).Ok? && tz !in {"", "UTC"} ==>
              tz in zones && ParseWindow(days, start, end, tz, zones).value.loc == Location(tz, zones[tz])
  {
    hide ParseDaysSpec, ParseClock;
  }

  /** The words for every day, in any case. */
  lemma EveryDayWords(word: string)
    requires word in {"*", "daily", "Daily", "all", "ALL", "everyday"}
    ensures ParseDaysSpec(word) == Ok({0, 1, 2, 3, 4, 5, 6})
  {
    hide ToLower, TrimSpace;
    TrimTight(word);
    LowerWord(word);
  }

  lemma LowerWord(word: string)
    requires word in {"*", "daily", "Daily", "all", "ALL", "everyday"}
    ensures ToLower(word) in {"*", "daily", "all", "everyday"}
  {
    hide ToLower;
    if word == "Daily" {
      assert word == "D" + "aily";
      LowerConcat("D", "aily");
      LowerOne('D');
      AlreadyLower("aily");
      assert "d" + "aily" == "daily";
    } else if word == "ALL" {
      LowerThree(word);
    } else {
      AlreadyLower(word);
    }
  }

  lemma LowerOne(c: char)
    ensures ToLower([c]) == [Lower(c)]
  {
  }

  lemma {:induction false} AlreadyLower(s: string)
    requires forall c :: c in s ==> Lower(c) == c
    ensures ToLower(s) == s
  {
    if s != "" { AlreadyLower(s[1..]); }
  }

  /** Hours and minutes in decimal, as far as the day has them; an hour may have one digit, a minute has two. */
  lemma ClockInDigits(h: nat, m: nat)
    requires h < 100 && m < 100
    ensures ParseClock(TwoDigits(h) + ":" + TwoDigits(m)) == if h < 24 && m < 60 then Ok(h * 60 + m) else Err
    ensures h < 10 ==> ParseClock(TwoDigits(h)[1..] + ":" + TwoDigits(m)) == if m < 60 then Ok(h * 60 + m) else Err
    ensures TwoDigits(57) == "57" && TwoDigits(9) == "09"
  {
    hide TwoDigits, Digit, TrimSpace;
    DigitPair(h);
    DigitPair(m);
    ClockParses(TwoDigits(h)[0], TwoDigits(h)[1], TwoDigits(m));
    assert TwoDigits(h) == [TwoDigits(h)[0], TwoDigits(h)[1]] && TwoDigits(h)[1..] == [TwoDigits(h)[1]];
    DecimalDigits();
    if h < 10 { LeadingZero(h); }
  }

  lemma DecimalDigits()
    ensures TwoDigits(57) == "57" && TwoDigits(9) == "09"
  {
  }

  lemma LeadingZero(h: nat)
    requires h < 10
    ensures Digit(TwoDigits(h)[1]) == h
  {
  }

  lemma ClockParses(a: char, b: char, minute: string)
    requires IsDigit(a) && IsDigit(b) && |minute| == 2 && IsDigit(minute[0]) && IsDigit(minute[1])
    ensures var h, m := Digit(a) * 10 + Digit(b), Digit(minute[0]) * 10 + Digit(minute[1]);
            && ParseClock([a, b] + ":" + minute) == (if h < 24 && m < 60 then Ok(h * 60 + m) else Err)
            && ParseClock([b] + ":" + minute) == if m < 60 then Ok(Digit(b) * 60 + m) else Err
  {
    hide TrimSpace;
    var s, t := [a, b] + ":" + minute, [b] + ":" + minute;
    assert Tight(s) && Tight(t);
    TrimTight(s);
    TrimTight(t);
    assert s[2..] == ":" + minute && t[1..] == ":" + minute;
  }

  // ---- Blank pieces ---------------------------------------------------------------------------------

  /** A blank piece between commas makes no difference. */
  lemma {:induction false} BlankItemsDropped(before: seq<string>, blank: string, after: seq<string>)
    requires TrimSpace(blank) == ""
    ensures ParseDayItems(before + [blank] + after) == ParseDayItems(before + after)
  {
    hide TrimSpace, Cut;
    var all := before + [blank] + after;
    if after == [] {
      assert all[..|all| - 1] == before && all[|all| - 1] == blank && before + after == before;
      assert forall days: set<int> :: days + {} == days;
    } else {
      var n := |after| - 1;
      assert all[..|all| - 1] == before + [blank] + after[..n];
      assert (before + after)[..|before| + n] == before + after[..n];
      BlankItemsDropped(before, blank, after[..n]);
    }
  }

  /** Nor does one between semicolons. */
  lemma {:induction false} BlankPartsDropped(before: seq<string>, blank: string, after: seq<string>, zones: Zones)
    requires TrimSpace(blank) == ""
    ensures ParseParts(before + [blank] + after, zones) == ParseParts(before + after, zones)
  {
    hide TrimSpace, ParsePart;
    var all := before + [blank] + after;
    if after == [] {
      assert all[..|all| - 1] == before && all[|all| - 1] == blank && before + after == before;
    } else {
      var n := |after| - 1;
      assert all[..|all| - 1] == before + [blank] + after[..n];
      assert (before + after)[..|before| + n] == before + after[..n];
      BlankPartsDropped(before, blank, after[..n], zones);
    }
  }
}
