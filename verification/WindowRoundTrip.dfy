/** Printing windows and parsing the text again gives the same windows, up to order. */
module WindowRoundTrip {
  import opened Wrappers
  import opened Text
  import opened Maintenance
  import opened WindowText

  /** What holds of every window the flag parser accepts. */
  predicate Accepted(w: Window, zones: Zones) {
    && w.days != {} && w.days <= EVERY_DAY
    && 0 <= w.start < w.end < 24 * 60
    && w.loc.name != "" && Clean(w.loc.name)
    && LoadZone(w.loc.name, zones) == Ok(w.loc)
  }

  /** No white space and no window separator. */
  predicate Clean(s: string) { forall c :: c in s ==> !IsSpace(c) && c != ';' }

  // ---- What the parser accepts ------------------------------------------------------

  lemma {:induction false} DayItemsWithinWeek(items: seq<string>)
    ensures ParseDayItems(items).Ok? ==> ParseDayItems(items).value <= EVERY_DAY
  {
    hide TrimSpace, Cut;
    if items != [] { DayItemsWithinWeek(items[..|items| - 1]); }
  }

  lemma DaysWithinWeek(text: string)
    ensures ParseDaysSpec(text).Ok? ==> ParseDaysSpec(text).value != {} && ParseDaysSpec(text).value <= EVERY_DAY
  {
    hide TrimSpace, ToLower, Split;
    DayItemsWithinWeek(Split(ToLower(TrimSpace(text)), ','));
    assert 0 in EVERY_DAY;
  }

  lemma ClockWithinDay(text: string)
    ensures ParseClock(text).Ok? ==> 0 <= ParseClock(text).value < 24 * 60
  {
  }

  lemma PartAccepted(part: string, zones: Zones)
    requires ';' !in part && ParsePart(part, zones).Ok?
    ensures Accepted(ParsePart(part, zones).value, zones)
  {
    hide Fields, Cut, ParseDaysSpec, ParseClock;
    FieldPieces(part);
    var fields := Fields(part);
    var range := Cut(fields[1], '-').value;
    DaysWithinWeek(fields[0]);
    ClockWithinDay(range.0);
    ClockWithinDay(range.1);
    assert fields[2] in fields;
    forall c | c in fields[2] ensures !IsSpace(c) && c != ';' {
      var i :| 0 <= i < |fields[2]| && fields[2][i] == c;
    }
  }

  lemma {:induction false} PartsAccepted(parts: seq<string>, zones: Zones)
    requires forall p :: p in parts ==> ';' !in p
    requires ParseParts(parts, zones).Ok?
    ensures forall w :: w in ParseParts(parts, zones).value ==> Accepted(w, zones)
  {
    hide TrimSpace, ParsePart, Accepted;
    if parts != [] {
      var last := parts[|parts| - 1];
      assert last in parts;
      PartsAccepted(parts[..|parts| - 1], zones);
      TrimPieces(last);
      if ParsePart(TrimSpace(last), zones).Ok? { PartAccepted(TrimSpace(last), zones); }
    }
  }

  /** Every accepted window names days, lies within one day, and names a zone that resolves to it. */
  lemma TextAccepted(text: string, zones: Zones)
    requires ParseText(text, zones).Ok?
    ensures forall w :: w in ParseText(text, zones).value ==> Accepted(w, zones)
    ensures AllWellFormed(ParseText(text, zones).value)
  {
    hide TrimSpace, Split, ParseParts;
    SplitPieces(TrimSpace(text), ';');
    if TrimSpace(text) != "" { PartsAccepted(Split(TrimSpace(text), ';'), zones); }
    forall w | w in ParseText(text, zones).value ensures WellFormed(w) {
      AcceptedWellFormed(w, zones);
    }
  }

  lemma AcceptedWellFormed(w: Window, zones: Zones)
    requires Accepted(w, zones)
    ensures WellFormed(w)
  {
  }

  // ---- One clock time ---------------------------------------------------------------

  lemma ClockRoundTrip(m: nat)
    requires m < 24 * 60
    ensures ParseClock(Clock(m)) == Ok(m)
    ensures Clean(Clock(m)) && '-' !in Clock(m) && Clock(m) != ""
  {
    hide TwoDigits, Digit, TrimSpace;
    var s := Clock(m);
    DigitPair(m / 60);
    DigitPair(m % 60);
    assert s[0] == TwoDigits(m / 60)[0] && s[1] == TwoDigits(m / 60)[1] && s[2..] == ":" + TwoDigits(m % 60);
    assert Tight(s);
    TrimTight(s);
  }

  lemma DigitPair(n: nat)
    requires n < 100
    ensures var t := TwoDigits(n);
            |t| == 2 && IsDigit(t[0]) && IsDigit(t[1]) && Digit(t[0]) * 10 + Digit(t[1]) == n
  {
  }

  // ---- The day list -------------------------------------------------------------------

  function LowerEach(names: seq<string>): seq<string> {
    if names == [] then [] else [ToLower(names[0])] + LowerEach(names[1..])
  }

  lemma {:induction false} LowerConcat(a: string, b: string)
    ensures ToLower(a + b) == ToLower(a) + ToLower(b)
  {
    if a == "" {
      assert a + b == b;
    } else {
      assert (a + b)[1..] == a[1..] + b;
      LowerConcat(a[1..], b);
    }
  }

  lemma {:induction false} LowerEachAppend(a: seq<string>, x: string)
    ensures LowerEach(a + [x]) == LowerEach(a) + [ToLower(x)]
  {
    if a == [] {
      assert a + [x] == [x];
    } else {
      assert (a + [x])[1..] == a[1..] + [x];
      LowerEachAppend(a[1..], x);
    }
  }

  lemma {:induction false} LowerJoin(names: seq<string>)
    ensures ToLower(Join(names, ",")) == Join(LowerEach(names), ",")
  {
    if |names| > 1 {
      var tail := Join(names[1..], ",");
      LowerJoin(names[1..]);
      assert |LowerEach(names)| > 1;
      LowerConcat(names[0] + ",", tail);
      LowerConcat(names[0], ",");
      assert ToLower(",") == ",";
    }
  }

  lemma PlainItem(l: string)
    requires Tight(l) && '-' !in l && WeekdayNamed(l).Some?
    ensures ParseDayItem(l) == Ok({WeekdayNamed(l).value})
  {
    hide WeekdayNamed, TrimSpace;
    TrimTight(l);
  }

  lemma LowerThree(n: string)
    requires |n| == 3
    ensures ToLower(n) == [Lower(n[0]), Lower(n[1]), Lower(n[2])]
  {
    hide Lower;
    var a, b := n[1..], n[2..];
    assert a[1..] == b && b[1..] == "";
    assert ToLower(b) == [Lower(b[0])];
    assert ToLower(a) == [Lower(a[0])] + ToLower(b);
  }

  /** The three letters of a weekday name, in the printer's and in the parser's case. */
  lemma DayNameFacts(d: int)
    requires 0 <= d < 7
    ensures var n := DAY_NAMES[d];
            && |n| == 3 && Clean(n) && n[0] in {'S', 'M', 'T', 'W', 'F'}
            && ParseDayItem(ToLower(n)) == Ok({d}) && ',' !in ToLower(n)
  {
    hide ParseDayItem, ToLower;
    var n := DAY_NAMES[d];
    LowerThree(n);
    assert ToLower(n) == ["sun", "mon", "tue", "wed", "thu", "fri", "sat"][d];
    PlainItem(ToLower(n));
  }

  /** The chosen days among the first n of the week. */
  function Below(days: set<int>, n: nat): set<int> {
    if n == 0 then {}
    else if n - 1 in days then Below(days, n - 1) + {n - 1}
    else Below(days, n - 1)
  }

  lemma {:induction false} BelowIs(days: set<int>, n: nat)
    ensures forall d :: d in Below(days, n) <==> d in days && 0 <= d < n
  {
    if n > 0 { BelowIs(days, n - 1); }
  }

  lemma WholeWeek(days: set<int>)
    requires days <= EVERY_DAY
    ensures Below(days, 7) == days
  {
    BelowIs(days, 7);
    forall k ensures k in Below(days, 7) <==> k in days {
      if k in days { assert k in EVERY_DAY; }
    }
  }

  lemma {:induction false} NamesAreDays(days: set<int>, n: nat)
    requires n <= 7
    ensures forall x :: x in NamesOf(days, n) ==> exists d :: 0 <= d < n && d in days && x == DAY_NAMES[d]
    ensures Below(days, n) != {} ==> NamesOf(days, n) != []
  {
    if n > 0 { NamesAreDays(days, n - 1); }
  }

  lemma {:induction false} NamesParse(days: set<int>, n: nat)
    requires n <= 7
    ensures forall x :: x in LowerEach(NamesOf(days, n)) ==> ',' !in x
    ensures ParseDayItems(LowerEach(NamesOf(days, n))) == Ok(Below(days, n))
  {
    hide ParseDayItem, ToLower;
    if n > 0 {
      var before := NamesOf(days, n - 1);
      NamesParse(days, n - 1);
      DayNameFacts(n - 1);
      if n - 1 in days {
        LowerEachAppend(before, DAY_NAMES[n - 1]);
        var items := LowerEach(before) + [ToLower(DAY_NAMES[n - 1])];
        assert items[..|items| - 1] == LowerEach(before);
      }
    }
  }

  lemma {:induction false} JoinClean(parts: seq<string>, sep: string)
    requires Clean(sep) && parts != [] && parts[0] != "" && forall p :: p in parts ==> Clean(p) && p != ""
    ensures Clean(Join(parts, sep)) && Join(parts, sep) != "" && Join(parts, sep)[0] == parts[0][0]
  {
    assert parts[0] in parts;
    if |parts| > 1 {
      assert parts[1] in parts;
      JoinClean(parts[1..], sep);
    }
  }

  lemma CleanTight(s: string)
    requires Clean(s) && s != ""
    ensures Tight(s) && NoSpace(s)
  {
  }

  lemma DaysRoundTrip(days: set<int>)
    requires days != {} && days <= EVERY_DAY
    ensures var text := Join(NamesOf(days, 7), ",");
            ParseDaysSpec(text) == Ok(days) && Clean(text) && text != ""
  {
    hide ParseDayItems, NamesOf, Join, ToLower, LowerEach, TrimSpace, Split;
    var names := NamesOf(days, 7);
    var text := Join(names, ",");
    NamesParse(days, 7);
    NamesAreDays(days, 7);
    WholeWeek(days);
    forall x | x in names ensures Clean(x) && x != "" && x[0] in {'S', 'M', 'T', 'W', 'F'} {
      var d :| 0 <= d < 7 && d in days && x == DAY_NAMES[d];
      DayNameFacts(d);
    }
    assert names[0] in names;
    JoinClean(names, ",");
    CleanTight(text);
    TrimTight(text);
    FirstLower(text);
    LowerJoin(names);
    LowerEachLength(names);
    SplitJoin(LowerEach(names), ',');
  }

  lemma {:induction false} LowerEachLength(names: seq<string>)
    ensures |LowerEach(names)| == |names|
  {
    if names != [] { LowerEachLength(names[1..]); }
  }

  /** A text that starts like a weekday is none of the words for every day. */
  lemma FirstLower(s: string)
    requires s != "" && s[0] in {'S', 'M', 'T', 'W', 'F'}
    ensures ToLower(s) !in {"*", "daily", "all", "everyday"}
  {
    assert ToLower(s)[0] == Lower(s[0]);
  }

  // ---- One window ----------------------------------------------------------------------

  lemma ConcatClean(a: string, b: string)
    requires Clean(a) && Clean(b)
    ensures Clean(a + b)
  {
  }

  /** One window's text: the parser takes days, times and zone from it, in this order. */
  lemma PartIs(text: string, days: set<int>, start: nat, end: nat, loc: Location, zones: Zones)
    requires ParseDaysSpec(text) == Ok(days) && Clean(text) && text != "" && start < end < 24 * 60
    requires loc.name != "" && Clean(loc.name) && LoadZone(loc.name, zones) == Ok(loc)
    ensures var part := text + " " + (Clock(start) + "-" + Clock(end)) + " " + loc.name;
            ParsePart(part, zones) == Ok(Window(days, start, end, loc)) && Tight(part) && ';' !in part
  {
    hide Clock, ParseClock, ParseDaysSpec, Fields, Cut, LoadZone, Clean;
    var from, to, zone := Clock(start), Clock(end), loc.name;
    var range := from + "-" + to;
    ClockRoundTrip(start);
    ClockRoundTrip(end);
    CutAt(from, '-', to);
    DashClean();
    ConcatClean(from, "-");
    ConcatClean(from + "-", to);
    CleanTight(text);
    CleanTight(range);
    CleanTight(zone);
    ThreeFields(text, range, zone);
    PartTight(text, range, zone);
  }

  lemma PartRoundTrip(w: Window, zones: Zones)
    requires Accepted(w, zones) && WellFormed(w)
    ensures ParsePart(PrintWindow(w), zones) == Ok(w)
    ensures Tight(PrintWindow(w)) && ';' !in PrintWindow(w)
  {
    hide Join, NamesOf, Clock, ParseClock, ParseDaysSpec, LoadZone, Clean, WellFormed, ParsePart;
    DaysRoundTrip(w.days);
    PartIs(Join(NamesOf(w.days, 7), ","), w.days, w.start, w.end, w.loc, zones);
  }

  lemma DashClean()
    ensures Clean("-")
  {
  }

  lemma PartTight(a: string, b: string, c: string)
    requires Clean(a) && Clean(b) && Clean(c) && a != "" && c != ""
    ensures Tight(a + " " + b + " " + c) && ';' !in a + " " + b + " " + c
  {
  }

  // ---- The whole list --------------------------------------------------------------------

  /** The pieces between semicolons: every part after the first has a leading blank. */
  function Spaced(parts: seq<string>): (r: seq<string>)
    ensures |r| == |parts|
    ensures forall i :: 0 <= i < |r| ==> r[i] == parts[i] || r[i] == " " + parts[i]
  {
    if parts == [] then [] else [parts[0]] + BlankEach(parts[1..])
  }

  function BlankEach(parts: seq<string>): (r: seq<string>)
    ensures |r| == |parts|
    ensures forall i :: 0 <= i < |r| ==> r[i] == " " + parts[i]
  {
    if parts == [] then [] else [" " + parts[0]] + BlankEach(parts[1..])
  }

  lemma {:induction false} JoinBlank(parts: seq<string>)
    requires parts != []
    ensures Join(BlankEach(parts), ";") == " " + Join(parts, "; ")
  {
    if |parts| > 1 {
      JoinBlank(parts[1..]);
      var tail := Join(parts[1..], "; ");
      assert " " + parts[0] + ";" + (" " + tail) == " " + (parts[0] + "; " + tail);
    }
  }

  lemma JoinSpaced(parts: seq<string>)
    requires parts != []
    ensures Join(Spaced(parts), ";") == Join(parts, "; ")
  {
    hide Join, BlankEach;
    if |parts| == 1 {
      JoinOne(parts, ";");
      JoinOne(parts, "; ");
    } else {
      JoinBlank(parts[1..]);
      assert Spaced(parts)[0] == parts[0] && Spaced(parts)[1..] == BlankEach(parts[1..]);
      JoinFirst(Spaced(parts), ";");
      JoinFirst(parts, "; ");
      Regroup(parts[0], Join(parts[1..], "; "));
    }
  }

  lemma JoinOne(parts: seq<string>, sep: string)
    requires |parts| == 1
    ensures Join(parts, sep) == parts[0] && Spaced(parts) == parts
  {
  }

  lemma JoinFirst(parts: seq<string>, sep: string)
    requires |parts| > 1
    ensures Join(parts, sep) == parts[0] + sep + Join(parts[1..], sep)
  {
  }

  lemma Regroup(a: string, b: string)
    ensures a + ";" + (" " + b) == a + "; " + b
  {
  }

  lemma {:induction false} JoinTight(parts: seq<string>)
    requires parts != [] && forall p :: p in parts ==> Tight(p)
    ensures Tight(Join(parts, "; "))
  {
    assert parts[0] in parts;
    if |parts| > 1 { JoinTight(parts[1..]); }
  }

  lemma {:induction false} PiecesParse(pieces: seq<string>, parts: seq<string>, vs: Windows, zones: Zones)
    requires |pieces| == |parts| == |vs|
    requires forall i :: 0 <= i < |parts| ==>
               && Tight(parts[i]) && (pieces[i] == parts[i] || pieces[i] == " " + parts[i])
               && ParsePart(parts[i], zones) == Ok(vs[i])
    ensures ParseParts(pieces, zones) == Ok(vs)
  {
    hide ParsePart, TrimSpace;
    if parts != [] {
      var n := |parts| - 1;
      PiecesParse(pieces[..n], parts[..n], vs[..n], zones);
      TrimTight(parts[n]);
      assert vs == vs[..n] + [vs[n]];
    }
  }

  /** The window a part stands for. */
  function Meaning(part: string, zones: Zones): Window {
    match ParsePart(part, zones)
    case Ok(w) => w
    case Err => Window({}, 0, 0, UTC)
  }

  function Meanings(parts: seq<string>, zones: Zones): (r: Windows)
    ensures |r| == |parts| && forall i :: 0 <= i < |r| ==> r[i] == Meaning(parts[i], zones)
  {
    if parts == [] then [] else [Meaning(parts[0], zones)] + Meanings(parts[1..], zones)
  }

  function Without<T>(s: seq<T>, i: nat): (r: seq<T>)
    requires i < |s|
    ensures |r| == |s| - 1
  {
    s[..i] + s[i + 1..]
  }

  lemma RemoveOne<T>(s: seq<T>, i: nat)
    requires i < |s|
    ensures multiset(s) == multiset(Without(s, i)) + multiset{s[i]}
    ensures multiset(Without(s, i)) == multiset(s) - multiset{s[i]}
  {
    assert s == s[..i] + ([s[i]] + s[i + 1..]);
  }

  lemma MeaningsWithout(b: seq<string>, i: nat, zones: Zones)
    requires i < |b|
    ensures Meanings(Without(b, i), zones) == Without(Meanings(b, zones), i)
  {
  }

  lemma {:induction false} MeaningsIgnoreOrder(a: seq<string>, b: seq<string>, zones: Zones)
    requires multiset(a) == multiset(b)
    ensures multiset(Meanings(a, zones)) == multiset(Meanings(b, zones))
    decreases |a|
  {
    hide Meaning, Meanings, Without;
    if a == [] {
      assert |multiset(b)| == 0;
    } else {
      assert a[0] in multiset(b);
      var i :| 0 <= i < |b| && b[i] == a[0];
      RemoveOne(a, 0);
      RemoveOne(b, i);
      MeaningsIgnoreOrder(Without(a, 0), Without(b, i), zones);
      MeaningsWithout(a, 0, zones);
      MeaningsWithout(b, i, zones);
      RemoveOne(Meanings(a, zones), 0);
      RemoveOne(Meanings(b, zones), i);
    }
  }

  lemma PrintedMeanings(ws: Windows, zones: Zones)
    requires AllWellFormed(ws) && forall w :: w in ws ==> Accepted(w, zones)
    ensures Meanings(PrintEach(ws), zones) == ws
    ensures forall p :: p in PrintEach(ws) ==>
              Tight(p) && ';' !in p && ParsePart(p, zones) == Ok(Meaning(p, zones))
  {
    hide ParsePart, PrintWindow, Accepted;
    var parts := PrintEach(ws);
    forall i | 0 <= i < |ws|
      ensures ParsePart(parts[i], zones) == Ok(ws[i]) && Tight(parts[i]) && ';' !in parts[i]
    {
      assert ws[i] in ws;
      PartRoundTrip(ws[i], zones);
    }
  }

  /** Splitting the joined parts gives them back, but for the leading blanks. */
  lemma JoinedPartsSplit(parts: seq<string>)
    requires parts != [] && forall p :: p in parts ==> Tight(p) && ';' !in p
    ensures var text := Join(parts, "; ");
            TrimSpace(text) == text && text != "" && Split(text, ';') == Spaced(parts)
  {
    hide TrimSpace, Split, Join;
    var text := Join(parts, "; ");
    JoinTight(parts);
    TrimTight(text);
    JoinSpaced(parts);
    forall p | p in Spaced(parts) ensures ';' !in p {
      var i :| 0 <= i < |parts| && Spaced(parts)[i] == p;
      assert parts[i] in parts;
    }
    SplitJoin(Spaced(parts), ';');
  }

  /** The sorted parts are the printed windows in another order. */
  lemma SortedParts(ws: Windows, zones: Zones)
    requires AllWellFormed(ws) && ws != [] && forall w :: w in ws ==> Accepted(w, zones)
    ensures var parts := Sorted(PrintEach(ws));
            && |parts| == |ws| && multiset(Meanings(parts, zones)) == multiset(ws)
            && forall p :: p in parts ==> Tight(p) && ';' !in p && ParsePart(p, zones) == Ok(Meaning(p, zones))
  {
    hide ParsePart, PrintWindow, Sorted, Accepted, Meaning;
    var parts := Sorted(PrintEach(ws));
    PrintedMeanings(ws, zones);
    MeaningsIgnoreOrder(parts, PrintEach(ws), zones);
    assert forall p :: p in parts <==> p in multiset(parts);
    assert forall p :: p in PrintEach(ws) <==> p in multiset(PrintEach(ws));
    assert |parts| == |multiset(parts)| && |PrintEach(ws)| == |multiset(PrintEach(ws))|;
  }

  /** Printing accepted windows and parsing the text yields the same windows, in some order. */
  lemma {:induction false} PrintThenParse(ws: Windows, zones: Zones)
    requires AllWellFormed(ws) && ws != [] && forall w :: w in ws ==> Accepted(w, zones)
    ensures ParseText(PrintText(ws), zones).Ok?
    ensures multiset(ParseText(PrintText(ws), zones).value) == multiset(ws)
  {
    hide ParsePart, TrimSpace, Split, PrintEach, Sorted, Join, Accepted, ParseParts, Meaning;
    var parts := Sorted(PrintEach(ws));
    SortedParts(ws, zones);
    JoinedPartsSplit(parts);
    PiecesParse(Spaced(parts), parts, Meanings(parts, zones), zones);
  }

  /** "always", the rendering of the empty list, is no window. */
  lemma AlwaysIsNoWindow(zones: Zones)
    ensures ParseText(PrintText([]), zones).Err?
  {
    var s := "always";
    assert Tight(s) && NoSpace(s) && ';' !in s;
    TrimTight(s);
    LastField(s);
    assert Split(s, ';') == [s];
    assert [s][..0] == [];
  }

  /** For any accepted text: parse, print and parse again recovers the windows exactly when there are any. */
  lemma RoundTrip(text: string, zones: Zones)
    requires ParseText(text, zones).Ok?
    ensures var ws := ParseText(text, zones).value;
            AllWellFormed(ws)
            && var again := ParseText(PrintText(ws), zones);
               (again.Ok? && multiset(again.value) == multiset(ws)) <==> ws != []
    ensures var ws := ParseText(text, zones).value;
            AllWellFormed(ws)
            && (ws != [] ==>
                  var again := ParseText(PrintText(ws), zones);
                  again.Ok? && forall t :: Allowed(again.value, t) <==> Allowed(ws, t))
  {
    hide ParseText, PrintText;
    var ws := ParseText(text, zones).value;
    TextAccepted(text, zones);
    if ws == [] {
      AlwaysIsNoWindow(zones);
    } else {
      PrintThenParse(ws, zones);
      var vs := ParseText(PrintText(ws), zones).value;
      forall t ensures Allowed(vs, t) <==> Allowed(ws, t) {
        AllowedIgnoresOrder(vs, ws, t);
      }
    }
  }

  lemma {:induction false} PrintEachPermutes(ws: Windows, vs: Windows)
    requires AllWellFormed(ws) && AllWellFormed(vs) && multiset(ws) == multiset(vs)
    ensures multiset(PrintEach(ws)) == multiset(PrintEach(vs))
    decreases |ws|
  {
    hide PrintWindow, WellFormed, PrintEach;
    if ws == [] {
      assert |multiset(vs)| == 0;
    } else {
      assert ws[0] in multiset(vs);
      var i :| 0 <= i < |vs| && vs[i] == ws[0];
      RemoveOne(ws, 0);
      RemoveOne(vs, i);
      assert forall w :: w in Without(ws, 0) ==> w in ws;
      assert forall w :: w in Without(vs, i) ==> w in vs;
      PrintEachPermutes(Without(ws, 0), Without(vs, i));
      assert PrintEach(Without(ws, 0)) == Without(PrintEach(ws), 0);
      assert PrintEach(Without(vs, i)) == Without(PrintEach(vs), i);
      RemoveOne(PrintEach(ws), 0);
      RemoveOne(PrintEach(vs), i);
    }
  }

  /** The text of a list of windows does not depend on their order. */
  lemma PrintIgnoresOrder(ws: Windows, vs: Windows)
    requires AllWellFormed(ws) && AllWellFormed(vs) && multiset(ws) == multiset(vs)
    ensures PrintText(ws) == PrintText(vs)
  {
    hide PrintWindow, WellFormed, PrintEach, Sorted, Join;
    assert |multiset(ws)| == |ws| && |multiset(vs)| == |vs|;
    PrintEachPermutes(ws, vs);
    SortAscends(PrintEach(ws));
    SortAscends(PrintEach(vs));
    AscendingIsUnique(Sorted(PrintEach(ws)), Sorted(PrintEach(vs)));
  }
}
