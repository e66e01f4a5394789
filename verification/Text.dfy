/** The string routines of Go's standard library that the window parser and printer call. */
module Text {
  import opened Wrappers

  /** unicode.IsSpace */
  predicate IsSpace(c: char) {
    || c in {' ', '\t', '\n', '\U{000B}', '\U{000C}', '\r', '\U{0085}', '\U{00A0}', '\U{1680}'}
    || c in {'\U{2028}', '\U{2029}', '\U{202F}', '\U{205F}', '\U{3000}'}
    || '\U{2000}' <= c <= '\U{200A}'
  }

  predicate IsDigit(c: char) { '0' <= c <= '9' }

  /** unicode.ToLower, as far as it can reach an ASCII letter: two other letters fold into ASCII. */
  function Lower(c: char): char {
    if 'A' <= c <= 'Z' then (c as int + 32) as char
    else if c == '\U{0130}' then 'i'
    else if c == '\U{212A}' then 'k'
    else c
  }

  function ToLower(s: string): string {
    if s == "" then "" else [Lower(s[0])] + ToLower(s[1..])
  }

  function TrimLeft(s: string): string {
    if s != "" && IsSpace(s[0]) then TrimLeft(s[1..]) else s
  }

  function TrimRight(s: string): string {
    if s != "" && IsSpace(s[|s| - 1]) then TrimRight(s[..|s| - 1]) else s
  }

  function TrimSpace(s: string): string { TrimRight(TrimLeft(s)) }

  /** The text before and after the first separator: strings.SplitN(s, sep, 2). */
  function Cut(s: string, sep: char): (r: Option<(string, string)>)
    ensures r.None? <==> sep !in s
    ensures r.Some? ==> s == r.value.0 + [sep] + r.value.1 && sep !in r.value.0
  {
    if s == "" then None
    else if s[0] == sep then Some(("", s[1..]))
    else
      match Cut(s[1..], sep)
      case None => None
      case Some(p) => Some(([s[0]] + p.0, p.1))
  }

  /** strings.Split with a one-character separator. */
  function Split(s: string, sep: char): (r: seq<string>)
    ensures |r| > 0
    decreases |s|
  {
    match Cut(s, sep)
    case None => [s]
    case Some(p) => [p.0] + Split(p.1, sep)
  }

  /** The longest prefix without white space. */
  function Word(s: string): (w: string)
    ensures |w| <= |s| && w == s[..|w|]
    ensures NoSpace(w)
    ensures |w| < |s| ==> IsSpace(s[|w|])
  {
    if s == "" || IsSpace(s[0]) then "" else [s[0]] + Word(s[1..])
  }

  /** strings.Fields */
  function Fields(s: string): seq<string>
    decreases |s|
  {
    if s == "" then []
    else if IsSpace(s[0]) then Fields(s[1..])
    else [Word(s)] + Fields(s[|Word(s)|..])
  }

  function Join(parts: seq<string>, sep: string): string {
    if parts == [] then ""
    else if |parts| == 1 then parts[0]
    else parts[0] + sep + Join(parts[1..], sep)
  }

  // ---- Ordering ------------------------------------------------------------------

  /** Byte order of UTF-8 strings, which is the order of their code points. */
  predicate AtMost(a: string, b: string) {
    a == "" || (b != "" && (a[0] < b[0] || (a[0] == b[0] && AtMost(a[1..], b[1..]))))
  }

  function Insert(x: string, s: seq<string>): (r: seq<string>)
    ensures multiset(r) == multiset(s) + multiset{x}
  {
    if s == [] || AtMost(x, s[0]) then [x] + s
    else
      assert s == [s[0]] + s[1..];
      [s[0]] + Insert(x, s[1..])
  }

  /** The strings in ascending order: sort.Strings. */
  function Sorted(s: seq<string>): (r: seq<string>)
    ensures multiset(r) == multiset(s)
  {
    if s == [] then []
    else
      assert s == [s[0]] + s[1..];
      Insert(s[0], Sorted(s[1..]))
  }

  // ---- Facts the round trip needs ----------------------------------------------------

  predicate NoSpace(s: string) { forall i :: 0 <= i < |s| ==> !IsSpace(s[i]) }

  /** Neither end is white space, and there is something in between. */
  predicate Tight(s: string) { s != "" && !IsSpace(s[0]) && !IsSpace(s[|s| - 1]) }

  lemma {:induction false} TrimTight(s: string)
    requires Tight(s)
    ensures TrimSpace(s) == s && TrimSpace(" " + s) == s
  {
  }

  lemma {:induction false} CutAt(a: string, sep: char, b: string)
    requires sep !in a
    ensures Cut(a + [sep] + b, sep) == Some((a, b))
  {
    var s := a + [sep] + b;
    if a == "" {
      assert s[1..] == b;
    } else {
      assert s[0] == a[0] && a[0] in a && a == [a[0]] + a[1..];
      assert s[1..] == a[1..] + [sep] + b;
      CutAt(a[1..], sep, b);
    }
  }

  /** Splitting undoes joining when no part contains the separator. */
  lemma {:induction false} SplitJoin(parts: seq<string>, sep: char)
    requires parts != [] && forall p :: p in parts ==> sep !in p
    ensures Split(Join(parts, [sep]), sep) == parts
  {
    if |parts| == 1 {
      assert sep !in parts[0];
    } else {
      CutAt(parts[0], sep, Join(parts[1..], [sep]));
      SplitJoin(parts[1..], sep);
    }
  }

  lemma {:induction false} SplitPieces(s: string, sep: char)
    ensures forall p :: p in Split(s, sep) ==> sep !in p && forall c :: c in p ==> c in s
    decreases |s|
  {
    if Cut(s, sep).Some? { SplitPieces(Cut(s, sep).value.1, sep); }
  }

  lemma {:induction false} TrimPieces(s: string)
    ensures forall c :: c in TrimSpace(s) ==> c in s
  {
    TrimLeftPieces(s);
    TrimRightPieces(TrimLeft(s));
  }

  lemma TrimLeftPieces(s: string)
    ensures forall c :: c in TrimLeft(s) ==> c in s
  {
  }

  lemma TrimRightPieces(s: string)
    ensures forall c :: c in TrimRight(s) ==> c in s
  {
  }

  lemma {:induction false} FieldPieces(s: string)
    ensures forall f :: f in Fields(s) ==> f != "" && NoSpace(f) && forall c :: c in f ==> c in s
    decreases |s|
  {
    if s != "" {
      if IsSpace(s[0]) { FieldPieces(s[1..]); } else { FieldPieces(s[|Word(s)|..]); }
    }
  }

  lemma {:induction false} WordOf(a: string, rest: string)
    requires NoSpace(a) && (rest == "" || IsSpace(rest[0]))
    ensures Word(a + rest) == a
  {
    if a == "" {
      assert a + rest == rest;
    } else {
      assert (a + rest)[1..] == a[1..] + rest;
      WordOf(a[1..], rest);
    }
  }

  lemma FirstField(a: string, rest: string)
    requires a != "" && NoSpace(a)
    ensures Fields(a + (" " + rest)) == [a] + Fields(rest)
  {
    var tail := " " + rest;
    WordOf(a, tail);
    assert (a + tail)[|a|..] == tail && tail[1..] == rest;
  }

  lemma LastField(a: string)
    requires a != "" && NoSpace(a)
    ensures Fields(a) == [a]
  {
    WordOf(a, "");
    assert a + "" == a;
  }

  lemma ThreeFields(a: string, b: string, c: string)
    requires a != "" && NoSpace(a) && b != "" && NoSpace(b) && c != "" && NoSpace(c)
    ensures Fields(a + " " + b + " " + c) == [a, b, c]
  {
    hide Fields, NoSpace;
    FirstField(a, b + (" " + c));
    FirstField(b, c);
    LastField(c);
    assert a + " " + b + " " + c == a + (" " + (b + (" " + c)));
  }

  // ---- Sorting ------------------------------------------------------------------------

  ghost predicate Ascending(s: seq<string>) { forall i, j :: 0 <= i < j < |s| ==> AtMost(s[i], s[j]) }

  lemma {:induction false} OrderTotal(a: string, b: string)
    ensures AtMost(a, b) || AtMost(b, a)
    ensures AtMost(a, b) && AtMost(b, a) ==> a == b
  {
    if a != "" && b != "" {
      OrderTotal(a[1..], b[1..]);
      assert a == [a[0]] + a[1..] && b == [b[0]] + b[1..];
    }
  }

  lemma {:induction false} OrderTransitive(a: string, b: string, c: string)
    requires AtMost(a, b) && AtMost(b, c)
    ensures AtMost(a, c)
  {
    if a != "" && a[0] == b[0] && b[0] == c[0] { OrderTransitive(a[1..], b[1..], c[1..]); }
  }

  lemma Prepended(x: string, s: seq<string>)
    requires Ascending(s) && forall y :: y in s ==> AtMost(x, y)
    ensures Ascending([x] + s)
  {
    hide AtMost;
  }

  lemma FirstIsLeast(s: seq<string>)
    requires Ascending(s) && s != []
    ensures Ascending(s[1..]) && s == [s[0]] + s[1..] && forall y :: y in s[1..] ==> AtMost(s[0], y)
  {
    hide AtMost;
  }

  lemma InsertedMembers(x: string, s: seq<string>)
    ensures forall y :: y in Insert(x, s) <==> y == x || y in s
  {
    var r := Insert(x, s);
    assert forall y :: y in r <==> y in multiset(r);
    assert forall y :: y in s <==> y in multiset(s);
  }

  lemma {:induction false} InsertAscends(x: string, s: seq<string>)
    requires Ascending(s)
    ensures Ascending(Insert(x, s))
  {
    hide AtMost, Ascending;
    if s == [] {
      Single(x);
    } else {
      FirstIsLeast(s);
      OrderTotal(x, s[0]);
      if AtMost(x, s[0]) {
        forall y | y in s[1..] ensures AtMost(x, y) { OrderTransitive(x, s[0], y); }
        Prepended(x, s);
      } else {
        InsertAscends(x, s[1..]);
        InsertedMembers(x, s[1..]);
        Prepended(s[0], Insert(x, s[1..]));
      }
    }
  }

  lemma Single(x: string)
    ensures Ascending([x] + []) && Insert(x, []) == [x] + []
  {
  }

  lemma NoneAscends()
    ensures Ascending([])
  {
  }

  lemma {:induction false} SortAscends(s: seq<string>)
    ensures Ascending(Sorted(s))
  {
    hide Insert, AtMost, Ascending;
    if s == [] {
      NoneAscends();
    } else {
      SortAscends(s[1..]);
      InsertAscends(s[0], Sorted(s[1..]));
    }
  }

  lemma LeastIn(a: seq<string>, b: seq<string>)
    requires Ascending(a) && a != [] && b != [] && multiset(a) == multiset(b)
    ensures AtMost(a[0], b[0])
  {
    hide AtMost;
    assert b[0] in multiset(a);
    var i :| 0 <= i < |a| && a[i] == b[0];
    if i == 0 { OrderTotal(a[0], b[0]); }
  }

  /** There is one way to sort. */
  lemma {:induction false} AscendingIsUnique(a: seq<string>, b: seq<string>)
    requires Ascending(a) && Ascending(b) && multiset(a) == multiset(b)
    ensures a == b
  {
    hide AtMost, Ascending;
    assert |multiset(a)| == |a| && |multiset(b)| == |b|;
    if a != [] {
      LeastIn(a, b);
      LeastIn(b, a);
      OrderTotal(a[0], b[0]);
      FirstIsLeast(a);
      FirstIsLeast(b);
      assert multiset(a[1..]) == multiset(a) - multiset{a[0]};
      assert multiset(b[1..]) == multiset(b) - multiset{b[0]};
      AscendingIsUnique(a[1..], b[1..]);
    }
  }

  // ---- What trimming, splitting and fields leave of a text -------------------------------------

  ghost predicate AllSpace(s: string) { forall c :: c in s ==> IsSpace(c) }

  lemma {:induction false} LeftIs(s: string) returns (a: string)
    ensures AllSpace(a) && s == a + TrimLeft(s) && (TrimLeft(s) == "" || !IsSpace(TrimLeft(s)[0]))
  {
    if s != "" && IsSpace(s[0]) {
      a := LeftIs(s[1..]);
      a := [s[0]] + a;
    } else {
      a := "";
    }
  }

  lemma {:induction false} RightIs(s: string) returns (b: string)
    ensures AllSpace(b) && s == TrimRight(s) + b && (TrimRight(s) == "" || !IsSpace(TrimRight(s)[|TrimRight(s)| - 1]))
  {
    var n := |s| - 1;
    if s != "" && IsSpace(s[n]) {
      b := RightIs(s[..n]);
      assert s == s[..n] + [s[n]] == TrimRight(s) + (b + [s[n]]);
      b := b + [s[n]];
    } else {
      b := "";
    }
  }

  /** Trimming takes all white space from both ends, and nothing else. */
  lemma TrimmedIs(s: string) returns (a: string, b: string)
    ensures AllSpace(a) && AllSpace(b) && s == a + TrimSpace(s) + b
    ensures TrimSpace(s) == "" || Tight(TrimSpace(s))
  {
    a := LeftIs(s);
    b := RightIs(TrimLeft(s));
    if TrimSpace(s) != "" { assert TrimLeft(s)[0] == TrimSpace(s)[0]; }
  }

  /** Joining undoes splitting. */
  lemma {:induction false} JoinSplit(s: string, sep: char)
    ensures Join(Split(s, sep), [sep]) == s
    decreases |s|
  {
    match Cut(s, sep)
    case None =>
    case Some(p) => JoinSplit(p.1, sep);
  }

  /** The text without its white space. */
  function Squeezed(s: string): string {
    if s == "" then "" else (if IsSpace(s[0]) then "" else [s[0]]) + Squeezed(s[1..])
  }

  lemma {:induction false} SqueezedWord(w: string, rest: string)
    requires NoSpace(w)
    ensures Squeezed(w + rest) == w + Squeezed(rest)
  {
    if w == "" {
      assert w + rest == rest;
    } else {
      assert (w + rest)[1..] == w[1..] + rest;
      SqueezedWord(w[1..], rest);
    }
  }

  /** The fields hold all of the text but its white space, in order. */
  lemma {:induction false} FieldsKeepAll(s: string)
    ensures Join(Fields(s), "") == Squeezed(s)
    decreases |s|
  {
    hide Squeezed;
    if s == "" {
      NothingSqueezed();
    } else if IsSpace(s[0]) {
      FieldsKeepAll(s[1..]);
      SpaceSqueezed(s);
    } else {
      var w := Word(s);
      FieldsKeepAll(s[|w|..]);
      assert s == w + s[|w|..];
      SqueezedWord(w, s[|w|..]);
      JoinFirstField(w, Fields(s[|w|..]));
    }
  }

  lemma NothingSqueezed()
    ensures Squeezed("") == ""
  {
  }

  lemma SpaceSqueezed(s: string)
    requires s != "" && IsSpace(s[0])
    ensures Squeezed(s) == Squeezed(s[1..])
  {
  }

  lemma JoinFirstField(w: string, rest: seq<string>)
    ensures Join([w] + rest, "") == w + Join(rest, "")
  {
  }
}
