/**
  Copyright years: a set of years written as comma-separated ranges, and read
  back from such a text.
 */
module YearRanges {
  import opened Options
  import opened Text
  import opened Collections

  // ---------- Ranges ----------

  type Range = (int, int)

  ghost predicate InRange(r: Range, y: int) { r.0 <= y <= r.1 }

  ghost predicate Covered(ranges: seq<Range>, y: int) { exists i | 0 <= i < |ranges| :: InRange(ranges[i], y) }

  /** Together the ranges hold exactly the years of S. */
  ghost predicate Covers(ranges: seq<Range>, S: set<int>) {
    forall y :: y in S <==> Covered(ranges, y)
  }

  /** Each range ends at least two years before the later ones begin. */
  ghost predicate Apart(ranges: seq<Range>) {
    && (forall i | 0 <= i < |ranges| :: ranges[i].0 <= ranges[i].1)
    && (forall i, j | 0 <= i < j < |ranges| :: ranges[i].1 + 1 < ranges[j].0)
  }

  ghost predicate Runs(ranges: seq<Range>, S: set<int>) { Covers(ranges, S) && Apart(ranges) }

  /** The year before a run is not in the set. */
  lemma RunStarts(runs: seq<Range>, S: set<int>, i: nat)
    requires Runs(runs, S) && i < |runs|
    ensures runs[i].0 in S && runs[i].0 - 1 !in S
  {
    assert InRange(runs[i], runs[i].0);
  }

  ghost function Starts(ranges: seq<Range>): seq<int> { seq(|ranges|, i requires 0 <= i < |ranges| => ranges[i].0) }

  /** No other way to write the set has fewer ranges. */
  lemma RunsAreFewest(runs: seq<Range>, others: seq<Range>, S: set<int>)
    requires Runs(runs, S) && Covers(others, S)
    ensures |runs| <= |others|
  {
    var starts, lefts := Starts(runs), Starts(others);
    forall a | a in SetOf(starts) ensures a in SetOf(lefts) {
      var i :| 0 <= i < |runs| && runs[i].0 == a;
      RunStarts(runs, S, i);
      var j :| 0 <= j < |others| && InRange(others[j], a);
      assert !Covered(others, a - 1);
      assert !InRange(others[j], a - 1);
      assert lefts[j] == a;
    }
    assert NoRepeats(starts);
    SetSize(starts);
    SetSize(lefts);
    SubsetSize(SetOf(starts), SetOf(lefts));
  }

  lemma CoveredAppend(ranges: seq<Range>, r: Range, y: int)
    ensures Covered(ranges + [r], y) <==> Covered(ranges, y) || InRange(r, y)
  {
    if Covered(ranges, y) {
      var i :| 0 <= i < |ranges| && InRange(ranges[i], y);
      assert (ranges + [r])[i] == ranges[i];
    }
    if InRange(r, y) { assert (ranges + [r])[|ranges|] == r; }
  }

  lemma GrowRun(runs: seq<Range>, first: int, second: int, S: set<int>)
    requires Runs(runs + [(first, second)], S)
    ensures Runs(runs + [(first, second + 1)], S + {second + 1})
  {
    assert (runs + [(first, second)])[|runs|] == (first, second);
    var next := second + 1;
    forall y ensures y in S + {next} <==> Covered(runs + [(first, next)], y) {
      CoveredAppend(runs, (first, second), y);
      CoveredAppend(runs, (first, next), y);
    }
    ApartLast(runs, (first, second), (first, next));
  }

  lemma ApartLast(runs: seq<Range>, r: Range, r': Range)
    requires Apart(runs + [r]) && r'.0 == r.0 && r'.0 <= r'.1
    ensures Apart(runs + [r'])
  {
    var a, b := runs + [r], runs + [r'];
    forall i | 0 <= i < |b| ensures b[i].0 <= b[i].1 { assert i < |runs| ==> b[i] == a[i]; }
    forall i, j | 0 <= i < j < |b| ensures b[i].1 + 1 < b[j].0 {
      assert b[i] == a[i] && b[j].0 == a[j].0;
    }
  }

  lemma NewRun(runs: seq<Range>, first: int, second: int, next: int, S: set<int>)
    requires Runs(runs + [(first, second)], S) && next > second + 1
    ensures Runs(runs + [(first, second)] + [(next, next)], S + {next})
  {
    var all := runs + [(first, second)];
    assert all[|runs|] == (first, second);
    forall y ensures y in S + {next} <==> Covered(all + [(next, next)], y) {
      CoveredAppend(all, (next, next), y);
    }
  }

  // ---------- Printing ----------

  /** %d */
  function Show(n: int): string { if n < 0 then "-" + Decimal(-n) else Decimal(n) }

  function ShowRange(r: Range): string {
    if r.0 == r.1 then Show(r.0) else Show(r.0) + "-" + Show(r.1)
  }

  function ShowAll(ranges: seq<Range>): seq<string> {
    seq(|ranges|, i requires 0 <= i < |ranges| => ShowRange(ranges[i]))
  }

  ghost predicate Rising(s: seq<int>) { forall i, j | 0 <= i < j < |s| :: s[i] < s[j] }

  method SortYears(S: set<int>) returns (dates: seq<int>)
    ensures Rising(dates) && SetOf(dates) == S
  {
    dates := [];
    var rest := S;
    while rest != {}
      invariant Rising(dates) && SetOf(dates) + rest == S && SetOf(dates) !! rest
      decreases rest
    {
      ghost var some := Element(rest);
      var y :| y in rest;
      var k := 0;
      while k < |dates| && dates[k] < y
        invariant 0 <= k <= |dates| && forall i | 0 <= i < k :: dates[i] < y
      {
        k := k + 1;
      }
      InsertYear(dates, k, y);
      dates, rest := dates[..k] + [y] + dates[k..], rest - {y};
    }
  }

  lemma InsertYear(s: seq<int>, k: nat, y: int)
    requires Rising(s) && y !in s && k <= |s|
    requires (forall i | 0 <= i < k :: s[i] < y) && (k < |s| ==> y <= s[k])
    ensures var t := s[..k] + [y] + s[k..]; Rising(t) && SetOf(t) == SetOf(s) + {y}
  {
    var t := s[..k] + [y] + s[k..];
    assert k < |s| ==> s[k] in s;
    assert s == s[..k] + s[k..];
    assert t[k] == y;
  }

  /** Write a set of years; there is nothing to write for no years. */
  method DateStr(S: set<int>) returns (text: Option<string>)
    ensures text.None? <==> S == {}
    ensures text.Some? ==> exists runs :: Runs(runs, S) && text.value == Join(ShowAll(runs), ',')
    ensures text.Some? ==> (ReadDates(text.value) == S <==> NeighboursFourDigit(S))
  {
    hide Runs, ReadDates, NeighboursFourDigit;
    var dates := SortYears(S);
    if dates == [] {
      return None;
    }
    var output: seq<string> := [];
    ghost var runs: seq<Range> := [];
    var first := dates[0];
    var second := first;
    ghost var seen := {first};
    dates := dates[1..];
    OneRun(first);
    while dates != []
      invariant Runs(runs + [(first, second)], seen) && output == ShowAll(runs)
      invariant Rising([second] + dates) && seen + SetOf(dates) == S
      decreases |dates|
    {
      var next := dates[0];
      assert ([second] + dates)[1] == next;
      PopYear(second, dates);
      if next == second + 1 {
        GrowRun(runs, first, second, seen);
        second := next;
      } else {
        NewRun(runs, first, second, next, seen);
        ShowAllAppend(runs, (first, second));
        output := output + [ShowRange((first, second))];
        runs := runs + [(first, second)];
        first, second := next, next;
      }
      seen := seen + {next};
      dates := dates[1..];
    }
    ShowAllAppend(runs, (first, second));
    output := output + [ShowRange((first, second))];
    text := Some(Join(output, ','));
    assert seen == S;
    assert Runs(runs + [(first, second)], S) && output == ShowAll(runs + [(first, second)]);
    YearsRoundTrip(runs + [(first, second)], S);
  }

  lemma OneRun(y: int)
    ensures Runs([] + [(y, y)], {y})
  {
    forall x ensures x in {y} <==> Covered([] + [(y, y)], x) { CoveredAppend([], (y, y), x); }
  }

  lemma PopYear(second: int, dates: seq<int>)
    requires Rising([second] + dates) && dates != []
    ensures second < dates[0] && Rising([dates[0]] + dates[1..]) && SetOf(dates) == {dates[0]} + SetOf(dates[1..])
  {
    var s := [second] + dates;
    assert s[0] < s[1];
    assert [dates[0]] + dates[1..] == s[1..];
    assert dates == [dates[0]] + dates[1..];
  }

  lemma ShowAllAppend(ranges: seq<Range>, r: Range)
    ensures ShowAll(ranges + [r]) == ShowAll(ranges) + [ShowRange(r)]
  {
  }

  // ---------- Reading ----------

  predicate FourDigits(s: string) { |s| >= 4 && forall c | c in s[..4] :: IsDigit(c) }

  /** Four digits, a dash between spaces, and four digits; what follows does not
      matter. */
  function MatchRange(s: string): Option<(nat, nat)> {
    if !FourDigits(s) then None
    else
      var dash := SkipSpace(s[4..]);
      if dash == [] || dash[0] != '-' then None
      else
        var last := SkipSpace(dash[1..]);
        if FourDigits(last) then Some((Value(s[..4]), Value(last[..4]))) else None
  }

  function Years(f: int, l: int): (ys: set<int>)
    ensures forall y :: y in ys <==> f <= y <= l
    decreases l - f
  {
    if f > l then {} else Years(f, l - 1) + {l}
  }

  /** The years one entry stands for; none if it cannot be read. */
  function Entry(date: string): set<int> {
    var m := MatchRange(date);
    if m.Some? then Years(m.value.0, m.value.1)
    else
      var n := ParseInt(date);
      if n.Some? then {n.value} else {}
  }

  function Entries(dates: seq<string>): set<int> {
    if dates == [] then {}
    else Entries(dates[..|dates| - 1]) + Entry(Strip(dates[|dates| - 1]))
  }

  function ReadDates(text: string): set<int> { Entries(Split(text, ',')) }

  /** An entry is a range exactly if it starts with four digits, a dash among blanks and
      four digits. */
  ghost predicate Spelled(s: string, x: string, a: string, b: string, z: string, rest: string) {
    && s == x + a + "-" + b + z + rest && |x| == |z| == 4 && Blank(a) && Blank(b)
    && (forall c | c in x :: IsDigit(c)) && (forall c | c in z :: IsDigit(c))
  }

  lemma MatchesSpelled(s: string, x: string, a: string, b: string, z: string, rest: string)
    requires Spelled(s, x, a, b, z, rest)
    ensures MatchRange(s) == Some((Value(x), Value(z)))
  {
    assert s[..4] == x && s[4..] == a + ("-" + b + z + rest);
    SkipBlank(a, "-" + b + z + rest);
    assert ("-" + b + z + rest)[1..] == b + (z + rest);
    SkipBlank(b, z + rest);
    assert z[0] in z && (z + rest)[0] == z[0] && (z + rest)[..4] == z;
  }

  lemma {:induction false} Skipped(s: string) returns (a: string)
    ensures Blank(a) && s == a + SkipSpace(s)
  {
    a := [];
    if s != [] && IsSpace(s[0]) {
      a := Skipped(s[1..]);
      a := [s[0]] + a;
    }
  }

  lemma SpelledIfMatches(s: string) returns (x: string, a: string, b: string, z: string, rest: string)
    requires MatchRange(s).Some?
    ensures Spelled(s, x, a, b, z, rest)
  {
    x := s[..4];
    a := Skipped(s[4..]);
    var dash := SkipSpace(s[4..]);
    b := Skipped(dash[1..]);
    var last := SkipSpace(dash[1..]);
    z, rest := last[..4], last[4..];
    assert dash == "-" + dash[1..];
  }

  lemma {:induction false} SameEntries(dates: seq<string>, dates': seq<string>)
    requires |dates| == |dates'| && forall k | 0 <= k < |dates| :: Strip(dates[k]) == Strip(dates'[k])
    ensures Entries(dates) == Entries(dates')
  {
    if dates != [] { SameEntries(dates[..|dates| - 1], dates'[..|dates| - 1]); }
  }

  /** Blanks around the entries of a list do not matter. */
  lemma BlanksDoNotMatter(dates: seq<string>, dates': seq<string>)
    requires |dates| == |dates'| > 0 && forall k | 0 <= k < |dates| :: Around(dates'[k], dates[k])
    requires (forall d | d in dates :: Without(d, ',')) && (forall d | d in dates' :: Without(d, ','))
    ensures ReadDates(Join(dates', ',')) == ReadDates(Join(dates, ','))
  {
    SplitJoin(dates, ',');
    SplitJoin(dates', ',');
    hide Entries, Strip, Around;
    forall k | 0 <= k < |dates| ensures Strip(dates[k]) == Strip(dates'[k]) {
      StripExactly(dates'[k], dates[k]);
      AroundItself(dates'[k], dates[k]);
      StripExactly(dates[k], dates[k]);
    }
    SameEntries(dates, dates');
  }

  lemma AroundItself(p: string, r: string)
    requires Around(p, r)
    ensures Around(r, r)
  {
    assert Blank([]) && r == [] + r + [];
  }

  method ProcessDates(text: string) returns (output: set<int>)
    ensures output == ReadDates(text)
  {
    hide MatchRange, ParseInt, Strip, Split;
    var dates := Split(text, ',');
    output := {};
    for i := 0 to |dates|
      invariant output == Entries(dates[..i])
    {
      assert dates[..i + 1][..i] == dates[..i];
      var date := Strip(dates[i]);
      var m := MatchRange(date);
      if m.Some? {
        ghost var before := output;
        var y: int := m.value.0;
        while y <= m.value.1
          invariant m.value.0 <= y && (y <= m.value.1 + 1 || y == m.value.0)
          invariant output == before + Years(m.value.0, y - 1)
        {
          output := output + {y};
          y := y + 1;
        }
      } else {
        var n := ParseInt(date);
        if n.Some? {
          output := output + {n.value};
        }
      }
    }
    assert dates[..|dates|] == dates;
  }

  // ---------- Reading what was printed ----------

  predicate Plain(s: string) { s != [] && forall c | c in s :: IsDigit(c) || c == '-' }

  lemma ShowPlain(r: Range)
    ensures Plain(Show(r.0)) && Plain(ShowRange(r))
  {
  }

  lemma PlainStays(s: string)
    requires Plain(s)
    ensures Strip(s) == s && Without(s, ',') && Trimmed(s)
  {
    assert s[0] in s && s[|s| - 1] in s;
  }

  lemma DecimalLength(n: nat)
    ensures |Decimal(n)| < 4 <==> n < 1000
    ensures |Decimal(n)| == 4 <==> 1000 <= n <= 9999
  {
    assert |Decimal(n)| == if n < 10 then 1 else 1 + |Decimal(n / 10)|;
    assert |Decimal(n / 10)| == if n / 10 < 10 then 1 else 1 + |Decimal(n / 10 / 10)|;
    assert |Decimal(n / 10 / 10)| == if n / 10 / 10 < 10 then 1 else 1 + |Decimal(n / 10 / 10 / 10)|;
    assert |Decimal(n / 10 / 10 / 10)| == if n / 10 / 10 / 10 < 10 then 1 else 1 + |Decimal(n / 10 / 10 / 10 / 10)|;
  }

  lemma {:induction false} ValueBound(s: string)
    requires forall c | c in s :: IsDigit(c)
    ensures Value(s) < Power10(|s|)
  {
    if s != [] {
      assert s[|s| - 1] in s;
      ValueBound(s[..|s| - 1]);
    }
  }

  lemma FourDigitValue(s: string)
    requires |s| == 4 && forall c | c in s :: IsDigit(c)
    ensures Value(s) <= 9999
  {
    ValueBound(s);
    assert Power10(2) == 100 && Power10(4) == 10000;
  }

  lemma EntryYear(y: int)
    ensures Entry(Show(y)) == {y}
  {
    var s := Show(y);
    if y < 0 {
      assert s[1..] == Decimal(-y) && s[0] == '-';
      ParseDecimal(-y);
      assert !FourDigits(s) by { if |s| >= 4 { assert s[0] in s[..4]; } }
    } else {
      ParseDecimal(y);
      assert s[0] in s && IsDigit(s[0]);
      if |s| >= 5 { assert s[4..][0] == s[4] && s[4] in s; }
    }
  }

  /** A printed range is not a number. */
  lemma RangeIsNoInt(r: Range)
    requires r.0 < r.1
    ensures ParseInt(ShowRange(r)) == None
  {
    var s, k := ShowRange(r), |Show(r.0)|;
    assert s[k] == '-' && s[1..][k - 1] == '-';
    assert s[k] in s && s[1..][k - 1] in s[1..];
  }

  lemma EntryRange(r: Range)
    requires r.0 < r.1
    ensures 1000 <= r.0 && r.1 <= 9999 ==> Entry(ShowRange(r)) == Years(r.0, r.1)
    ensures !(1000 <= r.0 && r.1 <= 9999) ==> Entry(ShowRange(r)) <= Years(1000, 9999)
  {
    var s := ShowRange(r);
    RangeIsNoInt(r);
    if r.0 < 0 {
      assert s[0] == '-';
      assert !FourDigits(s) by { if |s| >= 4 { assert s[0] in s[..4]; } }
    } else {
      MatchShown(r.0, r.1);
    }
  }

  lemma MatchShown(a: nat, b: nat)
    requires a < b
    ensures var m := MatchRange(Decimal(a) + "-" + Decimal(b));
      if 1000 <= a <= 9999 then m.Some? && m.value.0 == a && m.value.1 <= 9999 && (b <= 9999 ==> m.value.1 == b)
      else m.None?
  {
    var x, z := Decimal(a), Decimal(b);
    DecimalLength(a);
    DecimalLength(b);
    hide Decimal;
    if |x| == 4 {
      MatchDigits(x, z);
      ValueDecimal(a);
      FourDigitValue(z[..4]);
      if b <= 9999 {
        assert z[..4] == z;
        ValueDecimal(b);
      }
    } else {
      NoMatch(x, z);
    }
  }

  lemma MatchDigits(x: string, z: string)
    requires |x| == 4 && |z| >= 4 && (forall c | c in x :: IsDigit(c)) && (forall c | c in z :: IsDigit(c))
    ensures MatchRange(x + "-" + z) == Some((Value(x), Value(z[..4])))
  {
    var s := x + "-" + z;
    assert s[..4] == x && s[4..] == "-" + z && ("-" + z)[1..] == z;
    assert z[0] in z;
    assert forall c | c in z[..4] :: c in z;
  }

  lemma NoMatch(x: string, z: string)
    requires |x| != 4 && forall c | c in x :: IsDigit(c)
    ensures MatchRange(x + "-" + z) == None
  {
    var s := x + "-" + z;
    if |x| < 4 {
      assert !FourDigits(s) by { if |s| >= 4 { assert s[..4][|x|] == '-' && s[..4][|x|] in s[..4]; } }
    } else {
      assert s[4..][0] == x[4] && x[4] in x;
    }
  }

  ghost predicate SomeHas(dates: seq<string>, y: int) { exists k | 0 <= k < |dates| :: y in Entry(dates[k]) }

  lemma SomeHasLast(dates: seq<string>, y: int)
    requires dates != []
    ensures SomeHas(dates, y) <==> SomeHas(dates[..|dates| - 1], y) || y in Entry(dates[|dates| - 1])
  {
    hide Entry;
    var init := dates[..|dates| - 1];
    if SomeHas(init, y) {
      var k :| 0 <= k < |init| && y in Entry(init[k]);
      assert dates[k] == init[k];
    }
    if SomeHas(dates, y) {
      var k :| 0 <= k < |dates| && y in Entry(dates[k]);
      if k < |init| { assert init[k] == dates[k]; }
    }
  }

  lemma {:induction false} EntriesHas(dates: seq<string>, y: int)
    requires forall d | d in dates :: Plain(d)
    ensures y in Entries(dates) <==> SomeHas(dates, y)
  {
    if dates != [] {
      EntriesHas(dates[..|dates| - 1], y);
      assert dates[|dates| - 1] in dates;
      PlainStays(dates[|dates| - 1]);
      SomeHasLast(dates, y);
      hide Entry, Strip, Plain, SomeHas;
    }
  }

  /** The years one printed range is read as. */
  function ReadBack(r: Range): set<int> { Entry(ShowRange(r)) }

  lemma PrintedHas(ranges: seq<Range>, y: int)
    requires ranges != []
    ensures y in ReadDates(Join(ShowAll(ranges), ',')) <==> exists k | 0 <= k < |ranges| :: y in ReadBack(ranges[k])
  {
    var parts := ShowAll(ranges);
    forall p | p in parts ensures Plain(p) && Without(p, ',') {
      var k :| 0 <= k < |parts| && parts[k] == p;
      ShowPlain(ranges[k]);
      PlainStays(p);
    }
    SplitJoin(parts, ',');
    EntriesHas(parts, y);
    hide Entry, ShowRange;
    assert forall k | 0 <= k < |parts| :: Entry(parts[k]) == ReadBack(ranges[k]);
  }

  lemma ReadBackIs(r: Range)
    requires r.0 <= r.1
    ensures if r.0 == r.1 || (1000 <= r.0 && r.1 <= 9999)
            then ReadBack(r) == Years(r.0, r.1) else ReadBack(r) <= Years(1000, 9999)
  {
    if r.0 == r.1 {
      EntryYear(r.0);
    } else {
      EntryRange(r);
    }
  }

  /** Neighbouring years have four digits. */
  ghost predicate NeighboursFourDigit(S: set<int>) {
    forall y | y in S && y + 1 in S :: 1000 <= y && y + 1 <= 9999
  }

  ghost predicate Good(r: Range) { r.0 == r.1 || (1000 <= r.0 && r.1 <= 9999) }

  lemma NeighboursAreRuns(runs: seq<Range>, S: set<int>)
    requires Runs(runs, S)
    ensures NeighboursFourDigit(S) <==> forall i | 0 <= i < |runs| :: Good(runs[i])
  {
    if NeighboursFourDigit(S) {
      forall i | 0 <= i < |runs| ensures Good(runs[i]) {
        var r := runs[i];
        if r.0 < r.1 {
          assert InRange(r, r.0) && InRange(r, r.0 + 1) && InRange(r, r.1 - 1) && InRange(r, r.1);
          assert r.0 in S && r.0 + 1 in S && r.1 - 1 in S && r.1 - 1 + 1 in S;
        }
      }
    } else {
      var y :| y in S && y + 1 in S && !(1000 <= y && y + 1 <= 9999);
      var i :| 0 <= i < |runs| && InRange(runs[i], y);
      var j :| 0 <= j < |runs| && InRange(runs[j], y + 1);
      assert i == j;
      assert !Good(runs[i]);
    }
  }

  lemma OneRunHas(runs: seq<Range>, S: set<int>, i: nat, j: nat, y: int)
    requires Runs(runs, S) && i < |runs| && j < |runs| && InRange(runs[i], y) && InRange(runs[j], y)
    ensures i == j
  {
  }

  /** A run that is not all four-digit loses one of its ends. */
  lemma LosesYear(runs: seq<Range>, S: set<int>, i: nat)
    requires Runs(runs, S) && i < |runs| && !Good(runs[i])
    ensures ReadDates(Join(ShowAll(runs), ',')) != S
  {
    var w := if runs[i].0 < 1000 then runs[i].0 else runs[i].1;
    assert InRange(runs[i], w);
    assert w in S;
    PrintedHas(runs, w);
    forall k | 0 <= k < |runs| ensures w !in ReadBack(runs[k]) {
      ReadBackIs(runs[k]);
      if Good(runs[k]) && InRange(runs[k], w) {
        OneRunHas(runs, S, i, k, w);
      }
    }
  }

  /** Reading a printed set of years gives it back exactly if all neighbouring
      years in it have four digits. */
  lemma YearsRoundTrip(runs: seq<Range>, S: set<int>)
    requires Runs(runs, S) && runs != []
    ensures ReadDates(Join(ShowAll(runs), ',')) == S <==> NeighboursFourDigit(S)
  {
    NeighboursAreRuns(runs, S);
    if NeighboursFourDigit(S) {
      AllGood(runs, S);
    } else {
      var i :| 0 <= i < |runs| && !Good(runs[i]);
      LosesYear(runs, S, i);
    }
  }

  /** The same of a text with blanks around the ranges. */
  lemma SpacedRoundTrip(runs: seq<Range>, S: set<int>, parts: seq<string>)
    requires Runs(runs, S) && runs != []
    requires |parts| == |runs| && forall k | 0 <= k < |runs| :: Around(parts[k], ShowRange(runs[k]))
    ensures ReadDates(Join(parts, ',')) == S <==> NeighboursFourDigit(S)
  {
    hide Runs, NeighboursFourDigit, ReadDates, ShowRange, Around, Join;
    var shown := ShowAll(runs);
    forall d | d in shown ensures Without(d, ',') {
      var k :| 0 <= k < |shown| && shown[k] == d;
      ShowPlain(runs[k]);
      PlainStays(d);
    }
    forall d | d in parts ensures Without(d, ',') {
      var k :| 0 <= k < |parts| && parts[k] == d;
      assert Without(shown[k], ',');
      AroundWithout(d, shown[k]);
    }
    BlanksDoNotMatter(shown, parts);
    YearsRoundTrip(runs, S);
  }

  lemma AroundWithout(p: string, r: string)
    requires Around(p, r) && Without(r, ',')
    ensures Without(p, ',')
  {
    var a, b :| Blank(a) && Blank(b) && p == a + r + b;
    assert forall c | c in p :: c in a || c in r || c in b;
  }

  lemma AllGood(runs: seq<Range>, S: set<int>)
    requires Runs(runs, S) && runs != [] && forall i | 0 <= i < |runs| :: Good(runs[i])
    ensures ReadDates(Join(ShowAll(runs), ',')) == S
  {
    var text := Join(ShowAll(runs), ',');
    forall y ensures y in ReadDates(text) <==> y in S {
      PrintedHas(runs, y);
      forall k | 0 <= k < |runs| ensures y in ReadBack(runs[k]) <==> InRange(runs[k], y) { ReadBackIs(runs[k]); }
    }
  }
}
