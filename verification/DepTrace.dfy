/**
  Instruction dependency records: the text line one script prints for a record,
  and the record another script reads from such a line.
 */
module DepTrace {
  import opened Options
  import opened Text

  datatype Type = INVALID | LOAD | STORE | COMP

  datatype Record = Record(
    seqNum: nat,
    pc: Option<nat>,
    weight: Option<nat>,
    kind: Type,
    pAddr: Option<nat>,
    size: Option<nat>,
    flags: Option<nat>,
    vAddr: Option<nat>,
    asid: Option<nat>,
    compDelay: nat,
    robDep: seq<nat>,
    regDep: seq<nat>)

  predicate Access(k: Type) { k == LOAD || k == STORE }

  function TypeName(k: Type): string {
    match k case INVALID => "INVALID" case LOAD => "LOAD" case STORE => "STORE" case COMP => "COMP"
  }

  function TypeOf(s: string): Option<Type> {
    if s == "INVALID" then Some(INVALID) else if s == "LOAD" then Some(LOAD)
    else if s == "STORE" then Some(STORE) else if s == "COMP" then Some(COMP) else None
  }

  function Default(o: Option<nat>, d: nat): nat { if o.Some? then o.value else d }

  // ---------- Printing ----------

  function Present(o: Option<nat>): seq<string> { if o.Some? then [Decimal(o.value)] else [] }

  /** The fields before the first colon. */
  function Info(r: Record): seq<string> {
    [Decimal(r.seqNum), Decimal(Default(r.pc, 0)), Decimal(Default(r.weight, 1)), TypeName(r.kind)]
    + Present(r.pAddr) + Present(r.size) + Present(r.flags) + [Decimal(r.compDelay)]
  }

  /** Each dependency with a comma before it. */
  function Deps(ds: seq<nat>): string {
    if ds == [] then "" else Deps(ds[..|ds| - 1]) + "," + Decimal(ds[|ds| - 1])
  }

  function Line(r: Record): string {
    Join(Info(r), ',') + ":" + Deps(r.robDep) + ":" + Deps(r.regDep)
  }

  method PrintDeps(out: string, ds: seq<nat>) returns (out': string)
    ensures out' == out + Deps(ds)
  {
    out' := out;
    for i := 0 to |ds|
      invariant out' == out + Deps(ds[..i])
    {
      assert ds[..i + 1][..i] == ds[..i];
      assert out + Deps(ds[..i]) + "," + Decimal(ds[i]) == out + (Deps(ds[..i]) + "," + Decimal(ds[i]));
      out' := out' + "," + Decimal(ds[i]);
    }
    assert ds[..|ds|] == ds;
  }

  method PrintField(out: string, ghost parts: seq<string>, o: Option<nat>) returns (out': string)
    requires parts != [] && out == Join(parts, ',')
    ensures out' == Join(parts + Present(o), ',')
  {
    out' := out;
    if o.Some? {
      JoinAppend(parts, Decimal(o.value), ',');
      out' := out' + "," + Decimal(o.value);
    } else {
      assert parts + Present(o) == parts;
    }
  }

  method PrintRecord(r: Record) returns (out: string)
    ensures out == Line(r)
  {
    hide Decimal, Join, Deps;
    ghost var p1 := [Decimal(r.seqNum)];
    ghost var p2 := p1 + Present(Some(Default(r.pc, 0)));
    ghost var p3 := p2 + Present(Some(Default(r.weight, 1)));
    ghost var p4 := p3 + [TypeName(r.kind)];
    ghost var p5 := p4 + Present(r.pAddr);
    ghost var p6 := p5 + Present(r.size);
    ghost var p7 := p6 + Present(r.flags);
    ghost var p8 := p7 + Present(Some(r.compDelay));
    out := Decimal(r.seqNum);
    JoinOne(out);
    out := PrintField(out, p1, if r.pc.Some? then r.pc else Some(0));
    out := PrintField(out, p2, if r.weight.Some? then r.weight else Some(1));
    JoinAppend(p3, TypeName(r.kind), ',');
    out := out + "," + TypeName(r.kind);
    out := PrintField(out, p4, r.pAddr);
    out := PrintField(out, p5, r.size);
    out := PrintField(out, p6, r.flags);
    out := PrintField(out, p7, Some(r.compDelay));
    assert p8 == Info(r);
    out := out + ":";
    out := PrintDeps(out, r.robDep);
    out := out + ":";
    out := PrintDeps(out, r.regDep);
  }

  lemma JoinOne(s: string)
    ensures Join([s], ',') == s
  {
  }

  // ---------- Parsing ----------

  /** A field that holds no negative number, read by long(): blanks around it and a
      sign do not matter. */
  function ParseField(s: string): Option<nat> {
    var n := ParseInt(Strip(s));
    if n.Some? && n.value >= 0 then Some(n.value) else None
  }

  lemma FieldDecimal(n: nat)
    ensures ParseField(Decimal(n)) == Some(n)
  {
    var d := Decimal(n);
    assert IsDigit(d[0]) && IsDigit(d[|d| - 1]);
    SolidStays(d);
    ParseDecimal(n);
  }

  /** The numbers among the items; empty items are skipped. */
  function Numbers(items: seq<string>): Option<seq<nat>> {
    if items == [] then Some([])
    else
      var before := Numbers(items[..|items| - 1]);
      var item := items[|items| - 1];
      if before.None? then None
      else if item == [] then before
      else
        var n := ParseField(item);
        if n.None? then None else Some(before.value + [n.value])
  }

  /** The fields before the first colon; None stands for any error. */
  function ParseInfo(info: seq<string>): Option<Record> {
    if |info| < 5 then None
    else
      var seqNum, pc, weight, kind := ParseField(info[0]), ParseField(info[1]), ParseField(info[2]), TypeOf(info[3]);
      if seqNum.None? || pc.None? || weight.None? || kind.None? || kind.value == INVALID then None
      else if Access(kind.value) then
        if |info| < 8 then None
        else
          var pAddr, size := ParseField(info[4]), ParseField(info[5]);
          var flags, delay := ParseField(info[6]), ParseField(info[7]);
          if pAddr.None? || size.None? || flags.None? || delay.None? then None
          else Some(Record(seqNum.value, pc, weight, kind.value, pAddr, size, flags, None, None, delay.value, [], []))
      else
        var delay := ParseField(info[4]);
        if delay.None? then None
        else Some(Record(seqNum.value, pc, weight, kind.value, None, None, None, None, None, delay.value, [], []))
  }

  function Parse(line: string): Option<Record> {
    var parts := Split(Strip(line), ':');
    if |parts| != 3 then None
    else
      var r := ParseInfo(Split(parts[0], ','));
      var rob, reg := Numbers(Split(Strip(parts[1]), ',')), Numbers(Split(parts[2], ','));
      if r.None? || rob.None? || reg.None? then None
      else Some(r.value.(robDep := rob.value, regDep := reg.value))
  }

  method ParseDeps(items: seq<string>) returns (r: Option<seq<nat>>)
    ensures r == Numbers(items)
  {
    var deps: seq<nat> := [];
    for i := 0 to |items|
      invariant Numbers(items[..i]) == Some(deps)
    {
      assert items[..i + 1][..i] == items[..i];
      if items[i] != [] {
        var n := ParseField(items[i]);
        if n.None? {
          NumbersFail(items, i + 1);
          return None;
        }
        deps := deps + [n.value];
      }
    }
    assert items[..|items|] == items;
    return Some(deps);
  }

  lemma {:induction false} NumbersFail(items: seq<string>, k: nat)
    requires k <= |items| && Numbers(items[..k]).None?
    ensures Numbers(items).None?
    decreases |items|
  {
    if k == |items| {
      assert items[..k] == items;
    } else {
      assert items[..|items| - 1][..k] == items[..k];
      NumbersFail(items[..|items| - 1], k);
    }
  }

  /** Read one line. */
  method ParseLine(line: string) returns (r: Option<Record>)
    ensures r == Parse(line)
  {
    var parts := Split(Strip(line), ':');
    if |parts| != 3 {
      return None;
    }
    var info := Split(parts[0], ',');
    var rec := ParseInfo(info);
    if rec.None? {
      return None;
    }
    var rob := ParseDeps(Split(Strip(parts[1]), ','));
    if rob.None? {
      return None;
    }
    var reg := ParseDeps(Split(parts[2], ','));
    if reg.None? {
      return None;
    }
    return Some(rec.value.(robDep := rob.value, regDep := reg.value));
  }

  /** Blanks around a line do not matter. */
  lemma ParseAround(line': string, line: string)
    requires Around(line', line)
    ensures Parse(line') == Parse(line)
  {
    StripExactly(line', line);
    assert Blank([]) && line == [] + line + [];
    StripExactly(line, line);
  }

  // ---------- Parsing what was printed ----------

  /** What a line can carry: a load or store with its request, anything else
      without, nothing invalid, no virtual address or address space. */
  predicate Complete(r: Record) {
    && r.kind != INVALID && r.vAddr.None? && r.asid.None?
    && (if Access(r.kind) then r.pAddr.Some? && r.size.Some? && r.flags.Some?
        else r.pAddr.None? && r.size.None? && r.flags.None?)
  }

  /** The record with its defaults filled in. */
  function WithDefaults(r: Record): Record {
    r.(pc := Some(Default(r.pc, 0)), weight := Some(Default(r.weight, 1)))
  }

  lemma ParsedIsComplete(line: string)
    requires Parse(line).Some?
    ensures Complete(Parse(line).value)
  {
  }

  /** Characters of numbers and type names. */
  predicate Word(s: string) { forall c | c in s :: '0' <= c <= '9' || 'A' <= c <= 'Z' }

  lemma WordWithout(s: string)
    requires Word(s)
    ensures Without(s, ',') && Without(s, ':')
  {
  }

  lemma {:induction false} JoinWithout(parts: seq<string>, sep: char, c: char)
    requires c != sep && forall p | p in parts :: Without(p, c)
    ensures Without(Join(parts, sep), c)
  {
    if parts != [] { assert Without(parts[0], c); }
    if |parts| > 1 { JoinWithout(parts[1..], sep, c); }
  }

  lemma InfoWords(r: Record)
    ensures forall p | p in Info(r) :: Word(p)
  {
  }

  lemma InfoParses(r: Record)
    requires Complete(r)
    ensures ParseInfo(Info(r)) == Some(WithDefaults(r).(robDep := [], regDep := []))
  {
    hide Decimal, ParseField;
    FieldDecimal(r.seqNum);
    FieldDecimal(Default(r.pc, 0));
    FieldDecimal(Default(r.weight, 1));
    FieldDecimal(r.compDelay);
    if Access(r.kind) {
      FieldDecimal(r.pAddr.value);
      FieldDecimal(r.size.value);
      FieldDecimal(r.flags.value);
    }
  }

  /** Deps(ds) is its numbers joined, behind an empty item. */
  function Items(ds: seq<nat>): seq<string> {
    [[]] + seq(|ds|, i requires 0 <= i < |ds| => Decimal(ds[i]))
  }

  lemma {:induction false} DepsJoined(ds: seq<nat>)
    ensures Deps(ds) == Join(Items(ds), ',')
  {
    if ds == [] {
      assert Items(ds) == [[]];
    } else {
      var init := ds[..|ds| - 1];
      DepsJoined(init);
      assert Items(ds) == Items(init) + [Decimal(ds[|ds| - 1])];
      JoinAppend(Items(init), Decimal(ds[|ds| - 1]), ',');
    }
  }

  lemma {:induction false} NumbersOf(ds: seq<nat>)
    ensures Numbers(Items(ds)) == Some(ds)
  {
    if ds == [] {
      assert Items(ds)[..0] == [];
    } else {
      var n := |ds|;
      var init, items := ds[..n - 1], Items(ds);
      assert items[..n] == Items(init);
      NumbersOf(init);
      FieldDecimal(ds[n - 1]);
      assert items[n] == Decimal(ds[n - 1]) && ds == init + [ds[n - 1]];
      hide Items, Decimal, ParseField;
    }
  }

  lemma DepsParse(ds: seq<nat>)
    ensures Numbers(Split(Deps(ds), ',')) == Some(ds)
    ensures Without(Deps(ds), ':') && Strip(Deps(ds)) == Deps(ds)
  {
    var items := Items(ds);
    DepsJoined(ds);
    forall p | p in items ensures Without(p, ',') && Without(p, ':') { WordWithout(p); }
    SplitJoin(items, ',');
    NumbersOf(ds);
    JoinWithout(items, ',', ':');
    DepsEnds(ds);
    SolidStays(Deps(ds));
  }

  ghost predicate Solid(s: string) { s == [] || (!IsSpace(s[0]) && !IsSpace(s[|s| - 1])) }

  lemma SolidStays(s: string)
    requires Solid(s)
    ensures Strip(s) == s
  {
  }

  lemma DepsEnds(ds: seq<nat>)
    ensures Solid(Deps(ds))
  {
    if ds != [] {
      var last := Decimal(ds[|ds| - 1]);
      assert last[|last| - 1] in last && Deps(ds)[|Deps(ds)| - 1] == last[|last| - 1];
      DepsJoined(ds);
      assert Deps(ds)[0] == ',';
    }
  }

  /** A printed record reads back exactly, with its defaults filled in, if it is
      one that a line can carry. */
  lemma LineRoundTrip(r: Record)
    ensures Parse(Line(r)) == Some(WithDefaults(r)) <==> Complete(r)
  {
    if Complete(r) {
      CompleteParses(r);
    } else if Parse(Line(r)).Some? {
      ParsedIsComplete(Line(r));
      assert !Complete(WithDefaults(r));
    }
  }

  lemma CompleteParses(r: Record)
    requires Complete(r)
    ensures Parse(Line(r)) == Some(WithDefaults(r))
  {
    var info, rob, reg := Join(Info(r), ','), Deps(r.robDep), Deps(r.regDep);
    hide Info, Deps, Join, Strip, ParseInfo, Numbers, Complete;
    InfoSplits(r);
    DepsParse(r.robDep);
    DepsParse(r.regDep);
    LineStays(r);
    ThreeParts(info, rob, reg);
    InfoParses(r);
  }

  lemma ThreeParts(info: string, rob: string, reg: string)
    requires Without(info, ':') && Without(rob, ':') && Without(reg, ':')
    ensures Split(info + ":" + rob + ":" + reg, ':') == [info, rob, reg]
  {
    SplitFirst(info, ':', rob + ":" + reg);
    SplitFirst(rob, ':', reg);
    SplitPlain(reg, ':');
    assert info + ":" + rob + ":" + reg == info + ":" + (rob + ":" + reg);
  }

  lemma InfoSplits(r: Record)
    ensures Split(Join(Info(r), ','), ',') == Info(r) && Without(Join(Info(r), ','), ':')
  {
    InfoWords(r);
    hide Info;
    assert Info(r) != [] by { InfoStarts(r); }
    forall p | p in Info(r) ensures Without(p, ',') && Without(p, ':') { WordWithout(p); }
    SplitJoin(Info(r), ',');
    JoinWithout(Info(r), ',', ':');
  }

  lemma InfoStarts(r: Record)
    ensures |Info(r)| > 1 && Info(r)[0] == Decimal(r.seqNum)
  {
  }

  lemma LineStays(r: Record)
    ensures Strip(Line(r)) == Line(r)
  {
    var s, first := Line(r), Decimal(r.seqNum);
    InfoStarts(r);
    assert first[0] in first && s[0] == first[0];
    DepsEnds(r.regDep);
    var reg := Deps(r.regDep);
    hide Info, Deps, Decimal, Join;
    assert s[|s| - 1] == if reg == [] then ':' else reg[|reg| - 1];
    SolidStays(s);
  }

  // ---------- Whole traces ----------

  function PrintAll(rs: seq<Record>): string {
    if rs == [] then "" else Line(rs[0]) + "\n" + PrintAll(rs[1..])
  }

  function ParseLines(lines: seq<string>): Option<seq<Record>> {
    if lines == [] then Some([])
    else
      var r, rest := Parse(lines[0]), ParseLines(lines[1..]);
      if r.None? || rest.None? then None else Some([r.value] + rest.value)
  }

  /** The lines of a file; nothing follows the last newline. */
  function ParseAll(text: string): Option<seq<Record>> {
    var lines := Split(text, '\n');
    ParseLines(if lines[|lines| - 1] == [] then lines[..|lines| - 1] else lines)
  }

  method PrintTrace(rs: seq<Record>) returns (out: string)
    ensures out == PrintAll(rs)
  {
    hide Line;
    out := "";
    for i := 0 to |rs|
      invariant out + PrintAll(rs[i..]) == PrintAll(rs)
    {
      ghost var before, rest := out, PrintAll(rs[i + 1..]);
      assert rs[i..][1..] == rs[i + 1..];
      var line := PrintRecord(rs[i]);
      assert before + (line + "\n" + rest) == before + line + "\n" + rest;
      out := out + line + "\n";
    }
  }

  method ParseTrace(text: string) returns (r: Option<seq<Record>>)
    ensures r == ParseAll(text)
  {
    hide Parse;
    var lines := Split(text, '\n');
    if lines[|lines| - 1] == [] {
      lines := lines[..|lines| - 1];
    }
    var records: seq<Record> := [];
    assert lines[0..] == lines;
    AfterNothing(ParseLines(lines));
    for i := 0 to |lines|
      invariant ParseLines(lines) == After(records, ParseLines(lines[i..]))
    {
      assert lines[i..][1..] == lines[i + 1..];
      var record := ParseLine(lines[i]);
      if record.None? {
        return None;
      }
      AfterStep(records, record.value, ParseLines(lines[i + 1..]));
      records := records + [record.value];
    }
    assert records + [] == records;
    return Some(records);
  }

  ghost function After(records: seq<Record>, rest: Option<seq<Record>>): Option<seq<Record>> {
    if rest.None? then None else Some(records + rest.value)
  }

  lemma AfterNothing(rest: Option<seq<Record>>)
    ensures After([], rest) == rest
  {
    if rest.Some? { assert [] + rest.value == rest.value; }
  }

  lemma AfterStep(records: seq<Record>, r: Record, rest: Option<seq<Record>>)
    ensures After(records, if rest.None? then None else Some([r] + rest.value)) == After(records + [r], rest)
  {
    if rest.Some? { assert records + ([r] + rest.value) == records + [r] + rest.value; }
  }

  function AllWithDefaults(rs: seq<Record>): seq<Record> {
    seq(|rs|, i requires 0 <= i < |rs| => WithDefaults(rs[i]))
  }

  lemma LineWithout(r: Record)
    ensures Without(Line(r), '\n')
  {
    InfoWords(r);
    forall p | p in Info(r) ensures Without(p, '\n') { assert Word(p); }
    JoinWithout(Info(r), ',', '\n');
    forall ds: seq<nat> ensures Without(Deps(ds), '\n') {
      DepsJoined(ds);
      forall p | p in Items(ds) ensures Without(p, '\n') { assert Word(p); }
      JoinWithout(Items(ds), ',', '\n');
    }
  }

  lemma {:induction false} SplitAll(rs: seq<Record>)
    ensures var lines := Split(PrintAll(rs), '\n');
      |lines| == |rs| + 1 && lines[|rs|] == [] && forall i | 0 <= i < |rs| :: lines[i] == Line(rs[i])
  {
    if rs != [] {
      LineWithout(rs[0]);
      SplitFirst(Line(rs[0]), '\n', PrintAll(rs[1..]));
      SplitAll(rs[1..]);
    }
  }

  lemma {:induction false} LinesRoundTrip(rs: seq<Record>, lines: seq<string>)
    requires |lines| == |rs| && (forall i | 0 <= i < |rs| :: lines[i] == Line(rs[i]))
    requires forall r | r in rs :: Complete(r)
    ensures ParseLines(lines) == Some(AllWithDefaults(rs))
  {
    if rs == [] {
      assert AllWithDefaults(rs) == [];
    } else {
      hide Parse, Line, Complete, WithDefaults;
      assert rs[0] in rs;
      CompleteParses(rs[0]);
      LinesRoundTrip(rs[1..], lines[1..]);
      DefaultsFirst(rs);
      hide AllWithDefaults;
    }
  }

  lemma DefaultsFirst(rs: seq<Record>)
    requires rs != []
    ensures AllWithDefaults(rs) == [WithDefaults(rs[0])] + AllWithDefaults(rs[1..])
  {
    hide WithDefaults;
  }

  /** A trace of such records of any length reads back record for record. */
  lemma TraceRoundTrip(rs: seq<Record>)
    requires forall r | r in rs :: Complete(r)
    ensures ParseAll(PrintAll(rs)) == Some(AllWithDefaults(rs))
  {
    SplitAll(rs);
    LinesRoundTrip(rs, Split(PrintAll(rs), '\n')[..|rs|]);
  }
}
