/**
  Merging checkpoints: the pages of all of them end up in one memory image, the
  physical addresses in their cpu sections are moved along, and those sections
  are renamed after the checkpoint they come from.
 */
module Aggregator {
  import opened Options
  import opened Text
  import opened Collections

  const PAGE := 0x1000

  /** A section of a checkpoint file: its name, its physical address and its process
      number, if it has them, and its other entries. */
  datatype Section = Section(name: string, paddr: Option<nat>, pid: Option<nat>, others: map<string, string>)

  /** `tick` is the current tick its Globals section records, if there is one, and
      `image` what its memory file holds once decompressed. */
  datatype Checkpoint = Checkpoint(sections: seq<Section>, pages: nat, image: seq<byte>, tick: Option<int>)

  /** The merged file, and the memory image, compressed or not when it is written. */
  datatype Merged = Merged(sections: seq<Section>, image: seq<byte>)

  // ---------- Memory ----------

  function Min(a: nat, b: nat): nat { if a < b then a else b }

  /** What reading a number of pages from an image gives. */
  function Read(image: seq<byte>, pages: nat): seq<byte> { image[..Min(|image|, PAGE * pages)] }

  ghost predicate Full(c: Checkpoint) { |c.image| >= PAGE * c.pages }

  /** Pages of the checkpoints before the i-th, where its own pages begin. */
  function PageStart(cpts: seq<Checkpoint>, i: nat): nat
    requires i <= |cpts|
  {
    if i == 0 then 0 else PageStart(cpts, i - 1) + cpts[i - 1].pages
  }

  function Images(cpts: seq<Checkpoint>, i: nat): seq<byte>
    requires i <= |cpts|
  {
    if i == 0 then [] else Images(cpts, i - 1) + Read(cpts[i - 1].image, cpts[i - 1].pages)
  }

  method CopyPages(out: seq<byte>, image: seq<byte>, pages: nat) returns (out': seq<byte>)
    ensures out' == out + Read(image, pages)
  {
    out' := out;
    var pos := 0;
    for x := 0 to pages
      invariant pos == Min(|image|, PAGE * x) && out' == out + image[..pos]
    {
      var next := Min(|image|, pos + PAGE);
      assert image[..pos] + image[pos..next] == image[..next];
      out' := out' + image[pos..next];
      pos := next;
    }
  }

  lemma {:induction false} ImagesLength(cpts: seq<Checkpoint>, i: nat)
    requires i <= |cpts|
    ensures |Images(cpts, i)| <= PAGE * PageStart(cpts, i)
    ensures |Images(cpts, i)| == PAGE * PageStart(cpts, i) <==> forall k | 0 <= k < i :: Full(cpts[k])
  {
    if i > 0 { ImagesLength(cpts, i - 1); }
  }

  lemma {:induction false} ImagesPrefix(cpts: seq<Checkpoint>, i: nat, j: nat)
    requires i <= j <= |cpts|
    ensures Images(cpts, i) <= Images(cpts, j)
    ensures PageStart(cpts, i) <= PageStart(cpts, j)
  {
    if i < j { ImagesPrefix(cpts, i, j - 1); }
  }

  /** Every byte of every checkpoint's pages is in the merged image at its
      address moved by the start of the checkpoint. */
  lemma Relocated(cpts: seq<Checkpoint>, i: nat, a: nat)
    requires i < |cpts| && (forall c | c in cpts :: Full(c)) && a < PAGE * cpts[i].pages
    ensures var m := Images(cpts, |cpts|);
      var b := a + PAGE * PageStart(cpts, i);
      b < |m| && a < |cpts[i].image| && m[b] == cpts[i].image[a]
  {
    assert forall k | 0 <= k < |cpts| :: cpts[k] in cpts;
    ImagesLength(cpts, i);
    ImagesLength(cpts, i + 1);
    ImagesPrefix(cpts, i + 1, |cpts|);
    var b := a + PAGE * PageStart(cpts, i);
    assert Images(cpts, i + 1)[b] == Read(cpts[i].image, cpts[i].pages)[a];
  }

  /** The pages of two checkpoints do not overlap. */
  lemma {:induction false} RegionsApart(cpts: seq<Checkpoint>, i: nat, j: nat)
    requires i < j < |cpts|
    ensures PageStart(cpts, i) + cpts[i].pages <= PageStart(cpts, j)
  {
    hide Images, Read;
    ImagesPrefix(cpts, i + 1, j);
  }

  // ---------- Padding ----------

  /** Pages of the padded image. */
  function PaddedPages(pages: nat, memorySize: nat): nat {
    if PAGE * pages >= memorySize then pages else (memorySize + PAGE - 1) / PAGE
  }

  /** No fewer pages reach the memory size. */
  lemma PaddedLeast(pages: nat, memorySize: nat, q: nat)
    ensures var p := PaddedPages(pages, memorySize); pages <= p && PAGE * p >= memorySize
    ensures pages <= q && PAGE * q >= memorySize ==> PaddedPages(pages, memorySize) <= q
  {
  }

  /** Fill up with pages of the character 0 until the memory size is reached. */
  method Pad(out: seq<byte>, pages: nat, memorySize: nat) returns (out': seq<byte>, pages': nat)
    ensures pages' == PaddedPages(pages, memorySize)
    ensures out <= out' && |out'| == |out| + PAGE * (pages' - pages)
    ensures forall k | |out| <= k < |out'| :: out'[k] == '0' as int
  {
    out', pages' := out, pages;
    var fileSize := PAGE * pages;
    while fileSize < memorySize
      invariant fileSize == PAGE * pages' && pages <= pages'
      invariant pages' == pages || PAGE * pages' < memorySize + PAGE
      invariant out <= out' && |out'| == |out| + PAGE * (pages' - pages)
      invariant forall k | |out| <= k < |out'| :: out'[k] == '0' as int
      decreases memorySize - fileSize
    {
      out' := out' + seq(PAGE, _ => '0' as int);
      fileSize := fileSize + PAGE;
      pages' := pages' + 1;
    }
  }

  // ---------- Section names ----------

  predicate StartsCpu(s: string) { |s| >= 3 && s[0] == 'c' && s[1] == 'p' && s[2] == 'u' }

  predicate HasCpu(s: string) { s != [] && (StartsCpu(s) || HasCpu(s[1..])) }

  /** Put the tag behind every "cpu". */
  function Rename(s: string, tag: string): string {
    if s == [] then []
    else if StartsCpu(s) then "cpu" + tag + Rename(s[3..], tag)
    else [s[0]] + Rename(s[1..], tag)
  }

  /** Take n characters away behind every "cpu". */
  ghost function Restore(s: string, n: nat): string {
    if s == [] then []
    else if StartsCpu(s) then "cpu" + (if |s| >= 3 + n then Restore(s[3 + n..], n) else [])
    else [s[0]] + Restore(s[1..], n)
  }

  /** The n characters behind the first "cpu". */
  ghost function TagOf(s: string, n: nat): string {
    if s == [] then []
    else if StartsCpu(s) then (if |s| >= 3 + n then s[3..3 + n] else [])
    else TagOf(s[1..], n)
  }

  /** Renaming makes no new "cpu" at the front. */
  lemma RenameStarts(s: string, tag: string)
    ensures StartsCpu(Rename(s, tag)) <==> StartsCpu(s)
  {
    var r := Rename(s, tag);
    if s != [] && !StartsCpu(s) {
      var r1 := Rename(s[1..], tag);
      assert r == [s[0]] + r1;
      if |s| > 1 && !StartsCpu(s[1..]) {
        var r2 := Rename(s[2..], tag);
        assert r1 == [s[1]] + r2 by { assert s[1..][1..] == s[2..]; }
        assert |s| > 2 ==> r2[0] == s[2];
      }
    }
  }

  lemma {:induction false} RenameBack(s: string, tag: string)
    ensures Restore(Rename(s, tag), |tag|) == s
    ensures HasCpu(s) ==> HasCpu(Rename(s, tag)) && TagOf(Rename(s, tag), |tag|) == tag
  {
    if s != [] {
      var r := Rename(s, tag);
      RenameStarts(s, tag);
      if StartsCpu(s) {
        RenameBack(s[3..], tag);
        assert r[3..3 + |tag|] == tag && r[3 + |tag|..] == Rename(s[3..], tag);
        assert s == "cpu" + s[3..];
      } else {
        RenameBack(s[1..], tag);
        assert r[1..] == Rename(s[1..], tag);
      }
    }
  }

  /** zfill */
  function Padded(n: nat, width: nat): string {
    var d := Decimal(n);
    (if |d| < width then seq(width - |d|, _ => '0') else []) + d
  }

  lemma {:induction false} DecimalGrows(m: nat, n: nat)
    requires m <= n
    ensures |Decimal(m)| <= |Decimal(n)|
  {
    if n >= 10 && m >= 10 { DecimalGrows(m / 10, n / 10); }
  }

  lemma {:induction false} ValueZeros(k: nat, s: string)
    requires forall c | c in s :: IsDigit(c)
    ensures Value(seq(k, _ => '0') + s) == Value(s)
    decreases k + |s|
  {
    var z := seq(k, _ => '0') + s;
    if s != [] {
      assert z[..|z| - 1] == seq(k, _ => '0') + s[..|s| - 1];
      ValueZeros(k, s[..|s| - 1]);
    } else if k > 0 {
      assert z[..|z| - 1] == seq(k - 1, _ => '0') + [];
      ValueZeros(k - 1, []);
    }
  }

  lemma PaddedIs(n: nat, width: nat)
    requires |Decimal(n)| <= width
    ensures |Padded(n, width)| == width && (forall c | c in Padded(n, width) :: IsDigit(c))
    ensures Value(Padded(n, width)) == n
  {
    ValueDecimal(n);
    ValueZeros(width - |Decimal(n)|, Decimal(n));
    if |Decimal(n)| == width { assert Padded(n, width) == seq(0, _ => '0') + Decimal(n); }
  }

  // ---------- Sections ----------

  /** Cpu sections are kept for every checkpoint; of the others, those of the
      last one, but for two that are written anew. */
  predicate Keep(s: Section, last: bool) {
    HasCpu(s.name) || (last && s.name != "system" && s.name != "Globals")
  }

  function NewName(name: string, tag: string): string { if HasCpu(name) then Rename(name, tag) else name }

  /** Where a checkpoint goes: the tag of its sections, the page its image starts
      at, and its number, which becomes its process number. */
  datatype Place = Place(tag: string, start: nat, number: nat)

  /** The name ends in "workload", any character, and "FdMap256". */
  predicate EndsInFdMap(name: string) {
    var n := |name|;
    n >= 17 && name[n - 17..n - 9] == "workload" && name[n - 9] != '\n' && name[n - 8..] == "FdMap256"
  }

  function Move(s: Section, to: Place): Section {
    if !HasCpu(s.name) then s
    else
      Section(NewName(s.name, to.tag),
              if s.paddr.Some? then Some(s.paddr.value + PAGE * to.start) else None,
              if EndsInFdMap(s.name) then Some(to.number) else s.pid,
              s.others)
  }

  function Kept(secs: seq<Section>, to: Place, last: bool): seq<Section> {
    if secs == [] then []
    else
      var s := secs[|secs| - 1];
      Kept(secs[..|secs| - 1], to, last) + if Keep(s, last) then [Move(s, to)] else []
  }

  function Width(cpts: seq<Checkpoint>): nat { if cpts == [] then 2 else |Decimal(|cpts| - 1)| }

  /** The sections of the i-th checkpoint in the merged file. */
  function Part(cpts: seq<Checkpoint>, i: nat): seq<Section>
    requires i < |cpts|
  {
    Kept(cpts[i].sections, PlaceOf(cpts, i), i == |cpts| - 1)
  }

  function PlaceOf(cpts: seq<Checkpoint>, i: nat): Place
    requires i < |cpts|
  {
    Place(Padded(i, Width(cpts)), PageStart(cpts, i), i)
  }

  function Parts(cpts: seq<Checkpoint>, i: nat): seq<Section>
    requires i <= |cpts|
  {
    if i == 0 then [] else Parts(cpts, i - 1) + Part(cpts, i - 1)
  }

  const STORE := "system.physmem.store0"

  /** The two sections that are written anew. */
  function SystemSection(pagePtr: nat, processes: nat): Section {
    Section("system", None, None, map["pagePtr" := Decimal(pagePtr), "nextPID" := Decimal(processes)])
  }

  function GlobalsSection(tick: nat): Section { Section("Globals", None, None, map["curTick" := Decimal(tick)]) }

  /** Record the size of the image in the section of the store. */
  function Sized(s: Section, size: nat): Section {
    if s.name == STORE then s.(others := s.others["range_size" := Decimal(size)]) else s
  }

  function WithRange(secs: seq<Section>, size: nat): seq<Section> {
    seq(|secs|, k requires 0 <= k < |secs| => Sized(secs[k], size))
  }

  /** The size of the padded image. */
  function RangeSize(cpts: seq<Checkpoint>, memorySize: nat): nat {
    PAGE * PaddedPages(PageStart(cpts, |cpts|), memorySize)
  }

  /** The sections of the merged file. */
  function MergedSections(cpts: seq<Checkpoint>, memorySize: nat): seq<Section>
    requires cpts != []
  {
    var n := |cpts|;
    Parts(cpts, n - 1) + WithRange(Part(cpts, n - 1), RangeSize(cpts, memorySize)) +
    [SystemSection(PageStart(cpts, n), n), GlobalsSection(MaxTick(cpts, n))]
  }

  /** The latest tick of the first i checkpoints, or 0. */
  function MaxTick(cpts: seq<Checkpoint>, i: nat): nat
    requires i <= |cpts|
  {
    if i == 0 then 0
    else
      var m := MaxTick(cpts, i - 1);
      if cpts[i - 1].tick.Some? && cpts[i - 1].tick.value > m then cpts[i - 1].tick.value else m
  }

  lemma {:induction false} MaxTickIsLatest(cpts: seq<Checkpoint>, i: nat)
    requires i <= |cpts|
    ensures forall k | 0 <= k < i && cpts[k].tick.Some? :: cpts[k].tick.value <= MaxTick(cpts, i)
    ensures MaxTick(cpts, i) == 0 || exists k | 0 <= k < i :: cpts[k].tick == Some(MaxTick(cpts, i))
  {
    if i > 0 { MaxTickIsLatest(cpts, i - 1); }
  }

  predicate HasStore(secs: seq<Section>) { exists s | s in secs :: s.name == STORE }

  /** Write the sections of one checkpoint. */
  method CopySections(secs: seq<Section>, to: Place, last: bool) returns (out: seq<Section>)
    ensures out == Kept(secs, to, last)
  {
    hide Move;
    out := [];
    for k := 0 to |secs|
      invariant out == Kept(secs[..k], to, last)
    {
      assert secs[..k + 1][..k] == secs[..k];
      if Keep(secs[k], last) {
        out := out + [Move(secs[k], to)];
      }
    }
    assert secs[..|secs|] == secs;
  }

  /** Merge the checkpoints; fails if there are none, or if the last lacks the
      section that the size of the image is recorded in. */
  method Aggregate(cpts: seq<Checkpoint>, memorySize: nat) returns (r: Option<Merged>)
    ensures r.None? <==> cpts == [] || !HasStore(Part(cpts, |cpts| - 1))
    ensures r.Some? ==> var n := |cpts|;
      && r.value.sections == MergedSections(cpts, memorySize)
      && Images(cpts, n) <= r.value.image
      && (forall k | |Images(cpts, n)| <= k < |r.value.image| :: r.value.image[k] == '0' as int)
      && (|r.value.image| == RangeSize(cpts, memorySize) <==> forall k | 0 <= k < n :: Full(cpts[k]))
  {
    hide Part, Read, Full;
    var width := Width(cpts);
    var sections: seq<Section>, part: seq<Section>, image: seq<byte>, pagePtr: nat, maxTick: nat := [], [], [], 0, 0;
    for i := 0 to |cpts|
      invariant if i == 0 then sections == part == [] else sections == Parts(cpts, i - 1) && part == Part(cpts, i - 1)
      invariant image == Images(cpts, i) && pagePtr == PageStart(cpts, i) && maxTick == MaxTick(cpts, i)
    {
      sections := sections + part;
      if cpts[i].tick.Some? && cpts[i].tick.value > maxTick {
        maxTick := cpts[i].tick.value;
      }
      part := CopySections(cpts[i].sections, Place(Padded(i, width), pagePtr, i), i == |cpts| - 1);
      assert part == Part(cpts, i) by { PartIs(cpts, i); }
      image := CopyPages(image, cpts[i].image, cpts[i].pages);
      pagePtr := pagePtr + cpts[i].pages;
    }
    if !HasStore(part) {
      return None;
    }
    ImagesLength(cpts, |cpts|);
    var padded, pages := Pad(image, pagePtr, memorySize);
    var fixed := [SystemSection(pagePtr, |cpts|), GlobalsSection(maxTick)];
    return Some(Merged(sections + WithRange(part, PAGE * pages) + fixed, padded));
  }

  lemma PartIs(cpts: seq<Checkpoint>, i: nat)
    requires i < |cpts|
    ensures Part(cpts, i) == Kept(cpts[i].sections, PlaceOf(cpts, i), i == |cpts| - 1)
  {
  }

  lemma {:induction false} KeptHas(secs: seq<Section>, to: Place, last: bool, s: Section)
    requires s in secs && Keep(s, last)
    ensures Move(s, to) in Kept(secs, to, last)
  {
    if s != secs[|secs| - 1] {
      KeptHas(secs[..|secs| - 1], to, last, s);
    }
  }

  /** A cpu section's physical address still leads to the same byte. */
  lemma AddressFollows(cpts: seq<Checkpoint>, i: nat, s: Section) returns (t: Section)
    requires i < |cpts| && (forall c | c in cpts :: Full(c))
    requires s in cpts[i].sections && HasCpu(s.name) && s.paddr.Some? && s.paddr.value < PAGE * cpts[i].pages
    ensures t in Part(cpts, i) && t.name == Rename(s.name, Padded(i, Width(cpts)))
    ensures t.paddr.Some? && t.others == s.others
    ensures var m := Images(cpts, |cpts|);
      t.paddr.value < |m| && s.paddr.value < |cpts[i].image| && m[t.paddr.value] == cpts[i].image[s.paddr.value]
  {
    hide Kept, Images, Rename, Padded, Full, HasCpu, EndsInFdMap;
    t := Move(s, PlaceOf(cpts, i));
    KeptHas(cpts[i].sections, PlaceOf(cpts, i), i == |cpts| - 1, s);
    Relocated(cpts, i, s.paddr.value);
  }

  /** The name is that of a process's file descriptors. */
  ghost predicate FdMapName(name: string, pre: string, c: char) {
    name == pre + "workload" + [c] + "FdMap256" && c != '\n'
  }

  lemma FdMapExactly(name: string)
    ensures EndsInFdMap(name) <==> exists pre, c :: FdMapName(name, pre, c)
  {
    if EndsInFdMap(name) {
      var n := |name|;
      var pre, c := name[..n - 17], name[n - 9];
      assert name == pre + name[n - 17..n - 9] + [c] + name[n - 8..];
      assert FdMapName(name, pre, c);
    }
    if pre, c :| FdMapName(name, pre, c) {
      var n := |name|;
      assert name[n - 17..n - 9] == "workload" && name[n - 8..] == "FdMap256" && name[n - 9] == c;
    }
  }

  /** A cpu section keeps its process number, unless it holds a process's file
      descriptors: then it gets the checkpoint's, which no other checkpoint has. */
  lemma ProcessNumbers(cpts: seq<Checkpoint>, i: nat, s: Section)
    requires i < |cpts| && s in cpts[i].sections && HasCpu(s.name)
    ensures exists t | t in Part(cpts, i) ::
      && t.name == Rename(s.name, Padded(i, Width(cpts)))
      && t.pid == if exists pre, c :: FdMapName(s.name, pre, c) then Some(i) else s.pid
  {
    FdMapExactly(s.name);
    KeptHas(cpts[i].sections, PlaceOf(cpts, i), i == |cpts| - 1, s);
    hide Kept, Rename, Padded, EndsInFdMap, FdMapName;
    var t := Move(s, PlaceOf(cpts, i));
    assert t in Part(cpts, i);
  }

  /** Of the last checkpoint every other section is kept as it is, but for the two that
      are written anew. */
  lemma LastIsKept(cpts: seq<Checkpoint>, s: Section)
    requires cpts != [] && s in cpts[|cpts| - 1].sections && !HasCpu(s.name)
    requires s.name != "system" && s.name != "Globals"
    ensures s in Part(cpts, |cpts| - 1)
  {
    var i := |cpts| - 1;
    KeptHas(cpts[i].sections, PlaceOf(cpts, i), true, s);
    hide Kept, HasCpu;
  }

  /** An entry that holds a number. */
  ghost predicate Holds(s: Section, entry: string, n: nat) {
    entry in s.others && ParseNat(s.others[entry]) == Some(n)
  }

  /** What is written anew reads back: the pages of all checkpoints, a process number
      that none of theirs reaches, the latest tick, and in the store's section the size
      of the image. */
  lemma MergedReads(cpts: seq<Checkpoint>, memorySize: nat)
    requires cpts != []
    ensures var merged := MergedSections(cpts, memorySize);
      && |merged| >= 2
      && var system, globals := merged[|merged| - 2], merged[|merged| - 1];
         && system.name == "system" && Holds(system, "pagePtr", PageStart(cpts, |cpts|))
         && Holds(system, "nextPID", |cpts|)
         && globals.name == "Globals" && Holds(globals, "curTick", MaxTick(cpts, |cpts|))
    ensures forall t | t in MergedSections(cpts, memorySize) && t.name == STORE ::
      Holds(t, "range_size", RangeSize(cpts, memorySize))
  {
    hide Parts, Part, PageStart, MaxTick, RangeSize, Decimal, HasCpu;
    var n := |cpts|;
    ParseDecimal(PageStart(cpts, n));
    ParseDecimal(n);
    ParseDecimal(MaxTick(cpts, n));
    ParseDecimal(RangeSize(cpts, memorySize));
    EntriesDiffer();
    forall t | t in Parts(cpts, n - 1) ensures t.name != STORE { StoreIsLast(cpts, t); }
  }

  /** Only the last checkpoint's store is kept. */
  lemma StoreIsLast(cpts: seq<Checkpoint>, t: Section)
    requires cpts != [] && t in Parts(cpts, |cpts| - 1)
    ensures t.name != STORE
  {
    hide HasCpu, Part, Parts, TagOf, Padded;
    var k := PartsFrom(cpts, |cpts| - 1, t);
    PartTags(cpts, k, t);
    StoreIsNoCpu();
  }

  lemma StoreIsNoCpu()
    ensures !HasCpu(STORE)
  {
    hide HasCpu;
    NoCs(STORE);
  }

  lemma {:induction false} NoCs(s: string)
    requires 'c' !in s
    ensures !HasCpu(s)
  {
    if s != [] { NoCs(s[1..]); }
  }

  lemma EntriesDiffer()
    ensures "pagePtr" != "nextPID"
  {
    assert "pagePtr"[0] != "nextPID"[0];
  }

  // ---------- Names never collide ----------

  ghost function Names(secs: seq<Section>): seq<string> { seq(|secs|, i requires 0 <= i < |secs| => secs[i].name) }

  lemma NamesAppend(secs: seq<Section>, s: Section)
    ensures Names(secs + [s]) == Names(secs) + [s.name]
  {
  }

  lemma NewNameInjective(a: string, b: string, tag: string)
    requires NewName(a, tag) == NewName(b, tag)
    ensures a == b
  {
    RenameBack(a, tag);
    RenameBack(b, tag);
  }

  /** Where a kept section comes from. */
  lemma {:induction false} KeptFrom(secs: seq<Section>, to: Place, last: bool, t: Section) returns (s: Section)
    requires t in Kept(secs, to, last)
    ensures s in secs && Keep(s, last) && t == Move(s, to)
  {
    var x := secs[|secs| - 1];
    if Keep(x, last) && t == Move(x, to) {
      s := x;
    } else {
      s := KeptFrom(secs[..|secs| - 1], to, last, t);
    }
  }

  lemma {:induction false} KeptDistinct(secs: seq<Section>, to: Place, last: bool)
    requires NoRepeats(Names(secs))
    ensures NoRepeats(Names(Kept(secs, to, last)))
  {
    if secs != [] {
      var init, x := secs[..|secs| - 1], secs[|secs| - 1];
      assert Names(init) == Names(secs)[..|init|];
      KeptDistinct(init, to, last);
      var before := Kept(init, to, last);
      forall k | 0 <= k < |before| ensures before[k].name != NewName(x.name, to.tag) {
        var s := KeptFrom(init, to, last, before[k]);
        var j :| 0 <= j < |init| && init[j] == s;
        assert Names(secs)[j] == s.name && Names(secs)[|init|] == x.name;
        if NewName(s.name, to.tag) == NewName(x.name, to.tag) { NewNameInjective(s.name, x.name, to.tag); }
      }
      NamesAppend(before, Move(x, to));
      assert before + [] == before;
      hide NewName, Keep;
    }
  }

  lemma NoCpu()
    ensures !HasCpu("system") && !HasCpu("Globals")
  {
    var s, g := "system", "Globals";
    assert s[1..][1..][1..] == "tem" && g[1..][1..][1..] == "bals";
    assert !HasCpu("em") && !HasCpu("ls");
    assert "tem"[1..] == "em" && "bals"[1..] == "als" && "als"[1..] == "ls";
  }

  /** The tag tells which checkpoint a merged section comes from. */
  lemma PartTags(cpts: seq<Checkpoint>, i: nat, t: Section)
    requires i < |cpts| && t in Part(cpts, i)
    ensures HasCpu(t.name) ==> TagOf(t.name, Width(cpts)) == Padded(i, Width(cpts))
    ensures i < |cpts| - 1 ==> HasCpu(t.name)
    ensures t.name != "system" && t.name != "Globals"
  {
    hide HasCpu, Rename, TagOf, Kept, Padded;
    var w := Width(cpts);
    var tag := Padded(i, w);
    WidthFits(cpts, i);
    var s := KeptFrom(cpts[i].sections, PlaceOf(cpts, i), i == |cpts| - 1, t);
    RenameBack(s.name, tag);
    NoCpu();
  }

  lemma WidthFits(cpts: seq<Checkpoint>, i: nat)
    requires i < |cpts|
    ensures |Padded(i, Width(cpts))| == Width(cpts) && (forall c | c in Padded(i, Width(cpts)) :: IsDigit(c))
    ensures Value(Padded(i, Width(cpts))) == i
  {
    DecimalGrows(i, |cpts| - 1);
    PaddedIs(i, Width(cpts));
  }

  /** Sections of different checkpoints have different names. */
  lemma PartsApart(cpts: seq<Checkpoint>, i: nat, j: nat, s: Section, t: Section)
    requires i < j < |cpts| && s in Part(cpts, i) && t in Part(cpts, j)
    ensures s.name != t.name
  {
    hide Part, HasCpu, TagOf, Padded, Width;
    PartTags(cpts, i, s);
    PartTags(cpts, j, t);
    WidthFits(cpts, i);
    WidthFits(cpts, j);
  }

  lemma {:induction false} PartsFrom(cpts: seq<Checkpoint>, i: nat, s: Section) returns (k: nat)
    requires i <= |cpts| && s in Parts(cpts, i)
    ensures k < i && s in Part(cpts, k)
  {
    if s in Part(cpts, i - 1) {
      k := i - 1;
    } else {
      k := PartsFrom(cpts, i - 1, s);
    }
  }

  lemma NamesConcat(a: seq<Section>, b: seq<Section>)
    requires NoRepeats(Names(a)) && NoRepeats(Names(b))
    requires forall s, t | s in a && t in b :: s.name != t.name
    ensures NoRepeats(Names(a + b))
  {
    forall i, j | 0 <= i < j < |a + b| ensures Names(a + b)[i] != Names(a + b)[j] {
      if j < |a| {
        assert Names(a)[i] != Names(a)[j];
      } else if i >= |a| {
        assert Names(b)[i - |a|] != Names(b)[j - |a|];
      } else {
        assert a[i] in a && b[j - |a|] in b;
      }
    }
  }

  lemma {:induction false} PartsDistinct(cpts: seq<Checkpoint>, i: nat)
    requires i <= |cpts| && forall c | c in cpts :: NoRepeats(Names(c.sections))
    ensures NoRepeats(Names(Parts(cpts, i)))
  {
    hide Part, NoRepeats, Names;
    if i == 0 {
      assert NoRepeats(Names([])) by { NoNames(); }
    } else {
      assert cpts[i - 1] in cpts;
      PartsDistinct(cpts, i - 1);
      PartDistinct(cpts, i - 1);
      forall s, t | s in Parts(cpts, i - 1) && t in Part(cpts, i - 1) ensures s.name != t.name {
        var k := PartsFrom(cpts, i - 1, s);
        PartsApart(cpts, k, i - 1, s, t);
      }
      NamesConcat(Parts(cpts, i - 1), Part(cpts, i - 1));
    }
  }

  lemma NoNames()
    ensures NoRepeats(Names([]))
  {
  }

  lemma PartDistinct(cpts: seq<Checkpoint>, i: nat)
    requires i < |cpts| && NoRepeats(Names(cpts[i].sections))
    ensures NoRepeats(Names(Part(cpts, i)))
  {
    KeptDistinct(cpts[i].sections, PlaceOf(cpts, i), i == |cpts| - 1);
  }

  lemma LastTwo(pages: nat, processes: nat, tick: nat)
    ensures NoRepeats(Names([SystemSection(pages, processes), GlobalsSection(tick)]))
  {
    assert Names([SystemSection(pages, processes), GlobalsSection(tick)]) == ["system", "Globals"];
    assert "system"[0] != "Globals"[0];
  }

  lemma RangeNames(a: seq<Section>, b: seq<Section>, size: nat)
    ensures Names(a + WithRange(b, size)) == Names(a + b)
  {
  }

  lemma {:induction false} DistinctFrom(cpts: seq<Checkpoint>, secs: seq<Section>, fixed: seq<Section>)
    requires Names(secs) == Names(Parts(cpts, |cpts|)) && NoRepeats(Names(secs)) && NoRepeats(Names(fixed))
    requires forall t | t in fixed :: t.name == "system" || t.name == "Globals"
    ensures NoRepeats(Names(secs + fixed))
  {
    var parts := Parts(cpts, |cpts|);
    forall s, t | s in secs && t in fixed ensures s.name != t.name {
      var j :| 0 <= j < |secs| && secs[j] == s;
      assert Names(secs)[j] == s.name && Names(parts)[j] == parts[j].name;
      var k := PartsFrom(cpts, |cpts|, parts[j]);
      PartTags(cpts, k, parts[j]);
    }
    hide Part, Parts, NoRepeats, Names;
    NamesConcat(secs, fixed);
  }

  /** No two sections of the merged file have the same name. */
  lemma NamesDistinct(cpts: seq<Checkpoint>, memorySize: nat)
    requires cpts != [] && forall c | c in cpts :: NoRepeats(Names(c.sections))
    ensures NoRepeats(Names(MergedSections(cpts, memorySize)))
  {
    hide Part, NoRepeats, Names, WithRange, PageStart, MaxTick, SystemSection, GlobalsSection;
    var n, size := |cpts|, RangeSize(cpts, memorySize);
    var secs := Parts(cpts, n - 1) + WithRange(Part(cpts, n - 1), size);
    PartsDistinct(cpts, n);
    RangeNames(Parts(cpts, n - 1), Part(cpts, n - 1), size);
    LastTwo(PageStart(cpts, n), n, MaxTick(cpts, n));
    var fixed := [SystemSection(PageStart(cpts, n), n), GlobalsSection(MaxTick(cpts, n))];
    FixedNames(PageStart(cpts, n), n, MaxTick(cpts, n));
    DistinctFrom(cpts, secs, fixed);
  }

  lemma FixedNames(pages: nat, processes: nat, tick: nat)
    ensures SystemSection(pages, processes).name == "system" && GlobalsSection(tick).name == "Globals"
  {
  }
}
