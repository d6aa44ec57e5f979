/**
  The pipeline viewer's pass over a trace: skip to the starting point, collect
  each instruction from its lines, queue it when it retires, and stop at the end
  of the file or past the last instruction wanted.
 */
module TraceLines {
  import opened PipeView

  /** A line of the trace: the fetch record of an instruction, its retirement, what
      another stage did with it, or none of the viewer's lines. */
  datatype Line =
    | FetchLine(tick: nat, sn: nat, text: string)
    | RetireLine(tick: nat)
    | StageLine(tick: nat)
    | OtherLine

  const BLANK := Inst(0, 0, 0, "")

  /** The record being collected after one more line; a retirement at tick 0 is
      none, and is marked. */
  function NextInst(cur: Inst, line: Line): Inst {
    match line
    case FetchLine(tick, sn, text) => Inst(sn, tick, cur.retire, text)
    case RetireLine(tick) => cur.(retire := tick, text := if tick == 0 then "-----" + cur.text else cur.text)
    case _ => cur
  }

  function Collected(lines: seq<Line>): Inst {
    if lines == [] then BLANK else NextInst(Collected(lines[..|lines| - 1]), lines[|lines| - 1])
  }

  /** The instructions queued along the lines. */
  function Arrivals(lines: seq<Line>): seq<Inst> {
    if lines == [] then []
    else
      Arrivals(lines[..|lines| - 1]) + (if lines[|lines| - 1].RetireLine? then [Collected(lines)] else [])
  }

  /** The lines from j to k of one instruction: its fetch, what other stages did with it,
      and its retirement. */
  ghost predicate OneInst(lines: seq<Line>, j: nat, k: nat) {
    && j < k < |lines| && lines[j].FetchLine? && lines[k].RetireLine?
    && forall i | j < i < k :: !lines[i].FetchLine? && !lines[i].RetireLine?
  }

  /** What is queued at a retirement: the number, tick and text of the last fetch, and the
      tick of the retirement. */
  lemma QueuedIs(lines: seq<Line>, j: nat, k: nat)
    requires OneInst(lines, j, k)
    ensures var f, r := lines[j], lines[k].tick;
      Arrivals(lines[..k + 1]) ==
        Arrivals(lines[..k]) + [Inst(f.sn, f.tick, r, if r == 0 then "-----" + f.text else f.text)]
  {
    CollectedIs(lines, j, k);
    assert lines[..k + 1][..k] == lines[..k];
  }

  lemma {:induction false} CollectedIs(lines: seq<Line>, j: nat, i: nat)
    requires j < i <= |lines| && lines[j].FetchLine?
    requires forall m | j < m < i :: !lines[m].FetchLine? && !lines[m].RetireLine?
    ensures var c, f := Collected(lines[..i]), lines[j]; c.sn == f.sn && c.fetch == f.tick && c.text == f.text
  {
    assert lines[..i][..i - 1] == lines[..i - 1];
    if j < i - 1 { CollectedIs(lines, j, i - 1); }
  }

  // ---------- Where the pass starts and stops ----------

  /** The line at which the first search ends. */
  predicate Begins(f: Filter, line: Line) {
    if f.tickStart != 0 then !line.OtherLine? && line.tick >= f.tickStart
    else if f.snStart != 0 then line.FetchLine? && line.sn >= f.snStart
    else true
  }

  /** The first line, from k on, at which the first search ends. */
  function FirstBegin(f: Filter, lines: seq<Line>, k: nat): (r: nat)
    requires k <= |lines|
    ensures k <= r <= |lines| && (r < |lines| ==> Begins(f, lines[r]))
    ensures forall j | k <= j < r :: !Begins(f, lines[j])
    decreases |lines| - k
  {
    if k == |lines| || Begins(f, lines[k]) then k else FirstBegin(f, lines, k + 1)
  }

  function FirstFetch(lines: seq<Line>, k: nat): (r: nat)
    requires k <= |lines|
    ensures k <= r <= |lines| && (r < |lines| ==> lines[r].FetchLine?)
    ensures forall j | k <= j < r :: !lines[j].FetchLine?
    decreases |lines| - k
  {
    if k == |lines| || lines[k].FetchLine? then k else FirstFetch(lines, k + 1)
  }

  /** The line collecting starts with, or the end of the file. */
  function Start(f: Filter, lines: seq<Line>): nat { FirstFetch(lines, FirstBegin(f, lines, 0)) }

  /** A fetch so late that nothing wanted can follow. */
  predicate Late(f: Filter, drift: nat, max: nat, line: Line) {
    && line.FetchLine?
    && ((f.tickStop > 0 && line.tick > f.tickStop + drift) || (f.snStop > 0 && line.sn > f.snStop + max))
  }

  /** The line is the fetch of an instruction past the last one asked for, by more than
      what the trace may be out of order. */
  ghost predicate PastStop(f: Filter, drift: nat, max: nat, line: Line) {
    && line.FetchLine?
    && (0 < f.tickStop < line.tick - drift || 0 < f.snStop < line.sn - max)
  }

  lemma LateExactly(f: Filter, drift: nat, max: nat, lines: seq<Line>, k: nat)
    requires k <= |lines|
    ensures FirstLate(f, drift, max, lines, k) < |lines| <==>
      exists j | k <= j < |lines| :: PastStop(f, drift, max, lines[j])
  {
  }

  function FirstLate(f: Filter, drift: nat, max: nat, lines: seq<Line>, k: nat): (r: nat)
    requires k <= |lines|
    ensures k <= r <= |lines| && (r < |lines| ==> Late(f, drift, max, lines[r]))
    ensures forall j | k <= j < r :: !Late(f, drift, max, lines[j])
    decreases |lines| - k
  {
    if k == |lines| || Late(f, drift, max, lines[k]) then k else FirstLate(f, drift, max, lines, k + 1)
  }

  // ---------- What is skipped is not wanted ----------

  /** Every instruction of the file that was fetched and retired in it. */
  ghost function Traced(lines: seq<Line>): seq<Inst> { Arrivals(lines[FirstFetch(lines, 0)..]) }

  ghost predicate SameBut(x: Inst, y: Inst) { x == y.(retire := x.retire) }

  /** Collecting begins afresh at a fetch. */
  lemma {:induction false} ArrivalsSplit(a: seq<Line>, b: seq<Line>)
    requires b != [] && b[0].FetchLine?
    ensures Arrivals(a + b) == Arrivals(a) + Arrivals(b)
    ensures SameBut(Collected(a + b), Collected(b))
  {
    var init, last := b[..|b| - 1], b[|b| - 1];
    assert (a + b)[..|a + b| - 1] == a + init && (a + b)[|a + b| - 1] == last;
    if init == [] {
      assert a + init == a;
    } else {
      ArrivalsSplit(a, init);
      assert last.RetireLine? ==> Collected(a + b) == Collected(b);
    }
  }

  /** Fetched before the start of what is wanted. */
  ghost predicate TooEarly(f: Filter, sn: int, tick: int) {
    (f.snStart > 0 && sn < f.snStart) || (f.tickStart > 0 && tick < f.tickStart)
  }

  lemma {:induction false} EarlyUnwanted(f: Filter, lines: seq<Line>)
    requires lines != [] && lines[0].FetchLine?
    requires forall j | 0 <= j < |lines| && lines[j].FetchLine? :: TooEarly(f, lines[j].sn, lines[j].tick)
    ensures Select(f, Arrivals(lines)) == [] && TooEarly(f, Collected(lines).sn, Collected(lines).fetch)
  {
    var init, last := lines[..|lines| - 1], lines[|lines| - 1];
    if init == [] {
      assert Collected([]) == BLANK && Arrivals(lines) == [];
    } else {
      EarlyUnwanted(f, init);
      if last.RetireLine? {
        var arrivals := Arrivals(init) + [Collected(lines)];
        assert arrivals[..|arrivals| - 1] == Arrivals(init);
      } else {
        assert Arrivals(init) + [] == Arrivals(init);
      }
    }
  }

  /** Skipping to the starting point loses nothing that is wanted. */
  lemma SkipLosesNothing(f: Filter, lines: seq<Line>)
    ensures Select(f, Traced(lines)) == Select(f, Arrivals(lines[Start(f, lines)..]))
  {
    var first, begin, start := FirstFetch(lines, 0), FirstBegin(f, lines, 0), Start(f, lines);
    if first < start {
      var a, b := lines[first..start], lines[start..];
      assert lines[first..] == a + b;
      forall j | 0 <= j < |a| && a[j].FetchLine? ensures TooEarly(f, a[j].sn, a[j].tick) {
        assert a[j] == lines[first + j] && first + j < begin;
        assert !Begins(f, lines[first + j]);
      }
      EarlyUnwanted(f, a);
      if b == [] {
        assert a + b == a;
      } else {
        ArrivalsSplit(a, b);
        SelectConcat(f, Arrivals(a), Arrivals(b));
        assert [] + Select(f, Arrivals(b)) == Select(f, Arrivals(b));
      }
    }
  }

  // ---------- The pass ----------

  /** No starting point; the file was read and the queue flushed; or the call that
      flushes the queue early raised, for want of an argument. */
  datatype Ending = Nothing | Flushed | Raised

  /** What the pass has printed and queued after these lines. */
  ghost predicate After(v: Viewer, lines: seq<Line>)
    reads v
  {
    var (out, queue) := Process(Arrivals(lines), v.maxThreshold, v.minThreshold);
    v.queue == queue && v.printed == Select(v.filter, out)
  }

  /** If no fetch is late, every wanted instruction of the whole file is printed, as
      often as it is there, and in order if the trace is out of order by no more than
      the queue can make up for; at the first late fetch the pass raises instead,
      and what is queued then is lost. */
  method ProcessTrace(v: Viewer, lines: seq<Line>, drift: nat) returns (end: Ending)
    requires v.queue == v.printed == []
    modifies v
    ensures var start := Start(v.filter, lines);
      && (end.Nothing? <==> start == |lines|)
      && (end.Raised? <==> exists k | start <= k < |lines| :: PastStop(v.filter, drift, v.maxThreshold, lines[k]))
      && (end.Raised? ==> After(v, lines[start..FirstLate(v.filter, drift, v.maxThreshold, lines, start)]))
      && (end.Flushed? && DisorderedBy(Arrivals(lines[start..]), v.minThreshold) ==> Sorted(v.printed))
    ensures !end.Raised? ==> v.queue == []
    ensures !end.Raised? ==>
      forall x :: multiset(v.printed)[x] == if Asked(v.filter, x) then multiset(Traced(lines))[x] else 0
  {
    hide Arrivals, Traced, Select, Process;
    SkipLosesNothing(v.filter, lines);
    LateExactly(v.filter, drift, v.maxThreshold, lines, Start(v.filter, lines));
    var start := FindStart(v.filter, lines);
    if start == |lines| {
      NothingWanted(v.filter, lines);
      return Nothing;
    }
    var raised := Collect(v, lines, start, drift);
    if raised {
      return Raised;
    }
    assert lines[start..|lines|] == lines[start..];
    Flush(v, lines[start..]);
    forall x ensures multiset(v.printed)[x] == if Asked(v.filter, x) then multiset(Traced(lines))[x] else 0 {
      SelectContents(v.filter, Traced(lines), x);
      SelectContents(v.filter, Arrivals(lines[start..]), x);
    }
    return Flushed;
  }

  /** Skip to the starting point, then to the next fetch. */
  method FindStart(f: Filter, lines: seq<Line>) returns (i: nat)
    ensures i == Start(f, lines)
  {
    i := 0;
    while i < |lines| && !Begins(f, lines[i])
      invariant 0 <= i <= |lines| && FirstBegin(f, lines, 0) == FirstBegin(f, lines, i)
    {
      i := i + 1;
    }
    while i < |lines| && !lines[i].FetchLine?
      invariant 0 <= i <= |lines| && Start(f, lines) == FirstFetch(lines, i)
    {
      i := i + 1;
    }
  }

  /** Collect and queue instructions until the end of the file or the first late
      fetch. */
  method Collect(v: Viewer, lines: seq<Line>, start: nat, drift: nat) returns (raised: bool)
    requires start <= |lines| && v.queue == v.printed == []
    modifies v
    ensures var late := FirstLate(v.filter, drift, v.maxThreshold, lines, start);
      raised == (late < |lines|) && After(v, lines[start..late])
  {
    hide Process, Select, Begins;
    ghost var f, max := v.filter, v.maxThreshold;
    var i, cur := start, BLANK;
    NothingYet(v, lines, start);
    while i < |lines|
      invariant start <= i <= |lines| && cur == Collected(lines[start..i]) && After(v, lines[start..i])
      invariant FirstLate(f, drift, max, lines, start) == FirstLate(f, drift, max, lines, i)
    {
      if Late(v.filter, drift, v.maxThreshold, lines[i]) {
        return true;
      }
      NextLine(lines, start, i);
      cur := NextInst(cur, lines[i]);
      if lines[i].RetireLine? {
        QueueNext(v, lines, start, i, cur);
      } else {
        assert Arrivals(lines[start..i]) + [] == Arrivals(lines[start..i]);
      }
      i := i + 1;
    }
    return false;
  }

  lemma NothingYet(v: Viewer, lines: seq<Line>, start: nat)
    requires start <= |lines| && v.queue == v.printed == []
    ensures Collected(lines[start..start]) == BLANK && After(v, lines[start..start])
  {
    assert lines[start..start] == [];
  }

  lemma NothingWanted(f: Filter, lines: seq<Line>)
    requires Start(f, lines) == |lines|
    ensures forall x :: multiset([])[x] == if Asked(f, x) then multiset(Traced(lines))[x] else 0
  {
    SkipLosesNothing(f, lines);
    assert lines[|lines|..] == [];
    forall x ensures Asked(f, x) ==> multiset(Traced(lines))[x] == 0 { SelectContents(f, Traced(lines), x); }
  }

  lemma NextLine(lines: seq<Line>, start: nat, i: nat)
    requires start <= i < |lines|
    ensures Collected(lines[start..i + 1]) == NextInst(Collected(lines[start..i]), lines[i])
    ensures Arrivals(lines[start..i + 1]) ==
      Arrivals(lines[start..i]) + if lines[i].RetireLine? then [Collected(lines[start..i + 1])] else []
  {
    assert lines[start..i + 1][..i - start] == lines[start..i];
  }

  /** The instruction that retires at line i is queued. */
  method QueueNext(v: Viewer, lines: seq<Line>, ghost start: nat, i: nat, cur: Inst)
    requires start <= i < |lines| && lines[i].RetireLine? && After(v, lines[start..i])
    requires cur == Collected(lines[start..i + 1])
    modifies v
    ensures After(v, lines[start..i + 1])
  {
    hide Leaving, Staying, Select, Sort;
    NextLine(lines, start, i);
    ghost var arrivals, all := Arrivals(lines[start..i]), Arrivals(lines[start..i + 1]);
    ghost var (out, q) := Process(arrivals, v.maxThreshold, v.minThreshold);
    assert all[..|all| - 1] == arrivals && all[|all| - 1] == cur;
    v.QueueInst(cur);
    SelectConcat(v.filter, out, Leaving(q + [cur], v.minThreshold));
    assert Select(v.filter, out) + [] == Select(v.filter, out);
  }

  /** The rest of the queue is printed. */
  method Flush(v: Viewer, ghost lines: seq<Line>)
    requires After(v, lines)
    modifies v
    ensures v.queue == []
    ensures forall x :: multiset(v.printed)[x] == if Asked(v.filter, x) then multiset(Arrivals(lines))[x] else 0
    ensures DisorderedBy(Arrivals(lines), v.minThreshold) ==> Sorted(v.printed)
  {
    hide Leaving, Staying, Select, Sort;
    ghost var arrivals := Arrivals(lines);
    ghost var (out, q) := Process(arrivals, v.maxThreshold, v.minThreshold);
    SelectConcat(v.filter, out, Leaving(q, 0));
    RoundSplits(q, 0);
    v.PrintInsts(0);
    Printed(arrivals, v.filter, v.maxThreshold, v.minThreshold);
  }
}
