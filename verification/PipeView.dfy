/**
  The pipeline viewer's print queue: instructions arrive out of order, wait in a
  queue that is sorted and partly printed whenever it grows too long, and pass
  the user's filters on the way out.
 */
module PipeView {

  /** One traced instruction; `retire` is 0 if it never committed. */
  datatype Inst = Inst(sn: int, fetch: int, retire: int, text: string)

  /** Bounds of what to print; 0 switches a bound off. */
  datatype Filter = Filter(snStart: int, snStop: int, tickStart: int, tickStop: int, onlyCommitted: bool)

  predicate Wanted(f: Filter, i: Inst) {
    && !(f.snStart > 0 && i.sn < f.snStart)
    && !(f.snStop > 0 && i.sn > f.snStop)
    && !(f.tickStart > 0 && i.fetch < f.tickStart)
    && !(f.tickStop > 0 && i.fetch > f.tickStop)
    && !(f.onlyCommitted && i.retire == 0)
  }

  /** What the bounds ask for. */
  ghost predicate Asked(f: Filter, i: Inst) {
    && (f.snStart > 0 ==> f.snStart <= i.sn) && (f.snStop > 0 ==> i.sn <= f.snStop)
    && (f.tickStart > 0 ==> f.tickStart <= i.fetch) && (f.tickStop > 0 ==> i.fetch <= f.tickStop)
    && (f.onlyCommitted ==> i.retire != 0)
  }

  function Select(f: Filter, s: seq<Inst>): seq<Inst> {
    if s == [] then []
    else Select(f, s[..|s| - 1]) + (if Wanted(f, s[|s| - 1]) then [s[|s| - 1]] else [])
  }

  // ---------- Sorting ----------

  ghost predicate Sorted(s: seq<Inst>) { forall i, j | 0 <= i < j < |s| :: s[i].sn <= s[j].sn }

  ghost predicate AllBelow(s: seq<Inst>, t: seq<Inst>) { forall x, y | x in s && y in t :: x.sn <= y.sn }

  /** Put x behind every instruction that is not younger. */
  function Insert(s: seq<Inst>, x: Inst): seq<Inst> {
    if s == [] || s[|s| - 1].sn <= x.sn then s + [x]
    else Insert(s[..|s| - 1], x) + [s[|s| - 1]]
  }

  /** Stable sort by sequence number. */
  function Sort(s: seq<Inst>): seq<Inst> {
    if s == [] then [] else Insert(Sort(s[..|s| - 1]), s[|s| - 1])
  }

  lemma {:induction false} InsertContents(s: seq<Inst>, x: Inst)
    ensures multiset(Insert(s, x)) == multiset(s) + multiset{x}
  {
    if s != [] && s[|s| - 1].sn > x.sn {
      assert s == s[..|s| - 1] + [s[|s| - 1]];
      InsertContents(s[..|s| - 1], x);
    }
  }

  lemma {:induction false} InsertSorts(s: seq<Inst>, x: Inst)
    requires Sorted(s)
    ensures Sorted(Insert(s, x))
  {
    if s != [] && s[|s| - 1].sn > x.sn {
      var init, last := s[..|s| - 1], s[|s| - 1];
      InsertSorts(init, x);
      InsertContents(init, x);
      var t := Insert(init, x);
      forall i | 0 <= i < |t| ensures t[i].sn <= last.sn {
        assert t[i] in multiset(t);
        assert t[i] in init || t[i] == x;
      }
    }
  }

  lemma {:induction false} InsertCounts(s: seq<Inst>, x: Inst, v: int)
    ensures AtLeast(Insert(s, x), v) == AtLeast(s, v) + if x.sn >= v then 1 else 0
  {
    if s != [] && s[|s| - 1].sn > x.sn {
      InsertCounts(s[..|s| - 1], x, v);
      AtLeastAppend(Insert(s[..|s| - 1], x), s[|s| - 1], v);
    } else {
      AtLeastAppend(s, x, v);
    }
  }

  lemma {:induction false} SortSorts(s: seq<Inst>)
    ensures Sorted(Sort(s)) && multiset(Sort(s)) == multiset(s) && |Sort(s)| == |s|
  {
    if s != [] {
      assert s == s[..|s| - 1] + [s[|s| - 1]];
      SortSorts(s[..|s| - 1]);
      InsertContents(Sort(s[..|s| - 1]), s[|s| - 1]);
      InsertSorts(Sort(s[..|s| - 1]), s[|s| - 1]);
      assert |multiset(Sort(s))| == |multiset(s)|;
    }
  }

  lemma {:induction false} SortCounts(s: seq<Inst>, v: int)
    ensures AtLeast(Sort(s), v) == AtLeast(s, v)
  {
    if s != [] {
      SortCounts(s[..|s| - 1], v);
      InsertCounts(Sort(s[..|s| - 1]), s[|s| - 1], v);
    }
  }

  /** Those with sequence number v, in order. */
  ghost function Numbered(s: seq<Inst>, v: int): seq<Inst> {
    if s == [] then []
    else Numbered(s[..|s| - 1], v) + (if s[|s| - 1].sn == v then [s[|s| - 1]] else [])
  }

  lemma NumberedNext(s: seq<Inst>, x: Inst, v: int)
    ensures Numbered(s + [x], v) == Numbered(s, v) + if x.sn == v then [x] else []
  {
    assert (s + [x])[..|s|] == s;
  }

  lemma {:induction false} InsertStable(s: seq<Inst>, x: Inst, v: int)
    ensures Numbered(Insert(s, x), v) == Numbered(s, v) + if x.sn == v then [x] else []
  {
    if s != [] && s[|s| - 1].sn > x.sn {
      var init, last := s[..|s| - 1], s[|s| - 1];
      InsertStable(init, x, v);
      NumberedNext(Insert(init, x), last, v);
    } else {
      NumberedNext(s, x, v);
    }
  }

  /** Instructions with the same number stay in the order they arrived in. */
  lemma {:induction false} SortStable(s: seq<Inst>, v: int)
    ensures Numbered(Sort(s), v) == Numbered(s, v)
  {
    if s != [] {
      SortStable(s[..|s| - 1], v);
      InsertStable(Sort(s[..|s| - 1]), s[|s| - 1], v);
    }
  }

  // ---------- Disorder ----------

  /** How many have sequence number v or a later one. */
  function AtLeast(s: seq<Inst>, v: int): nat {
    if s == [] then 0 else AtLeast(s[..|s| - 1], v) + if s[|s| - 1].sn >= v then 1 else 0
  }

  lemma AtLeastAppend(s: seq<Inst>, x: Inst, v: int)
    ensures AtLeast(s + [x], v) == AtLeast(s, v) + if x.sn >= v then 1 else 0
  {
    assert (s + [x])[..|s|] == s;
  }

  lemma {:induction false} AtLeastConcat(s: seq<Inst>, t: seq<Inst>, v: int)
    ensures AtLeast(s + t, v) == AtLeast(s, v) + AtLeast(t, v)
  {
    if t == [] {
      assert s + t == s;
    } else {
      var init, x := t[..|t| - 1], t[|t| - 1];
      assert s + t == (s + init) + [x];
      AtLeastAppend(s + init, x, v);
      AtLeastConcat(s, init, v);
    }
  }

  lemma {:induction false} AtLeastAll(s: seq<Inst>, v: int)
    requires forall x | x in s :: x.sn >= v
    ensures AtLeast(s, v) == |s|
  {
    if s != [] { AtLeastAll(s[..|s| - 1], v); }
  }

  lemma {:induction false} AtLeastFalls(s: seq<Inst>, v: int, w: int)
    requires v <= w
    ensures AtLeast(s, w) <= AtLeast(s, v)
  {
    if s != [] { AtLeastFalls(s[..|s| - 1], v, w); }
  }

  /** No instruction arrives after more than n younger ones. */
  ghost predicate DisorderedBy(arrivals: seq<Inst>, n: nat) {
    forall i | 0 <= i < |arrivals| :: AtLeast(arrivals[..i], arrivals[i].sn + 1) <= n
  }

  // ---------- One round of printing ----------

  /** How many leave so that no more than `lower` stay. */
  function Excess(queue: seq<Inst>, lower: nat): nat {
    if |queue| > lower then |queue| - lower else 0
  }

  /** What a round takes from the queue, and what it leaves. */
  function Leaving(queue: seq<Inst>, lower: nat): seq<Inst> {
    SortSorts(queue);
    Sort(queue)[..Excess(queue, lower)]
  }

  function Staying(queue: seq<Inst>, lower: nat): seq<Inst> {
    SortSorts(queue);
    Sort(queue)[Excess(queue, lower)..]
  }

  lemma RoundSplits(queue: seq<Inst>, lower: nat)
    ensures Sort(queue) == Leaving(queue, lower) + Staying(queue, lower)
    ensures |Staying(queue, lower)| == |queue| - Excess(queue, lower)
  {
    SortSorts(queue);
    hide Sort, Insert;
  }

  // ---------- The whole trace ----------

  /** What has left and what is queued after the arrivals. */
  function Process(arrivals: seq<Inst>, max: nat, min: nat): (seq<Inst>, seq<Inst>) {
    if arrivals == [] then ([], [])
    else
      var (out, queue) := Process(arrivals[..|arrivals| - 1], max, min);
      var queue1 := queue + [arrivals[|arrivals| - 1]];
      if |queue1| > max then (out + Leaving(queue1, min), Staying(queue1, min)) else (out, queue1)
  }

  /** Everything in the order it leaves, with the final flush. */
  function Output(arrivals: seq<Inst>, max: nat, min: nat): seq<Inst> {
    var (out, queue) := Process(arrivals, max, min);
    out + Leaving(queue, 0)
  }

  ghost predicate Conserved(seen: seq<Inst>, out: seq<Inst>, queue: seq<Inst>) {
    && multiset(seen) == multiset(out) + multiset(queue)
    && forall v :: AtLeast(seen, v) == AtLeast(out, v) + AtLeast(queue, v)
  }

  /** What left is in order, below what is queued, and more than n of those seen
      are at or above the last that left. */
  ghost predicate InOrder(seen: seq<Inst>, out: seq<Inst>, queue: seq<Inst>, n: nat) {
    && Sorted(out) && AllBelow(out, queue)
    && (out != [] ==> AtLeast(seen, out[|out| - 1].sn) > n)
  }

  /** A new arrival does not belong before what already left. */
  lemma ArriveInOrder(seen: seq<Inst>, out: seq<Inst>, queue: seq<Inst>, x: Inst, n: nat)
    requires InOrder(seen, out, queue, n) && AtLeast(seen, x.sn + 1) <= n
    ensures InOrder(seen + [x], out, queue + [x], n)
  {
    if out != [] {
      var last := out[|out| - 1];
      if last.sn > x.sn {
        AtLeastFalls(seen, x.sn + 1, last.sn);
        assert false;
      }
      forall y | y in out ensures y.sn <= last.sn {
        var k :| 0 <= k < |out| && out[k] == y;
      }
      AtLeastAppend(seen, x, last.sn);
    }
  }

  lemma ArriveConserved(seen: seq<Inst>, out: seq<Inst>, queue: seq<Inst>, x: Inst)
    requires Conserved(seen, out, queue)
    ensures Conserved(seen + [x], out, queue + [x])
  {
    forall v ensures AtLeast(seen + [x], v) == AtLeast(out, v) + AtLeast(queue + [x], v) {
      AtLeastAppend(seen, x, v);
      AtLeastAppend(queue, x, v);
    }
  }

  lemma PrintConserved(seen: seq<Inst>, out: seq<Inst>, queue: seq<Inst>, lower: nat)
    requires Conserved(seen, out, queue)
    ensures Conserved(seen, out + Leaving(queue, lower), Staying(queue, lower))
  {
    hide AtLeast, Sort, Leaving, Staying;
    var a, b := Leaving(queue, lower), Staying(queue, lower);
    SortSorts(queue);
    RoundSplits(queue, lower);
    forall v ensures AtLeast(seen, v) == AtLeast(out + a, v) + AtLeast(b, v) {
      SortCounts(queue, v);
      AtLeastConcat(a, b, v);
      AtLeastConcat(out, a, v);
    }
  }

  lemma SortedAppend(a: seq<Inst>, b: seq<Inst>)
    requires Sorted(a) && Sorted(b) && AllBelow(a, b)
    ensures Sorted(a + b)
  {
  }

  lemma SortBelow(out: seq<Inst>, queue: seq<Inst>)
    requires AllBelow(out, queue)
    ensures AllBelow(out, Sort(queue))
  {
    SortSorts(queue);
    forall x, y | x in out && y in Sort(queue) ensures x.sn <= y.sn {
      assert y in multiset(Sort(queue));
      assert y in queue;
    }
  }

  lemma PrintSorted(out: seq<Inst>, queue: seq<Inst>, lower: nat)
    requires Sorted(out) && AllBelow(out, queue)
    ensures var a, b := Leaving(queue, lower), Staying(queue, lower);
      Sorted(out + a) && AllBelow(out + a, b) && AllBelow(a, b)
  {
    SortSorts(queue);
    SortBelow(out, queue);
    hide Sort;
    var s, k := Sort(queue), Excess(queue, lower);
    SplitBelow(s, k);
    assert AllBelow(out, s[..k]) && AllBelow(out, s[k..]);
    SortedAppend(out, s[..k]);
  }

  lemma SplitBelow(s: seq<Inst>, k: nat)
    requires Sorted(s) && k <= |s|
    ensures Sorted(s[..k]) && AllBelow(s[..k], s[k..])
  {
    forall x, y | x in s[..k] && y in s[k..] ensures x.sn <= y.sn {
      var i :| 0 <= i < k && s[i] == x;
      var j :| 0 <= j < |s| - k && s[k..][j] == y;
    }
  }

  /** As long as n stay behind, all of them at or above the last that left, a
      round keeps the order. */
  lemma PrintInOrder(seen: seq<Inst>, out: seq<Inst>, queue: seq<Inst>, n: nat)
    requires Conserved(seen, out, queue) && InOrder(seen, out, queue, n)
    ensures InOrder(seen, out + Leaving(queue, n), Staying(queue, n), n)
  {
    hide AtLeast, Sort, Leaving, Staying, Sorted;
    var a, b := Leaving(queue, n), Staying(queue, n);
    PrintSorted(out, queue, n);
    RoundSplits(queue, n);
    SortSorts(queue);
    if a == [] {
      assert out + a == out;
    } else {
      PrintConserved(seen, out, queue, n);
      ManyAbove(seen, out + a, b);
    }
  }

  /** The last that left and all that stay are at or above it. */
  lemma ManyAbove(seen: seq<Inst>, out: seq<Inst>, b: seq<Inst>)
    requires Conserved(seen, out, b) && out != [] && AllBelow(out, b)
    ensures AtLeast(seen, out[|out| - 1].sn) > |b|
  {
    var last := out[|out| - 1];
    AtLeastAll(b, last.sn);
  }

  /** What holds between arrivals. */
  ghost predicate QueueInv(seen: seq<Inst>, out: seq<Inst>, queue: seq<Inst>, min: nat) {
    Conserved(seen, out, queue) && (DisorderedBy(seen, min) ==> InOrder(seen, out, queue, min))
  }

  lemma ArriveKeeps(arrivals: seq<Inst>, out: seq<Inst>, queue: seq<Inst>, min: nat)
    requires arrivals != [] && QueueInv(arrivals[..|arrivals| - 1], out, queue, min)
    ensures QueueInv(arrivals, out, queue + [arrivals[|arrivals| - 1]], min)
  {
    hide DisorderedBy, Conserved, InOrder, AtLeast;
    var seen, x := arrivals[..|arrivals| - 1], arrivals[|arrivals| - 1];
    assert arrivals == seen + [x];
    ArriveConserved(seen, out, queue, x);
    if DisorderedBy(arrivals, min) {
      EarlierDisorder(arrivals, min);
      ArriveInOrder(seen, out, queue, x, min);
    }
  }

  lemma PrintKeeps(seen: seq<Inst>, out: seq<Inst>, queue: seq<Inst>, min: nat)
    requires QueueInv(seen, out, queue, min)
    ensures QueueInv(seen, out + Leaving(queue, min), Staying(queue, min), min)
  {
    hide DisorderedBy, Conserved, InOrder, Leaving, Staying;
    PrintConserved(seen, out, queue, min);
    if DisorderedBy(seen, min) { PrintInOrder(seen, out, queue, min); }
  }

  lemma {:induction false} ProcessKeeps(arrivals: seq<Inst>, max: nat, min: nat)
    ensures var (out, queue) := Process(arrivals, max, min); QueueInv(arrivals, out, queue, min)
  {
    if arrivals != [] {
      hide QueueInv, Leaving, Staying;
      ProcessKeeps(arrivals[..|arrivals| - 1], max, min);
      var (out, queue) := Process(arrivals[..|arrivals| - 1], max, min);
      ArriveKeeps(arrivals, out, queue, min);
      PrintKeeps(arrivals, out, queue + [arrivals[|arrivals| - 1]], min);
    }
  }

  lemma EarlierDisorder(arrivals: seq<Inst>, n: nat)
    requires DisorderedBy(arrivals, n) && arrivals != []
    ensures var seen := arrivals[..|arrivals| - 1];
      DisorderedBy(seen, n) && AtLeast(seen, arrivals[|arrivals| - 1].sn + 1) <= n
  {
    hide AtLeast;
    var seen := arrivals[..|arrivals| - 1];
    forall i | 0 <= i < |seen| ensures AtLeast(seen[..i], seen[i].sn + 1) <= n {
      assert seen[..i] == arrivals[..i];
    }
  }

  /** The queue never stays longer than `max`, and nothing leaves before it has been. */
  lemma {:induction false} QueueBound(arrivals: seq<Inst>, max: nat, min: nat)
    requires min <= max
    ensures var (out, queue) := Process(arrivals, max, min);
      |queue| <= max && (|arrivals| <= max <==> out == []) && (|arrivals| <= max ==> queue == arrivals)
  {
    if arrivals != [] {
      var init, x := arrivals[..|arrivals| - 1], arrivals[|arrivals| - 1];
      hide Leaving, Staying;
      QueueBound(init, max, min);
      var (out, queue) := Process(init, max, min);
      RoundLengths(queue + [x], min);
      assert arrivals == init + [x];
    }
  }

  lemma RoundLengths(queue: seq<Inst>, lower: nat)
    ensures |Leaving(queue, lower)| == Excess(queue, lower)
    ensures |Staying(queue, lower)| == |queue| - Excess(queue, lower)
  {
    SortSorts(queue);
    hide Sort;
  }

  /** Every arrival leaves the queue exactly once. */
  lemma OutputComplete(arrivals: seq<Inst>, max: nat, min: nat)
    ensures multiset(Output(arrivals, max, min)) == multiset(arrivals)
  {
    var (out, queue) := Process(arrivals, max, min);
    ProcessKeeps(arrivals, max, min);
    PrintConserved(arrivals, out, queue, 0);
    RoundSplits(queue, 0);
    hide AtLeast, Process, Leaving, Staying;
  }

  /** If no instruction arrives after more than `min` younger ones, all of them
      leave in order of their sequence numbers, and so do those printed. */
  lemma OutputSorted(arrivals: seq<Inst>, max: nat, min: nat, f: Filter)
    requires DisorderedBy(arrivals, min)
    ensures Sorted(Output(arrivals, max, min)) && Sorted(Select(f, Output(arrivals, max, min)))
  {
    var (out, queue) := Process(arrivals, max, min);
    ProcessKeeps(arrivals, max, min);
    PrintSorted(out, queue, 0);
    SelectSorted(f, Output(arrivals, max, min));
  }

  // ---------- Filters ----------

  lemma {:induction false} SelectConcat(f: Filter, s: seq<Inst>, t: seq<Inst>)
    ensures Select(f, s + t) == Select(f, s) + Select(f, t)
  {
    if t == [] {
      assert s + t == s;
    } else {
      var init, x := t[..|t| - 1], t[|t| - 1];
      assert (s + t)[..|s + t| - 1] == s + init;
      SelectConcat(f, s, init);
    }
  }

  /** A filter drops unwanted instructions and nothing else. */
  lemma {:induction false} SelectContents(f: Filter, s: seq<Inst>, x: Inst)
    ensures multiset(Select(f, s))[x] == if Asked(f, x) then multiset(s)[x] else 0
  {
    if s != [] {
      assert s == s[..|s| - 1] + [s[|s| - 1]];
      SelectContents(f, s[..|s| - 1], x);
    }
  }

  lemma {:induction false} SelectSorted(f: Filter, s: seq<Inst>)
    requires Sorted(s)
    ensures Sorted(Select(f, s))
  {
    if s != [] {
      var init, last := s[..|s| - 1], s[|s| - 1];
      SelectSorted(f, init);
      forall i | 0 <= i < |Select(f, init)| ensures Select(f, init)[i].sn <= last.sn {
        var x := Select(f, init)[i];
        assert x in multiset(Select(f, init));
        SelectContents(f, init, x);
        assert x in multiset(init);
      }
    }
  }

  // ---------- The queue itself ----------

  class Viewer {
    const filter: Filter
    const maxThreshold: nat
    const minThreshold: nat
    var queue: seq<Inst>
    var printed: seq<Inst>

    constructor (filter: Filter, maxThreshold: nat, minThreshold: nat)
      ensures queue == printed == []
      ensures this.filter == filter && this.maxThreshold == maxThreshold && this.minThreshold == minThreshold
    {
      this.filter, this.maxThreshold, this.minThreshold := filter, maxThreshold, minThreshold;
      queue, printed := [], [];
    }

    /** Sort the queue, then print from its front until it is short enough. */
    method PrintInsts(lowerThreshold: nat)
      modifies this
      ensures queue == Staying(old(queue), lowerThreshold)
      ensures printed == old(printed) + Select(filter, Leaving(old(queue), lowerThreshold))
    {
      hide Sort, Select, Leaving, Staying, Wanted;
      ghost var sorted := Sort(queue);
      RoundIs(queue, lowerThreshold);
      queue := Sort(queue);
      SelectNothing(filter, sorted);
      ghost var k: nat, done := 0, [];
      while |queue| > lowerThreshold
        invariant k <= Excess(old(queue), lowerThreshold) && queue == sorted[k..]
        invariant printed == old(printed) + done && done == Select(filter, sorted[..k])
        decreases |queue|
      {
        var item := queue[0];
        SelectNext(filter, sorted, k);
        DropFirst(sorted, k);
        queue := queue[1..];
        if Wanted(filter, item) {
          printed := printed + [item];
          AppendOne(old(printed), done, item);
          done := done + [item];
        }
        k := k + 1;
      }
    }

    /** Queue an instruction; print when the queue has grown too long. */
    method QueueInst(inst: Inst)
      modifies this
      ensures var queue1 := old(queue) + [inst];
        && queue == (if |queue1| > maxThreshold then Staying(queue1, minThreshold) else queue1)
        && printed == old(printed) +
             if |queue1| > maxThreshold then Select(filter, Leaving(queue1, minThreshold)) else []
    {
      queue := queue + [inst];
      if |queue| > maxThreshold {
        PrintInsts(minThreshold);
      }
    }
  }

  lemma SelectNext(f: Filter, s: seq<Inst>, k: nat)
    requires k < |s|
    ensures Select(f, s[..k + 1]) == if Wanted(f, s[k]) then Select(f, s[..k]) + [s[k]] else Select(f, s[..k])
  {
    assert s[..k + 1][..k] == s[..k];
    assert Select(f, s[..k]) + [] == Select(f, s[..k]);
  }

  lemma SelectNothing(f: Filter, s: seq<Inst>)
    ensures Select(f, s[..0]) == [] && s[0..] == s
  {
  }

  lemma DropFirst(s: seq<Inst>, k: nat)
    requires k < |s|
    ensures s[k..][0] == s[k] && s[k..][1..] == s[k + 1..]
  {
  }

  lemma AppendOne(a: seq<Inst>, b: seq<Inst>, x: Inst)
    ensures a + b + [x] == a + (b + [x])
  {
  }

  lemma RoundIs(queue: seq<Inst>, lower: nat)
    ensures |Sort(queue)| == |queue|
    ensures Leaving(queue, lower) == Sort(queue)[..Excess(queue, lower)]
    ensures Staying(queue, lower) == Sort(queue)[Excess(queue, lower)..]
  {
    SortSorts(queue);
  }

  lemma Printed(arrivals: seq<Inst>, f: Filter, max: nat, min: nat)
    ensures var printed := Select(f, Output(arrivals, max, min));
      && (forall x :: multiset(printed)[x] == if Asked(f, x) then multiset(arrivals)[x] else 0)
      && (DisorderedBy(arrivals, min) ==> Sorted(printed))
  {
    var all := Output(arrivals, max, min);
    OutputComplete(arrivals, max, min);
    forall x ensures multiset(Select(f, all))[x] == if Asked(f, x) then multiset(arrivals)[x] else 0 {
      SelectContents(f, all, x);
    }
    if DisorderedBy(arrivals, min) { OutputSorted(arrivals, max, min, f); }
  }
}
