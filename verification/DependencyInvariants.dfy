/**
  What every step of Execute keeps of register and barrier dependencies: the
  scoreboard counts in-flight writers and names the youngest, and a memory
  reference that may go early waits for every older instruction it depends on.
 */
module DependencyInvariants {
  import opened Options
  import opened MinorTypes
  import opened QueueLemmas
  import opened QueueInvariants
  import opened CommitSpec
  import opened IssueSpec
  import opened CycleSpec

  // ---------- Scoreboard ----------

  ghost predicate ScoreInv(fl: seq<Inst>, sb: Scoreboard) {
    && sb.numResults == Dests(fl)
    && (forall r :: r in sb.writing <==> r in sb.numResults)
    && (forall r | r in sb.writing :: sb.writing[r] == Youngest(fl, r))
  }

  lemma ScoreLeave(fl: seq<Inst>, sb: Scoreboard)
    requires fl != [] && ScoreInv(fl, sb)
    ensures ScoreInv(fl[1..], ClearDests(sb, fl[0]))
    ensures multiset(fl[0].dests) <= sb.numResults
  {
    var sb' := ClearDests(sb, fl[0]);
    assert sb'.numResults == Dests(fl[1..]);
    forall r | r in sb'.writing ensures sb'.writing[r] == Youngest(fl[1..], r) {
      DestsMember(fl[1..], r);
      var w :| w in fl[1..] && r in w.dests;
      YoungestPop(fl, r, w);
    }
  }

  lemma {:induction false} YoungestBelow(q: seq<Inst>, r: Reg, id: SeqNum)
    requires 0 < id && forall i | i in q :: i.id < id
    ensures Youngest(q, r) < id
  {
    if q != [] {
      YoungestBelow(q[..|q| - 1], r, id);
    }
  }

  lemma ScoreIssue(fl: seq<Inst>, sb: Scoreboard, x: Inst)
    requires ScoreInv(fl, sb) && forall i | i in fl :: i.id < x.id
    requires 0 < x.id
    ensures ScoreInv(fl + [x], MarkupDests(sb, x))
  {
    var sb' := MarkupDests(sb, x);
    DestsAppend(fl, x);
    assert (fl + [x])[..|fl|] == fl;
    forall r | r in sb'.writing ensures sb'.writing[r] == Youngest(fl + [x], r) {
      YoungestBelow(fl, r, x.id);
    }
  }

  // ---------- Barriers ----------

  ghost predicate BarrierInv(q: Queues, bar: Barriers) {
    && (forall b | b in q.inFlight && b.barrier :: b.id <= bar.last)
    && (forall x, i | x in bar.waiting && i in q.inFlight :: x < i.id)
    && (forall x | x in bar.waiting :: x <= LastId(q.issued))
    && bar.last <= LastId(q.issued)
    && Traced(q, bar)
  }

  /** The barrier remembered, if any, waits or is in flight. */
  ghost predicate Traced(q: Queues, bar: Barriers) {
    bar.last == 0 || bar.last in bar.waiting || exists b | b in q.inFlight :: b.barrier && b.id == bar.last
  }

  lemma BarrierDrop(q: Queues, bar: Barriers, id: SeqNum)
    requires BarrierInv(q, bar)
    ensures BarrierInv(q, DropBarrier(bar, id))
  {
  }

  lemma BarrierLeave(q: Queues, q': Queues, bar: Barriers, committed: bool)
    requires OrderInv(q) && BarrierInv(q, bar) && q.inFlight != []
    requires q'.inFlight == q.inFlight[1..] && q'.issued == q.issued
    ensures BarrierInv(q', CompleteBarrier(bar, q.inFlight[0], committed))
  {
    hide OrderInv, Increasing, Traced;
    InFlightIncreasing(q);
    TailIsYounger(q.inFlight);
    TracedLeave(q, q', bar, committed);
    assert q.inFlight[0] in q.inFlight;
  }

  lemma TracedLeave(q: Queues, q': Queues, bar: Barriers, committed: bool)
    requires Traced(q, bar) && q.inFlight != [] && q'.inFlight == q.inFlight[1..]
    ensures Traced(q', CompleteBarrier(bar, q.inFlight[0], committed))
  {
    if bar.last != 0 && bar.last !in bar.waiting {
      var b :| b in q.inFlight && b.barrier && b.id == bar.last;
      assert b == q.inFlight[0] || b in q'.inFlight;
    }
  }

  lemma BarrierIssue(q: Queues, bar: Barriers, x: Inst)
    requires OrderInv(q) && BarrierInv(q, bar) && LastId(q.issued) < x.id
    ensures BarrierInv(IssueQ(q, x), if x.barrier then bar.(last := x.id) else bar)
  {
    InFlightIncreasing(q);
    if x.barrier { assert x in IssueQ(q, x).inFlight; }
    hide OrderInv, Increasing;
  }

  // ---------- Waiting ----------

  ghost predicate Feeds(w: Inst, m: Inst) { exists r :: r in w.dests && r in m.srcs }

  ghost predicate MustPrecede(w: Inst, m: Inst) { w.id < m.id && (w.barrier || Feeds(w, m)) }

  /** The wait mark of each reference that may go early covers everything in
      flight that must precede it. */
  ghost predicate WaitInv(q: Queues, u: Units) {
    forall m | m in q.inFUMem && m.id in u.canEarly ::
      WaitFor(u, m) < m.id && forall w | w in q.inFlight && MustPrecede(w, m) :: w.id <= WaitFor(u, m)
  }

  lemma {:induction false} LastWriterCovers(sb: Scoreboard, srcs: seq<Reg>, r: Reg)
    requires r in srcs && r in sb.writing
    ensures sb.writing[r] <= LastWriter(sb, srcs)
  {
    if srcs[0] != r {
      LastWriterCovers(sb, srcs[1..], r);
    }
  }

  lemma {:induction false} LastWriterBelow(sb: Scoreboard, srcs: seq<Reg>, id: SeqNum)
    requires 0 < id && forall r | r in sb.writing :: sb.writing[r] < id
    ensures LastWriter(sb, srcs) < id
  {
    if srcs != [] {
      LastWriterBelow(sb, srcs[1..], id);
    }
  }

  lemma WriterCovered(fl: seq<Inst>, sb: Scoreboard, w: Inst, x: Inst)
    requires Increasing(fl) && ScoreInv(fl, sb) && w in fl && Feeds(w, x)
    ensures w.id <= LastWriter(sb, x.srcs)
  {
    var r :| r in w.dests && r in x.srcs;
    DestsMember(fl, r);
    YoungestBound(fl, r, w);
    LastWriterCovers(sb, x.srcs, r);
  }

  /** The mark issue computes covers every in-flight instruction that must
      precede the new one, and lies before it. */
  lemma WaitMark(q: Queues, sb: Scoreboard, bar: Barriers, x: Inst)
    requires OrderInv(q) && ScoreInv(q.inFlight, sb) && BarrierInv(q, bar) && LastId(q.issued) < x.id
    ensures InstToWaitFor(sb, bar, x) < x.id
    ensures forall w | w in q.inFlight && MustPrecede(w, x) :: w.id <= InstToWaitFor(sb, bar, x)
  {
    InFlightIncreasing(q);
    forall r | r in sb.writing ensures sb.writing[r] < x.id {
      YoungestBelow(q.inFlight, r, x.id);
    }
    LastWriterBelow(sb, x.srcs, x.id);
    hide OrderInv, ScoreInv, LastWriter, Feeds;
    forall w | w in q.inFlight && MustPrecede(w, x) ensures w.id <= InstToWaitFor(sb, bar, x) {
      if !w.barrier { WriterCovered(q.inFlight, sb, w, x); }
    }
  }

  lemma WaitIssue(cfg: Config, q: Queues, u: Units, x: Inst, k: nat, w: SeqNum)
    requires OrderInv(q) && FilterInv(q) && WaitInv(q, u) && LastId(q.issued) < x.id
    requires k < |u.fus| && u.fus[k].pipe != []
    requires w < x.id && forall y | y in q.inFlight && MustPrecede(y, x) :: y.id <= w
    requires forall id | id in u.canEarly :: id <= LastId(q.issued)
    ensures WaitInv(IssueQ(q, x), IssueU(cfg, u, x, k, w))
  {
    var q', u' := IssueQ(q, x), IssueU(cfg, u, x, k, w);
    InFlightIncreasing(q);
    MemQueueFacts(q);
    forall m | m in q'.inFUMem && m.id in u'.canEarly
      ensures WaitFor(u', m) < m.id && forall y | y in q'.inFlight && MustPrecede(y, m) :: y.id <= WaitFor(u', m)
    {
      if m != x {
        assert m in q.inFUMem && m.id in u.canEarly;
      }
    }
  }

  /** Fewer references waiting, fewer instructions in flight. */
  lemma WaitFrame(q: Queues, q': Queues, u: Units, u': Units)
    requires WaitInv(q, u) && u'.waitFor == u.waitFor && u'.canEarly <= u.canEarly
    requires forall m | m in q'.inFUMem :: m in q.inFUMem
    requires forall m | m in q'.inFlight :: m in q.inFlight
    ensures WaitInv(q', u')
  {
  }
}
