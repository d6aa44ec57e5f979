/**
  What every step of Execute keeps of its queues: instructions complete once
  and in order, and the memory queue and the LSQ split the in-flight memory
  references between them, oldest in the LSQ.
 */
module QueueInvariants {
  import opened Options
  import opened MinorTypes
  import opened QueueLemmas
  import opened CommitSpec
  import opened IssueSpec

  function LastId(q: seq<Inst>): SeqNum { if q == [] then 0 else q[|q| - 1].id }

  /** Instructions complete exactly once and in issue order. */
  ghost predicate OrderInv(q: Queues) {
    && q.issued == q.completed + q.inFlight
    && Increasing(q.issued)
    && (forall i | i in q.inFlight :: WellFormed(i))
  }

  /** The memory queue and the LSQ split the in-flight references. */
  ghost predicate FilterInv(q: Queues) {
    && q.inFUMem == Unsent(q.inFlight, q.inLSQ)
    && q.lsq == Held(q.inFlight, q.inLSQ)
    && (forall i | i in q.inFlight && i.id in q.inLSQ :: i.memRef)
    && (forall h, m | h in q.lsq && m in q.inFUMem :: h.id < m.id)
    && (forall id | id in q.inLSQ :: id <= LastId(q.issued))
  }

  /** References enter the LSQ in issue order. */
  ghost predicate SentInv(q: Queues) {
    && Increasing(q.sent)
    && (forall x, m | x in q.sent && m in q.inFUMem :: x.id < m.id)
    && (forall x | x in q.sent :: x.memRef && x in q.issued)
  }

  ghost predicate QueueInv(q: Queues) { OrderInv(q) && FilterInv(q) && SentInv(q) }

  lemma InFlightIncreasing(q: Queues)
    requires OrderInv(q)
    ensures Increasing(q.inFlight)
    ensures forall i | i in q.inFlight :: i in q.issued && i.id <= LastId(q.issued)
  {
    var n := |q.completed|;
    forall i, j | 0 <= i < j < |q.inFlight| ensures q.inFlight[i].id < q.inFlight[j].id {
      assert q.issued[n + i] == q.inFlight[i] && q.issued[n + j] == q.inFlight[j];
    }
    forall i | i in q.inFlight ensures i in q.issued && i.id <= LastId(q.issued) {
      var k :| 0 <= k < |q.inFlight| && q.inFlight[k] == i;
      assert q.issued[n + k] == i;
    }
  }

  lemma SameInst(q: seq<Inst>, x: Inst, y: Inst)
    requires Increasing(q) && x in q && y in q && x.id == y.id
    ensures x == y
  {
    var i :| 0 <= i < |q| && q[i] == x;
    var j :| 0 <= j < |q| && q[j] == y;
  }

  lemma HeadIsOldest(q: seq<Inst>, x: Inst)
    requires Increasing(q) && x in q
    ensures q[0].id <= x.id && (x.id == q[0].id ==> x == q[0])
    ensures x != q[0] ==> x in q[1..]
  {
    var i :| 0 <= i < |q| && q[i] == x;
    if i > 0 {
      assert q[1..][i - 1] == x;
    }
  }

  lemma TailIsYounger(q: seq<Inst>)
    requires Increasing(q) && q != []
    ensures forall i | i in q[1..] :: i in q && q[0].id < i.id
  {
    forall i | i in q[1..] ensures i in q && q[0].id < i.id {
      var k :| 0 <= k < |q| - 1 && q[1..][k] == i;
      assert i == q[k + 1];
    }
  }

  lemma Shift<T>(a: seq<T>, b: seq<T>)
    requires b != []
    ensures a + b == (a + [b[0]]) + b[1..]
    ensures forall x | x in b[1..] :: x in b
  {
  }

  lemma MemQueueFacts(q: Queues)
    requires OrderInv(q) && FilterInv(q)
    ensures Increasing(q.inFUMem)
    ensures forall i :: i in q.inFUMem <==> i in q.inFlight && i.memRef && i.id !in q.inLSQ
    ensures forall i :: i in q.lsq <==> i in q.inFlight && i.id in q.inLSQ
  {
    InFlightIncreasing(q);
    UnsentMembers(q.inFlight, q.inLSQ);
    HeldMembers(q.inFlight, q.inLSQ);
    UnsentIncreasing(q.inFlight, q.inLSQ);
  }

  lemma OldestUnsent(q: Queues)
    requires OrderInv(q) && FilterInv(q) && q.inFUMem != []
    ensures Increasing(q.inFlight) && NextToSend(q.inFlight, q.inLSQ, q.inFUMem[0])
  {
    var x := q.inFUMem[0];
    InFlightIncreasing(q);
    MemQueueFacts(q);
    assert x in q.inFUMem;
    forall i | i in q.inFlight && i.memRef && i.id !in q.inLSQ ensures x.id <= i.id {
      HeadIsOldest(q.inFUMem, i);
    }
  }

  lemma FilterSend(q: Queues)
    requires OrderInv(q) && FilterInv(q) && q.inFUMem != []
    ensures FilterInv(SendQ(q, q.inFUMem[0]))
    ensures SendQ(q, q.inFUMem[0]).inFUMem == q.inFUMem[1..]
  {
    var x := q.inFUMem[0];
    OldestUnsent(q);
    UnsentSend(q.inFlight, q.inLSQ, x);
    HeldSend(q.inFlight, q.inLSQ, x);
    MemQueueFacts(q);
    TailIsYounger(q.inFUMem);
    InFlightIncreasing(q);
    forall i | i in q.inFlight && i.id == x.id ensures i.memRef {
      SameInst(q.inFlight, i, x);
    }
  }

  lemma SentSend(q: Queues)
    requires OrderInv(q) && FilterInv(q) && SentInv(q) && q.inFUMem != []
    ensures SentInv(SendQ(q, q.inFUMem[0]))
  {
    var x := q.inFUMem[0];
    MemQueueFacts(q);
    InFlightIncreasing(q);
    TailIsYounger(q.inFUMem);
    assert x in q.inFUMem;
    hide OrderInv, FilterInv;
    SentNext(q.sent, x);
  }

  lemma SentNext(sent: seq<Inst>, x: Inst)
    requires Increasing(sent) && forall y | y in sent :: y.id < x.id
    ensures Increasing(sent + [x])
  {
    forall i | 0 <= i < |sent| ensures sent[i].id < x.id { assert sent[i] in sent; }
  }

  /** Handing the oldest unsent reference to the LSQ keeps the queues. */
  lemma QueueSend(q: Queues)
    requires QueueInv(q) && q.inFUMem != []
    ensures QueueInv(SendQ(q, q.inFUMem[0]))
  {
    FilterSend(q);
    SentSend(q);
  }

  /** The picked instruction is the head, in the LSQ exactly if its response is
      what was picked. */
  ghost predicate PicksHead(q: Queues, p: Pick, o: Outcome) {
    && q.inFlight != [] && !p.NoPick? && p.inst == q.inFlight[0]
    && (p.Response? <==> p.inst.id in q.inLSQ)
    && (p.Response? ==> q.lsq != [] && q.lsq[0] == p.inst)
    && (o.SendFault? ==> p.inst.memRef && !p.Response?)
  }

  lemma OrderLeave(q: Queues, p: Pick, o: Outcome)
    requires OrderInv(q) && PicksHead(q, p, o)
    ensures OrderInv(LeaveQ(q, p, o))
  {
    Shift(q.completed, q.inFlight);
  }

  lemma TailUnsent(q: seq<Inst>, inLSQ: set<SeqNum>)
    requires q != [] && Increasing(q)
    ensures Unsent(q[1..], inLSQ + {q[0].id}) == Unsent(q[1..], inLSQ)
    ensures Held(q[1..], inLSQ + {q[0].id}) == Held(q[1..], inLSQ)
  {
    TailIsYounger(q);
    FiltersFrame(q[1..], inLSQ, q[0].id);
  }

  lemma MemQueueLeave(q: Queues, p: Pick, o: Outcome)
    requires OrderInv(q) && FilterInv(q) && PicksHead(q, p, o)
    ensures LeaveQ(q, p, o).inFUMem == Unsent(q.inFlight[1..], q.inLSQ)
    ensures LeaveQ(q, p, o).inFUMem == if p.inst.memRef && !p.Response? then q.inFUMem[1..] else q.inFUMem
  {
    UnsentMembers(q.inFlight, q.inLSQ);
    if q.inFUMem != [] {
      assert q.inFUMem[0] in q.inFUMem;
    }
  }

  lemma LSQLeave(q: Queues, p: Pick, o: Outcome)
    requires OrderInv(q) && FilterInv(q) && PicksHead(q, p, o)
    ensures LeaveQ(q, p, o).lsq == Held(q.inFlight[1..], q.inLSQ)
    ensures LeaveQ(q, p, o).lsq == if p.Response? then q.lsq[1..] else q.lsq
  {
  }

  lemma FilterLeave(q: Queues, p: Pick, o: Outcome)
    requires OrderInv(q) && FilterInv(q) && PicksHead(q, p, o)
    ensures FilterInv(LeaveQ(q, p, o))
  {
    var q' := LeaveQ(q, p, o);
    MemQueueLeave(q, p, o);
    LSQLeave(q, p, o);
    InFlightIncreasing(q);
    TailUnsent(q.inFlight, q.inLSQ);
    LeaveMarks(q, p.inst);
    Subsets(q.inFUMem, q.lsq, q'.inFUMem, q'.lsq);
  }

  lemma LeaveMarks(q: Queues, x: Inst)
    requires OrderInv(q) && FilterInv(q) && q.inFlight != [] && x == q.inFlight[0]
    ensures forall i | i in q.inFlight[1..] && i.id in q.inLSQ + {x.id} :: i.memRef
    ensures forall id | id in q.inLSQ + {x.id} :: id <= LastId(q.issued)
  {
    InFlightIncreasing(q);
    TailIsYounger(q.inFlight);
    assert x in q.inFlight;
  }

  lemma Subsets(mem: seq<Inst>, lsq: seq<Inst>, mem': seq<Inst>, lsq': seq<Inst>)
    requires forall h, m | h in lsq && m in mem :: h.id < m.id
    requires mem' == mem || (mem != [] && mem' == mem[1..])
    requires lsq' == lsq || (lsq != [] && lsq' == lsq[1..])
    ensures forall h, m | h in lsq' && m in mem' :: h.id < m.id
  {
  }

  /** Completing the head keeps the queues. */
  lemma QueueLeave(q: Queues, p: Pick, o: Outcome)
    requires QueueInv(q) && PicksHead(q, p, o)
    ensures QueueInv(LeaveQ(q, p, o))
  {
    OrderLeave(q, p, o);
    FilterLeave(q, p, o);
    MemQueueLeave(q, p, o);
  }

  lemma OrderIssue(q: Queues, x: Inst)
    requires OrderInv(q) && WellFormed(x) && LastId(q.issued) < x.id
    ensures OrderInv(IssueQ(q, x))
  {
    assert (q.completed + q.inFlight) + [x] == q.completed + (q.inFlight + [x]);
  }

  lemma LSQIsOld(q: Queues)
    requires OrderInv(q) && FilterInv(q)
    ensures forall h | h in q.lsq :: h.id <= LastId(q.issued)
  {
    InFlightIncreasing(q);
    HeldMembers(q.inFlight, q.inLSQ);
  }

  lemma AppendBounds(lsq: seq<Inst>, mem: seq<Inst>, fl: seq<Inst>, inLSQ: set<SeqNum>, x: Inst)
    requires forall h, m | h in lsq && m in mem :: h.id < m.id
    requires forall h | h in lsq :: h.id < x.id
    requires x.id !in inLSQ && forall i | i in fl && i.id in inLSQ :: i.memRef
    ensures forall h, m | h in lsq && m in mem + [x] :: h.id < m.id
    ensures forall i | i in fl + [x] && i.id in inLSQ :: i.memRef
  {
  }

  lemma FilterIssue(q: Queues, x: Inst)
    requires OrderInv(q) && FilterInv(q) && LastId(q.issued) < x.id
    ensures FilterInv(IssueQ(q, x))
  {
    LSQIsOld(q);
    assert x.id !in q.inLSQ;
    UnsentAppend(q.inFlight, q.inLSQ, x);
    HeldAppend(q.inFlight, q.inLSQ, x);
    AppendBounds(q.lsq, q.inFUMem, q.inFlight, q.inLSQ, x);
    assert LastId(q.issued + [x]) == x.id;
    hide Unsent, Held, OrderInv, WellFormed, Increasing;
  }

  lemma SentIssue(q: Queues, x: Inst)
    requires OrderInv(q) && SentInv(q) && LastId(q.issued) < x.id
    ensures SentInv(IssueQ(q, x))
  {
    forall y | y in q.sent ensures y.id < x.id {
      var k :| 0 <= k < |q.issued| && q.issued[k] == y;
    }
  }

  /** Issuing a fresh instruction keeps the queues. */
  lemma QueueIssue(q: Queues, x: Inst)
    requires QueueInv(q) && WellFormed(x) && LastId(q.issued) < x.id
    ensures QueueInv(IssueQ(q, x))
  {
    OrderIssue(q, x);
    FilterIssue(q, x);
    SentIssue(q, x);
  }

  /** A head in the LSQ is the oldest there. */
  lemma HeldHead(q: Queues)
    requires QueueInv(q) && q.inFlight != [] && q.inFlight[0].id in q.inLSQ
    ensures q.lsq != [] && q.lsq[0] == q.inFlight[0] && q.inFlight[0].memRef
  {
    assert q.inFlight[0] in q.inFlight;
  }
}
