/**
  Facts about the two in-flight queues seen as filters of one another, and
  about in-flight writers of a register.
 */
module QueueLemmas {
  import opened Options
  import opened MinorTypes

  ghost predicate Increasing(q: seq<Inst>) {
    forall i, j | 0 <= i < j < |q| :: q[i].id < q[j].id
  }

  /** Memory references of q that are not in the LSQ, in order. */
  function Unsent(q: seq<Inst>, inLSQ: set<SeqNum>): seq<Inst> {
    if q == [] then []
    else (if q[0].memRef && q[0].id !in inLSQ then [q[0]] else []) + Unsent(q[1..], inLSQ)
  }

  /** The instructions of q that are in the LSQ, in order. */
  function Held(q: seq<Inst>, inLSQ: set<SeqNum>): seq<Inst> {
    if q == [] then []
    else (if q[0].id in inLSQ then [q[0]] else []) + Held(q[1..], inLSQ)
  }

  lemma {:induction false} UnsentMembers(q: seq<Inst>, inLSQ: set<SeqNum>)
    ensures forall i :: i in Unsent(q, inLSQ) <==> i in q && i.memRef && i.id !in inLSQ
  {
    if q != [] {
      UnsentMembers(q[1..], inLSQ);
    }
  }

  lemma {:induction false} HeldMembers(q: seq<Inst>, inLSQ: set<SeqNum>)
    ensures forall i :: i in Held(q, inLSQ) <==> i in q && i.id in inLSQ
  {
    if q != [] {
      HeldMembers(q[1..], inLSQ);
    }
  }

  lemma {:induction false} UnsentIncreasing(q: seq<Inst>, inLSQ: set<SeqNum>)
    requires Increasing(q)
    ensures Increasing(Unsent(q, inLSQ))
  {
    if q != [] {
      UnsentIncreasing(q[1..], inLSQ);
      UnsentMembers(q[1..], inLSQ);
      var u := Unsent(q[1..], inLSQ);
      assert forall j | 0 <= j < |u| :: u[j] in u && u[j] in q[1..];
    }
  }

  lemma {:induction false} FiltersFrame(q: seq<Inst>, inLSQ: set<SeqNum>, id: SeqNum)
    requires forall i | i in q :: i.id != id
    ensures Unsent(q, inLSQ + {id}) == Unsent(q, inLSQ)
    ensures Held(q, inLSQ + {id}) == Held(q, inLSQ)
  {
    if q != [] {
      FiltersFrame(q[1..], inLSQ, id);
    }
  }

  lemma {:induction false} NoneHeld(q: seq<Inst>, inLSQ: set<SeqNum>)
    requires forall i | i in q :: i.id !in inLSQ
    ensures Held(q, inLSQ) == []
  {
    if q != [] {
      NoneHeld(q[1..], inLSQ);
    }
  }

  /** x is the oldest unsent reference and everything in the LSQ is older. */
  ghost predicate NextToSend(q: seq<Inst>, inLSQ: set<SeqNum>, x: Inst) {
    && x in q && x.memRef && x.id !in inLSQ
    && (forall i | i in q && i.memRef && i.id !in inLSQ :: x.id <= i.id)
    && (forall i | i in q && i.id in inLSQ :: i.id < x.id)
  }

  lemma NextInTail(q: seq<Inst>, inLSQ: set<SeqNum>, x: Inst)
    requires Increasing(q) && NextToSend(q, inLSQ, x) && q[0] != x
    ensures Increasing(q[1..]) && NextToSend(q[1..], inLSQ, x)
    ensures q[0].id < x.id && !(q[0].memRef && q[0].id !in inLSQ)
  {
    var k :| 0 <= k < |q| && q[k] == x;
    assert q[1..][k - 1] == x;
  }

  lemma NextIsHead(q: seq<Inst>, inLSQ: set<SeqNum>)
    requires q != [] && Increasing(q) && NextToSend(q, inLSQ, q[0])
    ensures forall i | i in q[1..] :: i.id != q[0].id && i.id !in inLSQ
  {
    forall i | i in q[1..] ensures i.id != q[0].id && i.id !in inLSQ {
      var k :| 0 <= k < |q| - 1 && q[1..][k] == i;
      assert i == q[k + 1];
    }
  }

  lemma UnsentCons(x: Inst, q: seq<Inst>, inLSQ: set<SeqNum>)
    ensures Unsent([x] + q, inLSQ) == if x.memRef && x.id !in inLSQ then [x] + Unsent(q, inLSQ) else Unsent(q, inLSQ)
    ensures Held([x] + q, inLSQ) == if x.id in inLSQ then [x] + Held(q, inLSQ) else Held(q, inLSQ)
  {
    assert ([x] + q)[1..] == q;
  }

  lemma {:induction false} UnsentSend(q: seq<Inst>, inLSQ: set<SeqNum>, x: Inst)
    requires Increasing(q) && NextToSend(q, inLSQ, x)
    ensures Unsent(q, inLSQ) == [x] + Unsent(q, inLSQ + {x.id})
  {
    assert q != [];
    hide *;
    var head, rest := q[0], q[1..];
    assert q == [head] + rest;
    UnsentCons(head, rest, inLSQ);
    UnsentCons(head, rest, inLSQ + {x.id});
    if head == x {
      NextIsHead(q, inLSQ);
      FiltersFrame(rest, inLSQ, x.id);
      NextIsUnsent(q, inLSQ, x);
    } else {
      NextInTail(q, inLSQ, x);
      UnsentSend(rest, inLSQ, x);
    }
  }

  lemma NextIsUnsent(q: seq<Inst>, inLSQ: set<SeqNum>, x: Inst)
    requires NextToSend(q, inLSQ, x)
    ensures x.memRef && x.id !in inLSQ
  {
  }

  lemma {:induction false} HeldSend(q: seq<Inst>, inLSQ: set<SeqNum>, x: Inst)
    requires Increasing(q) && NextToSend(q, inLSQ, x)
    ensures Held(q, inLSQ + {x.id}) == Held(q, inLSQ) + [x]
  {
    assert q != [];
    hide *;
    var head, rest := q[0], q[1..];
    assert q == [head] + rest;
    UnsentCons(head, rest, inLSQ);
    UnsentCons(head, rest, inLSQ + {x.id});
    if head == x {
      NextIsHead(q, inLSQ);
      FiltersFrame(rest, inLSQ, x.id);
      NoneHeld(rest, inLSQ);
      NextIsUnsent(q, inLSQ, x);
    } else {
      NextInTail(q, inLSQ, x);
      HeldSend(rest, inLSQ, x);
    }
  }

  lemma Assoc<T>(a: seq<T>, b: seq<T>, c: seq<T>)
    ensures (a + b) + c == a + (b + c)
  {
  }

  lemma ConsAppend(q: seq<Inst>, x: Inst)
    requires q != []
    ensures q == [q[0]] + q[1..] && q + [x] == [q[0]] + (q[1..] + [x])
  {
  }

  lemma {:induction false} UnsentAppend(q: seq<Inst>, inLSQ: set<SeqNum>, x: Inst)
    requires x.id !in inLSQ
    ensures Unsent(q + [x], inLSQ) == Unsent(q, inLSQ) + (if x.memRef then [x] else [])
  {
    if q == [] {
      assert q + [x] == [x];
    } else {
      hide *;
      ConsAppend(q, x);
      UnsentAppend(q[1..], inLSQ, x);
      Assoc([q[0]], Unsent(q[1..], inLSQ), if x.memRef then [x] else []);
      UnsentCons(q[0], q[1..], inLSQ);
      UnsentCons(q[0], q[1..] + [x], inLSQ);
    }
  }

  lemma {:induction false} HeldAppend(q: seq<Inst>, inLSQ: set<SeqNum>, x: Inst)
    requires x.id !in inLSQ
    ensures Held(q + [x], inLSQ) == Held(q, inLSQ)
  {
    if q == [] {
      assert q + [x] == [x];
    } else {
      hide *;
      ConsAppend(q, x);
      HeldAppend(q[1..], inLSQ, x);
      UnsentCons(q[0], q[1..], inLSQ);
      UnsentCons(q[0], q[1..] + [x], inLSQ);
    }
  }

  /** Results pending in the scoreboard if exactly q is in flight. */
  function Dests(q: seq<Inst>): multiset<Reg> {
    if q == [] then multiset{} else multiset(q[0].dests) + Dests(q[1..])
  }

  lemma {:induction false} DestsAppend(q: seq<Inst>, x: Inst)
    ensures Dests(q + [x]) == Dests(q) + multiset(x.dests)
  {
    if q == [] {
      assert q + [x] == [x];
    } else {
      assert (q + [x])[1..] == q[1..] + [x];
      DestsAppend(q[1..], x);
    }
  }

  lemma {:induction false} DestsMember(q: seq<Inst>, r: Reg)
    ensures r in Dests(q) <==> exists i :: i in q && r in i.dests
  {
    if q != [] {
      DestsMember(q[1..], r);
      if i :| i in q && r in i.dests {
        assert i == q[0] || i in q[1..];
      }
    }
  }

  /** The youngest instruction of q that writes r; 0 if none does. */
  function Youngest(q: seq<Inst>, r: Reg): SeqNum {
    if q == [] then 0
    else if r in q[|q| - 1].dests then q[|q| - 1].id
    else Youngest(q[..|q| - 1], r)
  }

  lemma {:induction false} YoungestBound(q: seq<Inst>, r: Reg, w: Inst)
    requires Increasing(q) && w in q && r in w.dests
    ensures w.id <= Youngest(q, r)
  {
    var n := |q| - 1;
    if r in q[n].dests {
    } else {
      assert w in q[..n];
      YoungestBound(q[..n], r, w);
    }
  }

  lemma {:induction false} NoWriter(q: seq<Inst>, r: Reg)
    requires forall i | i in q :: r !in i.dests
    ensures Youngest(q, r) == 0
  {
    if q != [] {
      NoWriter(q[..|q| - 1], r);
    }
  }

  /** Completing the oldest instruction leaves in place every youngest writer
      that is still in flight. */
  lemma {:induction false} YoungestPop(q: seq<Inst>, r: Reg, w: Inst)
    requires q != [] && w in q[1..] && r in w.dests
    ensures Youngest(q[1..], r) == Youngest(q, r)
  {
    var n := |q| - 1;
    assert q[1..][n - 1] == q[n];
    if r !in q[n].dests {
      assert q[1..][..n - 1] == q[..n][1..];
      assert w in q[..n][1..];
      YoungestPop(q[..n], r, w);
    }
  }
}
