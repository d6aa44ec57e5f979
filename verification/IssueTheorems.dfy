/**
  The issue loop consumes a prefix of the buffered slots and appends exactly the
  acceptable instructions of that prefix to the in-flight queue; it ends, keeps
  to its limits and keeps every invariant of the stage.
 */
module IssueTheorems {
  import opened Options
  import opened MinorTypes
  import opened QueueLemmas
  import opened QueueInvariants
  import opened UnitInvariants
  import opened DependencyInvariants
  import opened CommitSpec
  import opened CommitTheorems
  import opened IssueSpec

  // ---------- Slots ----------

  ghost predicate LinesInv(inp: Input) {
    && (forall l | l in inp.lines :: !BubbleLine(l))
    && (if inp.lines == [] then inp.index == 0 else inp.index < |inp.lines[0]|)
  }

  /** The real instructions among the slots. */
  ghost function Reals(slots: seq<Option<Inst>>): seq<Inst> {
    if slots == [] then []
    else (if slots[0].Some? then [slots[0].value] else []) + Reals(slots[1..])
  }

  /** The instructions in the slots, without bubbles and what is of another stream; none
      while the thread sleeps. */
  ghost function Taken(th: Thread, slots: seq<Option<Inst>>): seq<Inst> {
    if slots == [] || th.suspended then []
    else
      var slot := slots[|slots| - 1];
      Taken(th, slots[..|slots| - 1]) + (if slot.Some? && slot.value.stream == th.stream then [slot.value] else [])
  }

  ghost function Pending(inp: Input): seq<Inst> { Reals(Remaining(inp)) }

  lemma NextSlotStep(inp: Input)
    requires LinesInv(inp) && inp.lines != []
    ensures LinesInv(NextSlot(inp))
    ensures Remaining(inp) == [inp.lines[0][inp.index]] + Remaining(NextSlot(inp))
  {
    var l := inp.lines[0];
    if inp.index + 1 == |l| {
      NextLine(inp);
    } else {
      assert l[inp.index..] == [l[inp.index]] + l[inp.index + 1..];
      Assoc([l[inp.index]], l[inp.index + 1..], Flatten(inp.lines[1..]));
      hide Flatten;
    }
  }

  /** The last slot of the first line. */
  lemma NextLine(inp: Input)
    requires LinesInv(inp) && inp.lines != [] && inp.index + 1 == |inp.lines[0]|
    ensures LinesInv(PopInput(inp))
    ensures Remaining(inp) == [inp.lines[0][inp.index]] + Remaining(PopInput(inp))
  {
    var l, rest := inp.lines[0], inp.lines[1..];
    assert l[inp.index..] == [l[inp.index]];
    if rest != [] {
      assert rest[0] in inp.lines && rest[0][0..] == rest[0];
    }
  }

  lemma HasInputIff(inp: Input)
    requires LinesInv(inp)
    ensures HasInput(inp) <==> inp.lines != []
    ensures HasInput(inp) <==> Remaining(inp) != []
  {
    if inp.lines != [] {
      assert inp.lines[0] in inp.lines;
    }
  }

  lemma RealsCons(x: Option<Inst>, slots: seq<Option<Inst>>)
    ensures Reals([x] + slots) == if x.Some? then [x.value] + Reals(slots) else Reals(slots)
  {
    assert ([x] + slots)[1..] == slots;
  }

  // ---------- The invariant of the input ----------

  /** Instructions still to be issued are younger than all issued, and of no
      stream yet to come; none is of the current stream once everything is
      being drained. */
  ghost predicate PendingInv(s: State) {
    && Increasing(s.q.issued + Pending(s.inp))
    && (forall i | i in Pending(s.inp) :: WellFormed(i) && i.stream <= s.th.stream)
    && (s.drain == DrainAllInsts ==> forall i | i in Pending(s.inp) :: i.stream < s.th.stream)
  }

  ghost predicate InputInv(s: State) { LinesInv(s.inp) && PendingInv(s) }

  ghost predicate FullInv(s: State) { ExInv(s) && InputInv(s) }

  lemma IncreasingSplit(a: seq<Inst>, x: Inst, b: seq<Inst>)
    requires Increasing(a + ([x] + b))
    ensures LastId(a) < x.id || a == []
    ensures Increasing(a + b) && Increasing((a + [x]) + b)
  {
    var whole := a + ([x] + b);
    assert (a + [x]) + b == whole;
    assert whole[|a|] == x;
    assert a != [] ==> whole[|a| - 1] == a[|a| - 1];
    forall i, j | 0 <= i < j < |a + b| ensures (a + b)[i].id < (a + b)[j].id {
      var i' := if i < |a| then i else i + 1;
      var j' := if j < |a| then j else j + 1;
      assert whole[i'] == (a + b)[i] && whole[j'] == (a + b)[j];
    }
  }

  /** Dropping the current slot keeps the input's invariant. */
  lemma SkipKeeps(s: State)
    requires InputInv(s) && s.inp.lines != []
    ensures InputInv(s.(inp := NextSlot(s.inp)))
  {
    var inp' := NextSlot(s.inp);
    NextSlotStep(s.inp);
    var slot := s.inp.lines[0][s.inp.index];
    RealsCons(slot, Remaining(inp'));
    if slot.Some? {
      IncreasingSplit(s.q.issued, slot.value, Pending(inp'));
    }
  }

  /** The current slot is fresh, and issuing it keeps the input's invariant. */
  lemma TakeKeeps(s: State, s': State)
    requires InputInv(s) && s.inp.lines != []
    requires var slot := s.inp.lines[0][s.inp.index]; slot.Some? && s'.q.issued == s.q.issued + [slot.value]
    requires s'.inp == NextSlot(s.inp) && s'.th == s.th && s'.drain == s.drain
    ensures var x := s.inp.lines[0][s.inp.index].value;
      WellFormed(x) && LastId(s.q.issued) < x.id && x in Pending(s.inp)
    ensures InputInv(s')
  {
    var inp' := NextSlot(s.inp);
    NextSlotStep(s.inp);
    var x := s.inp.lines[0][s.inp.index].value;
    RealsCons(Some(x), Remaining(inp'));
    IncreasingSplit(s.q.issued, x, Pending(inp'));
  }

  // ---------- Issuing one instruction ----------

  lemma StreamIssue(s: State, x: Inst, s': State)
    requires StreamInv(s) && x.stream == s.th.stream && s.drain != DrainAllInsts
    requires s'.q.inFlight == s.q.inFlight + [x] && s'.th == s.th && s'.drain == s.drain
    ensures StreamInv(s')
  {
  }

  lemma OldInLSQ(q: Queues)
    requires QueueInv(q)
    ensures OrderInv(q) && FilterInv(q)
    ensures forall id | id in q.inLSQ :: id <= LastId(q.issued)
    ensures forall i | i in q.inFlight :: i.id <= LastId(q.issued)
  {
    InFlightIncreasing(q);
  }

  lemma IssueToUnit(cfg: Config, s: State, x: Inst, k: nat)
    requires ExInv(s) && WellFormed(x) && LastId(s.q.issued) < x.id
    requires x.stream == s.th.stream && s.drain != DrainAllInsts && !x.noCost
    requires k < |s.u.fus| && CanPush(s.u.fus[k])
    ensures ExInv(IssueInst(s, x, IssueU(cfg, s.u, x, k, InstToWaitFor(s.sb, s.bar, x))))
  {
    var w := InstToWaitFor(s.sb, s.bar, x);
    var u' := IssueU(cfg, s.u, x, k, w);
    var s' := IssueInst(s, x, u');
    OldInLSQ(s.q);
    EarlyIsOld(s.q, s.u, s.th.stream);
    hide QueueInv, OrderInv, FilterInv, SlotsInv, PlaceInv, ScoreInv, BarrierInv, WaitInv, StreamInv, IssueU, CanPush;
    QueueIssue(s.q, x);
    UnitIssueSlots(cfg, s.q, s.u, s.th.stream, x, k, w);
    UnitIssuePlaces(cfg, s.q, s.u, s.th.stream, x, k, w);
    ScoreIssue(s.q.inFlight, s.sb, x);
    BarrierIssue(s.q, s.bar, x);
    WaitMark(s.q, s.sb, s.bar, x);
    PushRoom(s.u.fus[k]);
    WaitIssue(cfg, s.q, s.u, x, k, w);
    StreamIssue(s, x, s');
  }

  lemma PushRoom(fu: FU)
    requires CanPush(fu)
    ensures fu.pipe != []
  {
  }

  lemma EarlyIsOld(q: Queues, u: Units, stream: SeqNum)
    requires UnitInv(q, u, stream)
    ensures SlotsInv(q, u, stream) && PlaceInv(q, u)
    ensures forall id | id in u.canEarly :: id <= LastId(q.issued)
  {
  }

  lemma IssueFree(s: State, x: Inst)
    requires ExInv(s) && WellFormed(x) && LastId(s.q.issued) < x.id
    requires x.stream == s.th.stream && s.drain != DrainAllInsts && x.noCost
    ensures ExInv(IssueInst(s, x, s.u.(fuIndex := s.u.fuIndex[x.id := NoCostFU(s.u)])))
  {
    var u' := s.u.(fuIndex := s.u.fuIndex[x.id := NoCostFU(s.u)]);
    OldInLSQ(s.q);
    hide QueueInv, OrderInv, FilterInv, UnitInv, ScoreInv, BarrierInv, WaitInv, StreamInv;
    QueueIssue(s.q, x);
    UnitIssueFree(s.q, s.u, s.th.stream, x);
    ScoreIssue(s.q.inFlight, s.sb, x);
    BarrierIssue(s.q, s.bar, x);
    WaitFree(s.q, s.u, u', x);
    StreamIssue(s, x, IssueInst(s, x, u'));
  }

  lemma WaitFree(q: Queues, u: Units, u': Units, x: Inst)
    requires WaitInv(q, u) && OrderInv(q) && FilterInv(q) && LastId(q.issued) < x.id && !x.memRef
    requires u'.waitFor == u.waitFor && u'.canEarly == u.canEarly
    ensures WaitInv(IssueQ(q, x), u')
  {
    MemQueueFacts(q);
    InFlightIncreasing(q);
  }

  // ---------- The loop ----------

  /** After n slots of s0's input: they are consumed, and exactly the acceptable
      ones among them are in flight. */
  ghost predicate IssueInv(cfg: Config, s0: State, s: State, c: IssueCtl, n: nat) {
    var slots := Remaining(s0.inp);
    && n <= |slots| && Remaining(s.inp) == slots[n..]
    && s.q.inFlight == s0.q.inFlight + Taken(s0.th, slots[..n])
    && s.q.issued == s0.q.issued + Taken(s0.th, slots[..n])
    && c.insts == |Taken(s0.th, slots[..n])| <= cfg.issueLimit
    && c.memRefs == |s.q.inFUMem| - |s0.q.inFUMem| <= cfg.memoryIssueLimit
    && (c.going ==> c.insts < cfg.issueLimit && c.memRefs < cfg.memoryIssueLimit && HasInput(s.inp))
    && s.th == s0.th && s.drain == s0.drain && s.lastEnd == s0.lastEnd
    && s.q.completed == s0.q.completed && s.q.sent == s0.q.sent && s.q.lsq == s0.q.lsq
  }

  lemma TakenStep(th: Thread, slots: seq<Option<Inst>>, n: nat)
    requires n < |slots|
    ensures Taken(th, slots[..n + 1]) ==
      Taken(th, slots[..n]) + (if Accepted(th, slots[n]) then [slots[n].value] else [])
    ensures slots[n..] == [slots[n]] + slots[n + 1..]
  {
    assert slots[..n + 1][..n] == slots[..n];
  }

  lemma StepMore(cfg: Config, s: State, c: IssueCtl)
    requires LinesInv(s.inp) && s.inp.lines != []
    ensures var (s', c') := Step(cfg, s, c);
      && s' == s.(inp := NextSlot(s.inp)) && LinesInv(s'.inp)
      && c'.insts == c.insts && c'.memRefs == c.memRefs
      && (c'.going ==> HasInput(s'.inp) && c.insts != cfg.issueLimit && c.memRefs != cfg.memoryIssueLimit)
  {
    NextSlotStep(s.inp);
    HasInputIff(NextSlot(s.inp));
  }

  /** What became of the current slot. */
  ghost predicate Issued(cfg: Config, s: State, s': State, c: IssueCtl, c': IssueCtl)
    requires s.inp.lines != [] && s.inp.index < |s.inp.lines[0]|
  {
    var slot := s.inp.lines[0][s.inp.index];
    && s'.th == s.th && s'.drain == s.drain && s'.lastEnd == s.lastEnd
    && s'.q.completed == s.q.completed && s'.q.sent == s.q.sent && s'.q.lsq == s.q.lsq
    && s'.inp == NextSlot(s.inp)
    && (if Accepted(s.th, slot) then
          && s'.q.inFlight == s.q.inFlight + [slot.value] && s'.q.issued == s.q.issued + [slot.value]
          && c'.insts == c.insts + 1
        else s'.q == s.q && c'.insts == c.insts)
    && c'.memRefs - c.memRefs == |s'.q.inFUMem| - |s.q.inFUMem| <= 1
    && (c'.going ==> HasInput(s'.inp) && c'.insts != cfg.issueLimit && c'.memRefs != cfg.memoryIssueLimit)
  }

  lemma IterIssues(cfg: Config, s: State, c: IssueCtl, e: IssueEnv)
    requires FullInv(s) && HasInput(s.inp) && s.inp.index < |s.inp.lines[0]|
    ensures var (s', c') := IssueIter(cfg, s, c, e);
      || (s' == s && !c'.going && c'.insts == c.insts && c'.memRefs == c.memRefs)
      || Issued(cfg, s, s', c, c')
  {
    hide ExInv, PendingInv, FindFU;
    var slot := s.inp.lines[0][s.inp.index];
    if !Accepted(s.th, slot) {
      StepMore(cfg, s, c);
    } else {
      var x := slot.value;
      TakeKeeps(s, s.(q := IssueQ(s.q, x), inp := NextSlot(s.inp)));
      var k := FindFU(s.u, e, 0);
      if x.noCost {
        var s1 := IssueInst(s, x, s.u.(fuIndex := s.u.fuIndex[x.id := NoCostFU(s.u)]));
        StepMore(cfg, s1, c.(fu := NoCostFU(s.u) + 1, insts := c.insts + 1));
      } else if k.Some? {
        var s1 := IssueInst(s, x, IssueU(cfg, s.u, x, k.value, InstToWaitFor(s.sb, s.bar, x)));
        hide IssueU, InstToWaitFor;
        StepMore(cfg, s1, IssueCtl(k.value + 1, c.insts + 1, if x.memRef then c.memRefs + 1 else c.memRefs, true));
      }
    }
  }

  lemma IterIssueKeeps(cfg: Config, s: State, c: IssueCtl, e: IssueEnv)
    requires FullInv(s) && HasInput(s.inp) && s.inp.index < |s.inp.lines[0]|
    ensures FullInv(IssueIter(cfg, s, c, e).0)
  {
    hide ExInv, PendingInv, LinesInv, FindFU;
    var slot := s.inp.lines[0][s.inp.index];
    if !Accepted(s.th, slot) {
      SkipKeeps(s);
      ExInvFrame(s, s.(inp := NextSlot(s.inp)));
    } else {
      var x := slot.value;
      TakeKeeps(s, s.(q := IssueQ(s.q, x), inp := NextSlot(s.inp)));
      NotAllDrained(s, x);
      var k := FindFU(s.u, e, 0);
      if x.noCost {
        var s1 := IssueInst(s, x, s.u.(fuIndex := s.u.fuIndex[x.id := NoCostFU(s.u)]));
        IssueFree(s, x);
        TakeKeeps(s, s1.(inp := NextSlot(s.inp)));
        ExInvFrame(s1, s1.(inp := NextSlot(s.inp)));
      } else if k.Some? {
        var s1 := IssueInst(s, x, IssueU(cfg, s.u, x, k.value, InstToWaitFor(s.sb, s.bar, x)));
        IssueToUnit(cfg, s, x, k.value);
        TakeKeeps(s, s1.(inp := NextSlot(s.inp)));
        ExInvFrame(s1, s1.(inp := NextSlot(s.inp)));
      }
    }
  }

  lemma ExInvFrame(s: State, s': State)
    requires ExInv(s) && s' == s.(inp := s'.inp)
    ensures ExInv(s')
  {
  }

  lemma NotAllDrained(s: State, x: Inst)
    requires PendingInv(s) && x in Pending(s.inp) && x.stream == s.th.stream
    ensures s.drain != DrainAllInsts
  {
  }

  lemma IssueInvStep(cfg: Config, s0: State, s: State, c: IssueCtl, n: nat, s': State, c': IssueCtl)
    requires IssueInv(cfg, s0, s, c, n) && c.going && LinesInv(s.inp) && HasInput(s.inp)
    requires Issued(cfg, s, s', c, c')
    ensures IssueInv(cfg, s0, s', c', n + 1)
  {
    var slots := Remaining(s0.inp);
    NextSlotStep(s.inp);
    assert Remaining(s.inp)[0] == s.inp.lines[0][s.inp.index];
    TakenStep(s0.th, slots, n);
    assert slots[n + 1..] == slots[n..][1..];
    hide Taken, Remaining;
    var extra := if Accepted(s0.th, slots[n]) then [slots[n].value] else [];
    Assoc(s0.q.inFlight, Taken(s0.th, slots[..n]), extra);
    Assoc(s0.q.issued, Taken(s0.th, slots[..n]), extra);
  }

  lemma {:induction false} IssueUpToKeeps(cfg: Config, s: State, env: nat -> IssueEnv, k: nat) returns (n: nat)
    requires FullInv(s) && ValidConfig(cfg)
    ensures var (s', c') := IssueUpTo(cfg, s, env, k);
      FullInv(s') && IssueInv(cfg, s, s', c', n) && (c'.going ==> n == k)
  {
    hide ExInv, PendingInv, IssueIter;
    if k == 0 {
      n := 0;
      var slots := Remaining(s.inp);
      assert slots[..0] == [] && slots[0..] == slots;
    } else {
      n := IssueUpToKeeps(cfg, s, env, k - 1);
      var (s1, c1) := IssueUpTo(cfg, s, env, k - 1);
      if c1.going && HasInput(s1.inp) && InRange(s1.inp) {
        hide IssueInv, Remaining;
        IterIssueKeeps(cfg, s1, c1, env(k - 1));
        IterIssues(cfg, s1, c1, env(k - 1));
        var (s2, c2) := IssueIter(cfg, s1, c1, env(k - 1));
        if s2 == s1 && !c2.going && c2.insts == c1.insts && c2.memRefs == c1.memRefs {
          IssueInvStops(cfg, s, s1, c1, c2, n);
        } else {
          IssueInvStep(cfg, s, s1, c1, n, s2, c2);
          n := n + 1;
        }
      }
    }
  }

  lemma IssueInvStops(cfg: Config, s0: State, s: State, c: IssueCtl, c': IssueCtl, n: nat)
    requires IssueInv(cfg, s0, s, c, n) && !c'.going && c'.insts == c.insts && c'.memRefs == c.memRefs
    ensures IssueInv(cfg, s0, s, c', n)
  {
  }

  lemma IssueInvBound(cfg: Config, s0: State, s: State, c: IssueCtl, n: nat)
    requires IssueInv(cfg, s0, s, c, n)
    ensures n <= |Remaining(s0.inp)|
  {
  }

  /** The issue loop ends, having consumed n slots and put exactly the
      acceptable instructions among them in flight, in order. */
  lemma IssueLoopEnds(cfg: Config, s: State, env: nat -> IssueEnv) returns (n: nat)
    requires FullInv(s) && ValidConfig(cfg)
    ensures var (s', c') := Issue(cfg, s, env);
      FullInv(s') && IssueInv(cfg, s, s', c', n) && !c'.going
  {
    var k := |Remaining(s.inp)| + 1;
    n := IssueUpToKeeps(cfg, s, env, k);
    assert Issue(cfg, s, env) == IssueUpTo(cfg, s, env, k);
    hide *;
    IssueInvBound(cfg, s, Issue(cfg, s, env).0, Issue(cfg, s, env).1, n);
  }

  lemma {:induction false} IssueSettled(cfg: Config, s: State, env: nat -> IssueEnv, k: nat, n: nat)
    requires k <= n && !IssueUpTo(cfg, s, env, k).1.going
    ensures IssueUpTo(cfg, s, env, n) == IssueUpTo(cfg, s, env, k)
  {
    hide IssueIter;
    if k < n {
      IssueSettled(cfg, s, env, k, n - 1);
    }
  }

  /** Issue only drops what it is offered for a sleeping thread. */
  lemma {:induction false} IssueAsleep(cfg: Config, s: State, env: nat -> IssueEnv, k: nat)
    requires s.th.suspended
    ensures var s' := IssueUpTo(cfg, s, env, k).0; s' == s.(inp := s'.inp)
  {
    if k > 0 { IssueAsleep(cfg, s, env, k - 1); }
  }

  lemma IssuesNone(cfg: Config, s: State, env: nat -> IssueEnv)
    requires s.inp == Input([], 0)
    ensures Issue(cfg, s, env).0 == s
  {
    assert IssueUpTo(cfg, s, env, 0) == (s, Start(s)) && !Start(s).going;
    IssueSettled(cfg, s, env, 0, |Remaining(s.inp)| + 1);
  }
}
