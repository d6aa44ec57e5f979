/**
  Runs with a memory reference: one that enters the LSQ ahead of an older
  instruction, and two in which a reference overtakes a barrier that has
  committed but still waits in the store buffer.
 */
module MemoryRuns {
  import opened Options
  import opened MinorTypes
  import opened CommitSpec
  import opened CommitTheorems
  import opened IssueSpec
  import opened IssueTheorems
  import opened CycleSpec
  import opened QueueLemmas
  import opened Pipeline
  import opened StageRuns
  import opened RunTheorems
  import opened Witness
  import opened ExampleRuns

  /** A memory reference without operands. */
  ghost predicate Access(m: Inst) {
    WellFormed(m) && m.memRef && !m.barrier && m.srcs == [] && m.dests == []
  }

  /** The first unit is of depth two. */
  ghost predicate ShortUnit(fus: seq<FU>) { fus != [] && |fus[0].pipe| == 2 }

  /** m has reached the end of its unit and may go once fl[0] is at the head. */
  ghost predicate AtUnitEnd(s: State, fl: seq<Inst>, m: Inst, bar: Barriers) {
    && s.inp == Input([], 0) && s.q.inFlight == fl && fl != []
    && s.q.inFUMem == [m] && s.q.inLSQ == {} && s.q.sent == []
    && FUOf(s.u, m) < |s.u.fus| && s.u.fus[FUOf(s.u, m)].stalled && AtFront(s.u, FUOf(s.u, m)) == Some(m)
    && m.id in s.u.canEarly && WaitFor(s.u, m) < fl[0].id && s.bar == bar && s.drain == NotDraining && !s.th.suspended
    && (fl[0] == m || Light(fl[0]))
  }

  // ---------- Cycles ----------

  lemma UnitIssued(cfg: Config, s: State, m: Inst, env: nat -> IssueEnv, k: nat)
    requires ValidConfig(cfg) && s.inp == Input([], 0) && !m.noCost && m.stream == s.th.stream && !s.th.suspended
    requires k < |s.u.fus| && s.u.fus[k].pipe != [] && FindFU(s.u, env(0), 0) == Some(k)
    ensures Issue(cfg, WithLine(s, m), env).0 == IssueInst(s, m, IssueU(cfg, s.u, m, k, InstToWaitFor(s.sb, s.bar, m)))
  {
    var s0 := WithLine(s, m);
    assert IssueUpTo(cfg, s0, env, 0) == (s0, Start(s0)) && Start(s0).going;
    var (s1, c1) := IssueUpTo(cfg, s0, env, 1);
    assert s1.inp == Input([], 0) && !c1.going;
    IssueSettled(cfg, s0, env, 1, |Remaining(s0.inp)| + 1);
  }

  /** The clock edge that takes m to the end of its unit. */
  lemma UnitEnd(cfg: Config, u: Units, m: Inst, w: SeqNum)
    requires cfg.allowEarlyMemIssue && m.memRef && ShortUnit(u.fus) && Unused(u.fus[0])
    ensures var u' := AdvanceUnits(IssueU(cfg, u, m, 0, w));
      && FUOf(u', m) == 0 && |u'.fus| > 0 && u'.fus[0].stalled && AtFront(u', 0) == Some(m)
      && m.id in u'.canEarly && WaitFor(u', m) == w
  {
    var fu := Push(u.fus[0], m);
    assert fu.pipe == [None, Some(m)];
    assert AdvanceFU(fu) == FU([Some(m), None], true);
  }

  /** A cycle that delivers m to unit k and holds everything. */
  lemma HeldDelivery(cfg: Config, s: State, m: Inst, k: nat)
    requires ValidConfig(cfg) && s.inp == Input([], 0) && s.drain == NotDraining && !s.th.suspended
    requires !m.noCost && m.stream == s.th.stream
    requires k < |s.u.fus| && s.u.fus[k].pipe != [] && FindFU(s.u, IssueEnv(_ => true), 0) == Some(k)
    requires s.q.inFlight != [] ==>
      var s0 := WithLine(DropBranch(s), m);
      var (s', c') := CommitIter(cfg, s0, CTL0, false, false, HoldsBack()); s' == s0 && !c'.completed
    ensures var s1 := IssueInst(DropBranch(s), m, IssueU(cfg, s.u, m, k, InstToWaitFor(s.sb, s.bar, m)));
      Evaluate(cfg, s, Clock([Some(m)], Holding())) == s1.(u := AdvanceUnits(s1.u))
  {
    var e := Clock([Some(m)], Holding());
    hide Commit, Issue, Evaluate, Begin, AdvanceUnits, IssueU, CommitIter, InstToWaitFor, MarkupDests, FindFU;
    BeginWith(s, m, Holding());
    Stalls(cfg, WithLine(DropBranch(s), m), e.commit);
    AfterCommit(cfg, s, e, WithLine(DropBranch(s), m));
    UnitIssued(cfg, DropBranch(s), m, e.issue, k);
  }

  lemma FirstUnit(u: Units)
    requires ShortUnit(u.fus) && Unused(u.fus[0])
    ensures FindFU(u, IssueEnv(_ => true), 0) == Some(0)
  {
  }

  /** A cycle that delivers m and holds everything. */
  lemma AccessCycle(cfg: Config, s: State, x: Scene, m: Inst)
    requires ValidConfig(cfg) && cfg.allowEarlyMemIssue && Idle(s, x) && s.inp == Input([], 0) && ShortUnit(x.fus)
    requires Access(m) && m.stream == s.th.stream && (x.q != [] ==> x.q[0].stream == s.th.stream) && !s.th.suspended
    requires x.bar.last < (x.q + [m])[0].id
    ensures var s' := Evaluate(cfg, s, Clock([Some(m)], Holding()));
      AtUnitEnd(s', x.q + [m], m, x.bar) && s'.th == s.th.(branch := BUBBLE) && s'.q.issued == x.issued + [m]
  {
    if x.q != [] { HeadHolds(cfg, WithLine(DropBranch(s), m), x, CTL0, false); }
    FirstUnit(s.u);
    hide Evaluate, CommitIter, FindFU;
    HeldDelivery(cfg, s, m, 0);
    assert InstToWaitFor(s.sb, s.bar, m) == x.bar.last;
    assert x.q != [] ==> x.q[0] in x.q;
    assert [] + [m] == [m];
    hide AdvanceUnits, IssueU, InstToWaitFor, MarkupDests;
    UnitEnd(cfg, s.u, m, x.bar.last);
  }

  /** m is what commit looks at first. */
  lemma LooksAtAccess(cfg: Config, s: State, fl: seq<Inst>, m: Inst, bar: Barriers, c: Ctl, e: IterEnv)
    requires AtUnitEnd(s, fl, m, bar) && m.stream == s.th.stream && e.canRequest && e.pcEvent.None?
    ensures var (th, o) := TryInst(cfg, s.th, bar.last, Early(m), false, e);
      CommitIter(cfg, s, c, false, false, e) == (Finish(s, Early(m), th, o), Count(c, Early(m), o))
  {
    assert PickInst(cfg, s, c, false, e) == Early(m);
  }

  /** A cycle that delivers a simple b behind m. */
  lemma DeliveryBehind(cfg: Config, s: State, fl: seq<Inst>, m: Inst, bar: Barriers, b: Inst)
    requires AtUnitEnd(s, fl, m, bar) && Access(m) && m.stream == s.th.stream && Simple(b) && b.stream == s.th.stream
    requires b.id != m.id
    ensures var s' := Evaluate(cfg, s, Clock([Some(b)], Holding()));
      && AtUnitEnd(s', fl + [b], m, if b.barrier then bar.(last := b.id) else bar) && s'.th == s.th.(branch := BUBBLE)
  {
    var e := Clock([Some(b)], Holding());
    var s1 := DropBranch(s);
    BeginWith(s, b, Holding());
    HoldsAccess(cfg, WithLine(s1, b), fl, m, bar);
    Stalls(cfg, WithLine(s1, b), e.commit);
    AfterCommit(cfg, s, e, WithLine(s1, b));
    IssuesOne(cfg, s1, b, e.issue);
    var s2 := IssueInst(s1, b, s1.u.(fuIndex := s1.u.fuIndex[b.id := NoCostFU(s1.u)]));
    assert AdvanceUnits(s2.u).fus[FUOf(s.u, m)] == s.u.fus[FUOf(s.u, m)];
    assert (fl + [b])[0] == fl[0];
    hide Commit, Issue, Evaluate, Begin, CommitIter, MarkupDests;
  }

  lemma HoldsAccess(cfg: Config, s: State, fl: seq<Inst>, m: Inst, bar: Barriers)
    requires AtUnitEnd(s.(inp := Input([], 0)), fl, m, bar) && Access(m) && m.stream == s.th.stream
    ensures var (s', c') := CommitIter(cfg, s, CTL0, false, false, HoldsBack()); s' == s && !c'.completed
  {
    assert PickInst(cfg, s, CTL0, false, HoldsBack()) == Early(m);
  }

  /** m enters the LSQ and stays in flight; no older remembered barrier stops it. */
  lemma GoesEarly(cfg: Config, s: State, fl: seq<Inst>, m: Inst, bar: Barriers)
    requires ValidConfig(cfg) && AtUnitEnd(s, fl, m, bar) && s.th.branch == BUBBLE && Access(m)
    requires m.stream == s.th.stream
    requires fl[0].stream == s.th.stream && (fl[0] != m ==> fl[0].id != m.id) && !(0 < bar.last < m.id)
    ensures var s' := Evaluate(cfg, s, Clock([], Once(Executes(0))));
      s'.q.sent == [m] && s'.q.inFlight == fl && s'.bar == bar
  {
    var e := Clock([], Once(Executes(0)));
    var env := Once(Executes(0));
    BeginWith(s, m, env);
    assert DropBranch(s) == s;
    assert CommitUpTo(cfg, s, false, false, env, 0) == (s, CTL0) && CommitGuard(cfg, s, CTL0);
    LooksAtAccess(cfg, s, fl, m, bar, CTL0, Executes(0));
    var (s1, c1) := CommitUpTo(cfg, s, false, false, env, 1);
    assert s1 == Finish(s, Early(m), s.th, Send) && c1 == Ctl(true, false, 0, 0);
    Afterwards(cfg, s, fl, m, c1);
    hide CommitIter, Finish, TryInst;
    var (s2, c2) := CommitUpTo(cfg, s, false, false, env, 2);
    assert s2 == s1 && !CommitGuard(cfg, s2, c2);
    CommitSettled(cfg, s, false, false, env, 2, CommitBound(s));
    AfterCommit(cfg, s, e, s1);
    IssuesNone(cfg, s1, e.issue);
    hide Commit, Issue, AdvanceUnits, Evaluate;
  }

  /** Nothing else happens in that commit call. */
  lemma Afterwards(cfg: Config, s: State, fl: seq<Inst>, m: Inst, c: Ctl)
    requires AtUnitEnd(s, fl, m, s.bar) && Access(m) && fl[0].stream == s.th.stream && (fl[0] != m ==> fl[0].id != m.id)
    ensures var s1 := Finish(s, Early(m), s.th, Send);
      && s1.q.sent == [m] && s1.q.inFlight == fl && s1.bar == s.bar && s1.drain == NotDraining && s1.inp == Input([], 0)
      && var (s2, c2) := CommitIter(cfg, s1, c, false, false, HoldsBack()); s2 == s1 && !c2.completed
  {
    var s1 := Finish(s, Early(m), s.th, Send);
    assert [] + [m] == [m] && s1.q.inFUMem == [];
    if fl[0] == m {
      assert PickInst(cfg, s1, c, false, HoldsBack()) == NoPick;
    } else {
      assert PickInst(cfg, s1, c, false, HoldsBack()) == Free(fl[0]);
    }
  }

  // ---------- Runs ----------

  /** m, then whatever is behind it, is handed over. */
  lemma AccessRun(cfg: Config, sys: System, evs: seq<Event>, sys1: System, x: Scene, th: Thread, fr: Front, m: Inst)
    returns (sys2: System)
    requires ValidConfig(cfg) && cfg.allowEarlyMemIssue && Leads(cfg, sys, evs, sys1) && Stands(sys1, x, th, fr)
    requires ShortUnit(x.fus) && Access(m) && m.stream == th.stream == fr.stream && m.pc == fr.pc && fr.state == Running
    requires Increasing(x.issued + [m]) && (x.q != [] ==> x.q[0].stream == th.stream) && !th.suspended
    requires x.bar.last < (x.q + [m])[0].id
    ensures Leads(cfg, sys, evs + [DeliveryOf(m)], sys2) && AtUnitEnd(sys2.ex, x.q + [m], m, x.bar)
    ensures sys2.ex.th == th.(branch := BUBBLE) && sys2.fr == fr.(pc := Next(cfg, m))
    ensures sys2.ex.q.issued == x.issued + [m]
  {
    DeliversOne(cfg, sys1, m);
    CycleIsLegal(cfg, sys1, [Some(m)], Holding());
    AccessCycle(cfg, sys1.ex, x, m);
    assert End(cfg, fr.pc, [m]) == Next(cfg, m) && fr.signals + [] == fr.signals;
    hide Leads, Evaluate, Legal, Delivers, Idle, AtUnitEnd;
    LeadsOn(cfg, sys, evs, sys1, DeliveryOf(m));
    sys2 := Apply(cfg, sys1, DeliveryOf(m));
  }

  lemma HandOver(cfg: Config, sys: System, evs: seq<Event>, sys1: System, fl: seq<Inst>, m: Inst, bar: Barriers)
    returns (all: seq<Event>)
    requires ValidConfig(cfg) && Leads(cfg, sys, evs, sys1) && AtUnitEnd(sys1.ex, fl, m, bar) && Access(m)
    requires sys1.ex.th.branch == BUBBLE && m.stream == fl[0].stream == sys1.ex.th.stream
    requires (fl[0] != m ==> fl[0].id != m.id) && !(0 < bar.last < m.id)
    ensures LegalRun(cfg, sys, all)
    ensures var s := Run(cfg, sys, all).ex; s.q.sent == [m] && s.q.inFlight == fl && s.bar == bar
  {
    var e := Executes(0);
    CycleIsLegal(cfg, sys1, [], Once(e));
    GoesEarly(cfg, sys1.ex, fl, m, bar);
    hide Evaluate, Legal, AtUnitEnd;
    LeadsOn(cfg, sys, evs, sys1, ExecutionOf(e));
    all := evs + [ExecutionOf(e)];
  }

  /** From every fresh system with a first unit of depth two: a legal run in which
      m is handed to the LSQ while the older i is still in flight. */
  lemma EarlyAccess(cfg: Config, sys: System, i: Inst, m: Inst) returns (evs: seq<Event>)
    requires Initial(sys) && ValidConfig(cfg) && cfg.allowEarlyMemIssue && ShortUnit(sys.ex.u.fus)
    requires Simple(i) && !i.barrier && Access(m) && i.id < m.id && i.stream == m.stream == 1
    requires i.pc == sys.ex.th.pc && m.pc == Next(cfg, i)
    ensures LegalRun(cfg, sys, evs)
    ensures var s := Run(cfg, sys, evs).ex; s.q.sent == [m] && s.q.inFlight == [i, m]
  {
    var th, fr, x := FreshThread(i.pc), Front(1, i.pc, Running, []), FreshScene(sys);
    FreshStands(cfg, sys);
    NewerThanOne(i, m);
    hide Legal, Apply, Leads, Stands, Initial, Increasing, AtUnitEnd;
    StepDelivery(cfg, sys, x, th, fr, i);
    LeadsOn(cfg, sys, [], sys, DeliveryOf(i));
    var sys1, x1 := Apply(cfg, sys, DeliveryOf(i)), x.(issued := [i], q := [i]);
    assert Entered(x, i) == x1;
    var sys2 := AccessRun(cfg, sys, [] + [DeliveryOf(i)], sys1, x1, th, fr.(pc := m.pc), m);
    evs := HandOver(cfg, sys, [] + [DeliveryOf(i)] + [DeliveryOf(m)], sys2, [i, m], m, x.bar);
  }

  // ---------- Overtaking a barrier that waits in the store buffer ----------

  /** b, a barrier, has committed; it waits and is the one remembered. */
  lemma BarrierWaits(cfg: Config, sys: System, b: Inst) returns (sys': System, x: Scene, th: Thread)
    requires Initial(sys) && ValidConfig(cfg) && Simple(b) && b.barrier && !b.predictedTaken
    requires b.stream == 1 && b.pc == sys.ex.th.pc
    ensures x == Scene([b], [], [b], Barriers(b.id, {b.id}), sys.ex.u.fus, true)
    ensures th == Stepped(FreshThread(b.pc), b, Next(cfg, b))
    ensures Leads(cfg, sys, AloneEvents(b), sys')
    ensures Empty(sys', x, th, Front(1, Next(cfg, b), Running, []), Next(cfg, b))
  {
    FreshEmpty(cfg, sys);
    assert Increasing([] + [b]) by { assert [] + [b] == [b]; }
    hide Initial, Leads, Empty, Increasing, AloneEvents;
    var x0 := FreshScene(sys);
    sys', th := RunsAlone(cfg, sys, [], sys, x0, FreshThread(b.pc), Front(1, b.pc, Running, []), b);
    x := Left(Entered(x0, b), true);
    assert {} + {b.id} == {b.id} && [] + [b] == [b] && [b][1..] == [];
    assert [] + AloneEvents(b) == AloneEvents(b);
  }

  /** A barrier c issued behind the reference m: the older barrier b is no longer
      the one remembered, and m overtakes it. */
  lemma OvertakenBetween(cfg: Config, sys: System, b: Inst, m: Inst, c: Inst) returns (evs: seq<Event>)
    requires Initial(sys) && ValidConfig(cfg) && cfg.allowEarlyMemIssue && ShortUnit(sys.ex.u.fus)
    requires Simple(b) && b.barrier && !b.predictedTaken && Access(m) && Simple(c) && c.barrier && b.id < m.id < c.id
    requires b.stream == m.stream == c.stream == 1 && b.pc == sys.ex.th.pc && m.pc == Next(cfg, b)
    requires c.pc == Next(cfg, m)
    ensures LegalRun(cfg, sys, evs)
    ensures var s := Run(cfg, sys, evs).ex; s.q.sent == [m] && b.id in s.bar.waiting && b.id < m.id
  {
    var sys1, x, th := BarrierWaits(cfg, sys, b);
    var fr := Front(1, m.pc, Running, []);
    NewerThanOne(b, m);
    NewerThanTwo(b, m, c);
    assert [] + [m] == [m] && [m] + [c] == [m, c];
    hide Initial, Leads, Stands, Increasing, AloneEvents, AtUnitEnd, Legal;
    var sys2 := AccessRun(cfg, sys, AloneEvents(b), sys1, x, th, fr, m);
    evs := AloneEvents(b) + [DeliveryOf(m)];
    var sys3 := BehindRun(cfg, sys, evs, sys2, [m], m, x.bar, c);
    evs := HandOver(cfg, sys, evs + [DeliveryOf(c)], sys3, [m, c], m, x.bar.(last := c.id));
  }

  /** c is delivered behind m. */
  lemma BehindRun(cfg: Config, sys: System, evs: seq<Event>, sys1: System, fl: seq<Inst>, m: Inst, bar: Barriers,
                  c: Inst)
    returns (sys': System)
    requires Leads(cfg, sys, evs, sys1) && AtUnitEnd(sys1.ex, fl, m, bar) && Access(m) && Simple(c) && c.barrier
    requires m.stream == c.stream == sys1.ex.th.stream == sys1.fr.stream && c.id != m.id
    requires sys1.fr.state == Running && c.pc == sys1.fr.pc && Increasing(sys1.ex.q.issued + [c])
    ensures Leads(cfg, sys, evs + [DeliveryOf(c)], sys') && AtUnitEnd(sys'.ex, fl + [c], m, bar.(last := c.id))
    ensures sys'.ex.th == sys1.ex.th.(branch := BUBBLE)
  {
    DeliversOne(cfg, sys1, c);
    CycleIsLegal(cfg, sys1, [Some(c)], Holding());
    DeliveryBehind(cfg, sys1.ex, fl, m, bar, c);
    hide Evaluate, Legal, AtUnitEnd, Leads, Delivers;
    LeadsOn(cfg, sys, evs, sys1, DeliveryOf(c));
    sys' := Apply(cfg, sys1, DeliveryOf(c));
  }

  /** Events up to the point where b is forgotten. */
  function ForgetEvents(b: Inst, i: Inst, c: Inst, pc: PC): seq<Event> {
    AloneEvents(b) + [DeliveryOf(i)] + [DeliveryOf(c)] + BranchEvents(pc)
  }

  lemma Forgotten(cfg: Config, sys: System, b: Inst, i: Inst, c: Inst, pc: PC)
    returns (sys': System, x: Scene, th: Thread)
    requires Initial(sys) && ValidConfig(cfg)
    requires Simple(b) && b.barrier && !b.predictedTaken && b.stream == 1 && b.pc == sys.ex.th.pc
    requires Follow(cfg, i, c) && i.stream == 1 && i.pc == Next(cfg, b) && !i.barrier && !i.predictedTaken && c.barrier
    requires pc != i.pc && b.id < i.id
    ensures x == Scene([b, i, c], [], [b, i, c], Barriers(0, {b.id}), sys.ex.u.fus, true) && th.stream == 2
    ensures Leads(cfg, sys, ForgetEvents(b, i, c, pc), sys')
    ensures Empty(sys', x, th, Front(2, cfg.advance(i, pc), Running, []), cfg.advance(i, pc))
  {
    var sys1, x1, th1 := BarrierWaits(cfg, sys, b);
    var fr := Front(1, i.pc, Running, []);
    NewerThanOne(b, i);
    NewerThanTwo(b, i, c);
    hide Initial, Leads, Stands, Empty, Increasing, AloneEvents, BranchEvents;
    var sys2 := IssueTwo(cfg, sys, AloneEvents(b), sys1, x1, th1, fr, i, c);
    var evs := AloneEvents(b) + [DeliveryOf(i)] + [DeliveryOf(c)];
    var x2 := Entered(Entered(x1, i), c);
    assert x2 == Scene([b, i, c], [i, c], [b], Barriers(c.id, {b.id}), sys.ex.u.fus, true);
    sys', th := BranchAway(cfg, sys, evs, sys2, x2, th1, fr.(pc := Next(cfg, c)), i, c, pc);
    x := Left(Left(x2, true), false);
  }

  /** A younger barrier c is issued behind a mispredicted branch i and dropped:
      the LSQ then remembers none, and m, where i branches to, overtakes b. */
  lemma OvertakenForgotten(cfg: Config, sys: System, b: Inst, i: Inst, c: Inst, m: Inst,
                           pc: PC) returns (evs: seq<Event>)
    requires Initial(sys) && ValidConfig(cfg) && cfg.allowEarlyMemIssue && ShortUnit(sys.ex.u.fus)
    requires Simple(b) && b.barrier && !b.predictedTaken && b.stream == 1 && b.pc == sys.ex.th.pc
    requires Follow(cfg, i, c) && i.stream == 1 && i.pc == Next(cfg, b) && !i.barrier && !i.predictedTaken && c.barrier
    requires pc != i.pc && Access(m) && m.stream == 2 && m.pc == cfg.advance(i, pc) && b.id < i.id && c.id < m.id
    ensures LegalRun(cfg, sys, evs)
    ensures var s := Run(cfg, sys, evs).ex; s.q.sent == [m] && s.bar == Barriers(0, {b.id}) && b.id < m.id
  {
    var sys1, x, th := Forgotten(cfg, sys, b, i, c, pc);
    NewerThanThree(b, i, c, m);
    hide Initial, Leads, Empty, Increasing, ForgetEvents, Run, LegalRun, PossibleRun, LegalFrom;
    evs := HandedOverIn(cfg, sys, ForgetEvents(b, i, c, pc), sys1, x, th, Front(2, m.pc, Running, []), m);
  }

  /** m is delivered to an empty stage whose LSQ remembers no barrier. */
  lemma HandedOverIn(cfg: Config, sys: System, evs: seq<Event>, sys1: System, x: Scene, th: Thread, fr: Front, m: Inst)
    returns (all: seq<Event>)
    requires ValidConfig(cfg) && cfg.allowEarlyMemIssue && Leads(cfg, sys, evs, sys1) && Empty(sys1, x, th, fr, m.pc)
    requires ShortUnit(x.fus) && Access(m) && m.stream == th.stream && Increasing(x.issued + [m]) && x.bar.last == 0
    ensures LegalRun(cfg, sys, all)
    ensures var s := Run(cfg, sys, all).ex; s.q.sent == [m] && s.bar == x.bar
  {
    assert [] + [m] == [m];
    hide Leads, Stands, Increasing, AtUnitEnd, Legal;
    var sys2 := AccessRun(cfg, sys, evs, sys1, x, th, fr, m);
    all := HandOver(cfg, sys, evs + [DeliveryOf(m)], sys2, [m], m, x.bar);
  }
}
