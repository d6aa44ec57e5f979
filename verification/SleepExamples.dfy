/**
  Threads of a fresh system that fall asleep without a change of stream: behind
  a system call that was predicted to the right target, or one that commits
  behind a correctly predicted branch of the same cycle.
 */
module SleepExamples {
  import opened Options
  import opened MinorTypes
  import opened CommitSpec
  import opened CommitTheorems
  import opened IssueSpec
  import opened IssueTheorems
  import opened CycleSpec
  import opened QueueLemmas
  import opened Pipeline
  import opened StageRuns
  import opened SequentialTheorems
  import opened Witness
  import opened ExampleRuns
  import opened MemoryRuns
  import opened SleepRuns

  /** A run to a state in which the sleeper is next, and on from there. */
  lemma RunThenSleep(cfg: Config, sys: System, evs: seq<Event>, sys1: System, e: CycleEnv, n: nat)
    returns (all: seq<Event>)
    requires Initial(sys) && ValidConfig(cfg) && Leads(cfg, sys, evs, sys1) && BubbleLine(e.line)
    requires sys1.ex.drain == NotDraining && !e.interrupted
    requires var (s, c) := CommitUpTo(cfg, Begin(sys1.ex, e), false, false, e.commit, n);
      CommitGuard(cfg, s, c) && Sleeps(cfg, s, c, false, e.commit(n)) && !s.th.panicked && Answered(cfg, s)
    ensures PossibleRun(cfg, sys, all) && Run(cfg, sys, all).ex.th.panicked
  {
    InitialStage(sys);
    RunStage(cfg, sys, evs);
    hide Initial, StageInv, CommitUpTo, CommitGuard, Sleeps, Begin, Answered;
    var more := SleeperPanics(cfg, sys1, e, n);
    all := evs + ([Cycle(StoppedAfter(e, n))] + more);
    RunOn(cfg, sys, evs, [Cycle(StoppedAfter(e, n))] + more);
  }

  // ---------- The first instruction ----------

  /** i takes effect and puts its thread to sleep, with j behind it. */
  lemma FirstSleeps(cfg: Config, s: State, x: Scene, i: Inst, j: Inst, e: IterEnv)
    requires ValidConfig(cfg) && Idle(s, x) && x.q == [i, j] && s.th.branch == BUBBLE && !s.th.suspended
    requires i.stream == j.stream == s.th.stream && e.storeBufferRoom
    requires e.suspends && !e.delayed && e.pcEvent.None? && !Resteers(cfg, s.th, i, false, e)
    ensures CommitGuard(cfg, s, CTL0) && Sleeps(cfg, s, CTL0, false, e) && Answered(cfg, s)
  {
    assert i in x.q && j in x.q;
    FreeHead(cfg, s, x, CTL0, e);
    var (th, o) := TryInst(cfg, s.th, x.bar.last, Free(i), false, e);
    assert |th.log| == |s.th.log| + 1;
    assert s.q.inFlight[1..] == [j];
  }

  /** From every fresh system at i's PC: whatever flags the light instruction i has,
      whether it faults or not, if it puts its thread to sleep without a change of
      stream while j is in flight behind it, the panic can be reached. */
  lemma FreshSleeperPanics(cfg: Config, sys: System, i: Inst, j: Inst, e: IterEnv) returns (evs: seq<Event>)
    requires Initial(sys) && ValidConfig(cfg) && Pair(cfg, i, j) && i.stream == 1 && i.pc == sys.ex.th.pc
    requires e.suspends && !e.delayed && e.pcEvent.None? && e.storeBufferRoom
    requires !Resteers(cfg, FreshThread(i.pc), i, false, e)
    ensures PossibleRun(cfg, sys, evs) && Run(cfg, sys, evs).ex.th.panicked
  {
    var sys1 := TwoInFlight(cfg, sys, i, j);
    var x1 := TwoScene(sys, i, j);
    var c := Clock([], _ => e);
    BeginWith(sys1.ex, i, c.commit);
    assert DropBranch(sys1.ex) == sys1.ex;
    FirstSleeps(cfg, sys1.ex, x1, i, j, e);
    assert CommitUpTo(cfg, sys1.ex, false, false, c.commit, 0) == (sys1.ex, CTL0);
    hide CommitUpTo, Sleeps, Initial, Leads, Begin, CommitGuard, TwoEvents;
    evs := RunThenSleep(cfg, sys, TwoEvents(i, j), sys1, c, 0);
  }

  /** In particular a system call that faults, predicted taken to the very PC its
      fault leads to. */
  lemma PredictedCallPanics(cfg: Config, sys: System, i: Inst, j: Inst) returns (evs: seq<Event>)
    requires Initial(sys) && ValidConfig(cfg) && Pair(cfg, i, j) && i.stream == 1 && i.pc == sys.ex.th.pc
    requires i.serializing && i.lastOp && i.predictedTaken
    ensures PossibleRun(cfg, sys, evs) && Run(cfg, sys, evs).ex.th.panicked
  {
    var e := Executes(i.predictedTarget).(suspends := true, fault := true);
    evs := FreshSleeperPanics(cfg, sys, i, j, e);
  }

  // ---------- Behind a correctly predicted branch ----------

  /** An instruction for a unit that is no memory reference. */
  ghost predicate UnitBound(x: Inst) { WellFormed(x) && !x.noCost && !x.memRef && !x.fault }

  /** The first two units are of depth two. */
  ghost predicate ShortUnits(fus: seq<FU>) { |fus| >= 2 && |fus[0].pipe| == 2 && |fus[1].pipe| == 2 }

  /** x, if any, is all that is in unit k, and at its end. */
  ghost predicate Fills(u: Units, k: nat, x: Option<Inst>)
    requires k < |u.fus|
  {
    if x.Some? then u.fus[k] == FU([x, None], true) && FUOf(u, x.value) == k else u.fus[k] == FU([None, None], false)
  }

  /** Instructions in flight, of which a and b are at the ends of the first two
      units. */
  ghost predicate InUnits(s: State, fl: seq<Inst>, a: Option<Inst>, b: Option<Inst>) {
    && s.inp == Input([], 0) && s.q.inFlight == fl && s.q.inFUMem == [] && s.q.inLSQ == {}
    && |s.u.fus| >= 2 && Fills(s.u, 0, a) && Fills(s.u, 1, b)
    && s.drain == NotDraining && !s.th.suspended && !s.th.panicked
    && (fl != [] ==> fl[0].stream == s.th.stream)
  }

  lemma HeldHere(cfg: Config, s: State, c: Ctl)
    requires s.q.inFlight != [] && s.q.inFUMem == [] && s.q.inFlight[0].stream == s.th.stream
    ensures var (s', c') := CommitIter(cfg, s, c, false, false, HoldsBack()); s' == s && !c'.completed
  {
    var p := PickInst(cfg, s, c, false, HoldsBack());
    if !p.NoPick? { assert TryInst(cfg, s.th, s.bar.last, p, false, HoldsBack()) == (s.th, Hold); }
    hide PickInst, TryInst;
  }

  /** Unit k takes x and the clock moves it to the end. */
  lemma UnitFilled(cfg: Config, u: Units, x: Inst, k: nat, w: SeqNum)
    requires !x.memRef && k < |u.fus| && Fills(u, k, None)
    ensures var u' := AdvanceUnits(IssueU(cfg, u, x, k, w)); |u'.fus| == |u.fus| && Fills(u', k, Some(x))
  {
    var fu := Push(u.fus[k], x);
    assert fu.pipe == [None, Some(x)];
    assert AdvanceFU(fu) == FU([Some(x), None], true);
  }

  /** Another unit stays as it is. */
  lemma UnitKept(cfg: Config, u: Units, x: Inst, k: nat, w: SeqNum, j: nat, y: Option<Inst>)
    requires !x.memRef && k < |u.fus| && j < |u.fus| && j != k && u.fus[k].pipe != [] && Fills(u, j, y)
    requires y.Some? ==> y.value.id != x.id
    ensures var u' := AdvanceUnits(IssueU(cfg, u, x, k, w)); |u'.fus| == |u.fus| && Fills(u', j, y)
  {
    assert y.None? ==> AdvanceFU(u.fus[j]) == u.fus[j];
  }

  /** Which unit the next instruction goes to. */
  lemma FirstFree(u: Units, a: Option<Inst>, k: nat)
    requires |u.fus| >= 2 && Fills(u, 0, a) && Fills(u, 1, None) && k == (if a.None? then 0 else 1)
    ensures FindFU(u, IssueEnv(_ => true), 0) == Some(k)
  {
    assert FindFU(u, IssueEnv(_ => true), 1) == Some(1);
  }

  /** x is delivered: to the first unit if that is free, else to the second. */
  lemma UnitDelivery(cfg: Config, s: State, fl: seq<Inst>, a: Option<Inst>, x: Inst)
    requires ValidConfig(cfg) && InUnits(s, fl, a, None) && UnitBound(x) && x.stream == s.th.stream
    requires a.Some? ==> a.value.id != x.id
    ensures var s' := Evaluate(cfg, s, Clock([Some(x)], Holding()));
      && (if a.None? then InUnits(s', fl + [x], Some(x), None) else InUnits(s', fl + [x], a, Some(x)))
      && s'.th == s.th.(branch := BUBBLE) && s'.q.issued == s.q.issued + [x]
  {
    var k := if a.None? then 0 else 1;
    if fl != [] { HeldHere(cfg, WithLine(DropBranch(s), x), CTL0); }
    FirstFree(s.u, a, k);
    hide Evaluate, CommitIter, FindFU;
    HeldDelivery(cfg, s, x, k);
    var w := InstToWaitFor(s.sb, s.bar, x);
    hide AdvanceUnits, IssueU, InstToWaitFor, MarkupDests;
    UnitFilled(cfg, s.u, x, k, w);
    UnitKept(cfg, s.u, x, k, w, 1 - k, if k == 0 then None else a);
    hide Fills;
  }

  /** j, light, is delivered. */
  lemma LightDelivery(cfg: Config, s: State, fl: seq<Inst>, a: Inst, b: Inst, j: Inst)
    requires InUnits(s, fl, Some(a), Some(b)) && fl != [] && Light(j) && j.stream == s.th.stream
    requires j.id != a.id && j.id != b.id
    ensures var s' := Evaluate(cfg, s, Clock([Some(j)], Holding()));
      InUnits(s', fl + [j], Some(a), Some(b)) && s'.th == s.th.(branch := BUBBLE)
  {
    var e := Clock([Some(j)], Holding());
    var s1 := DropBranch(s);
    BeginWith(s, j, Holding());
    HeldHere(cfg, WithLine(s1, j), CTL0);
    Stalls(cfg, WithLine(s1, j), e.commit);
    AfterCommit(cfg, s, e, WithLine(s1, j));
    IssuesOne(cfg, s1, j, e.issue);
    var u := AdvanceUnits(s1.u.(fuIndex := s1.u.fuIndex[j.id := NoCostFU(s1.u)]));
    assert u.fus[0] == s.u.fus[0] && u.fus[1] == s.u.fus[1];
    hide Commit, Issue, Evaluate, Begin, CommitIter, MarkupDests;
  }

  /** First the branch, then the sleeper. */
  function BranchThen(pc: PC, e: IterEnv): nat -> IterEnv { k => if k == 0 then Executes(pc) else e }

  /** The branch i takes effect as predicted. */
  function Predicted(th: Thread, i: Inst, target: PC): Thread {
    th.(pc := target, log := th.log + [Took(i, target)],
        branch := BranchData(CorrectlyPredictedBranch, th.stream, target))
  }

  /** A branch for a unit, predicted taken to where it goes. */
  ghost predicate RightBranch(cfg: Config, i: Inst, pc: PC) {
    && UnitBound(i) && !i.quiesce && !i.serializing
    && i.predictedTaken && pc != i.pc && i.predictedTarget == cfg.advance(i, pc)
  }

  /** The state after the branch. */
  function AfterBranch(s: State, i: Inst): State
    requires s.q.inFlight != []
  {
    Finish(s, FromFU(i), Predicted(s.th, i, i.predictedTarget), Done(true, false))
  }

  const ONE_DONE := Ctl(true, false, 1, 0)

  lemma BranchCommits(cfg: Config, s: State, i: Inst, x: Inst, j: Inst, pc: PC, e: IterEnv)
    requires ValidConfig(cfg) && InUnits(s, [i, x, j], Some(i), Some(x)) && s.th.branch == BUBBLE
    requires RightBranch(cfg, i, pc)
    ensures CommitUpTo(cfg, s, false, false, BranchThen(pc, e), 1) == (AfterBranch(s, i), ONE_DONE)
  {
    var env := BranchThen(pc, e);
    assert CommitUpTo(cfg, s, false, false, env, 0) == (s, CTL0) && CommitGuard(cfg, s, CTL0);
    assert PickInst(cfg, s, CTL0, false, env(0)) == FromFU(i);
    assert TryInst(cfg, s.th, s.bar.last, FromFU(i), false, env(0)) ==
      (Predicted(s.th, i, i.predictedTarget), Done(true, false));
    hide PickInst, TryInst;
  }

  /** x puts its thread to sleep: not predicted, without a branch, the wire taken. */
  lemma SecondSleeps(cfg: Config, s: State, i: Inst, x: Inst, j: Inst, e: IterEnv)
    requires 2 <= cfg.commitLimit && InUnits(s, [i, x, j], Some(i), Some(x)) && i.id != x.id
    requires UnitBound(i) && UnitBound(x) && !x.quiesce && !x.predictedTaken
    requires x.stream == j.stream == s.th.stream
    requires e.suspends && !e.delayed && !e.fault && e.pcAfter == x.pc && e.pcEvent.None? && e.storeBufferRoom
    ensures var s1 := AfterBranch(s, i);
      && CommitGuard(cfg, s1, ONE_DONE) && Sleeps(cfg, s1, ONE_DONE, false, e)
      && !s1.th.panicked && Answered(cfg, s1)
  {
    var th, s1, c := Predicted(s.th, i, i.predictedTarget), AfterBranch(s, i), ONE_DONE;
    assert s1.q.inFlight == [x, j] && s1.th == th && s1.q.inLSQ == {} && s1.q.inFUMem == [];
    assert s1.u.fus[1] == s.u.fus[1] && AtEndOfUnit(s1.u, x);
    assert PickInst(cfg, s1, c, false, e) == FromFU(x);
    var (th', o) := TryInst(cfg, th, s1.bar.last, FromFU(x), false, e);
    assert |th'.log| == |th.log| + 1;
    assert s1.q.inFlight[1..] == [j];
    hide PickInst, TryInst, FinishU, LeaveQ, ClearDests;
  }

  /** From every fresh system with two units of depth two: a correctly predicted branch
      i of the one, then, in the same cycle, x of the other, serializing or not, which
      puts its thread to sleep; the wire is taken, so nothing signals it. */
  lemma BehindBranchPanics(cfg: Config, sys: System, i: Inst, x: Inst, j: Inst, pc: PC) returns (evs: seq<Event>)
    requires Initial(sys) && ValidConfig(cfg) && 2 <= cfg.commitLimit && ShortUnits(sys.ex.u.fus)
    requires RightBranch(cfg, i, pc) && UnitBound(x) && !x.quiesce && !x.predictedTaken && Light(j)
    requires i.id < x.id < j.id && i.stream == x.stream == j.stream == 1
    requires i.pc == sys.ex.th.pc && x.pc == Next(cfg, i) && j.pc == Next(cfg, x)
    ensures PossibleRun(cfg, sys, evs) && Run(cfg, sys, evs).ex.th.panicked
  {
    var sys1 := ThreeInFlight(cfg, sys, i, x, j);
    var e := Executes(x.pc).(suspends := true);
    var c := Clock([], BranchThen(pc, e));
    BeginWith(sys1.ex, i, c.commit);
    assert DropBranch(sys1.ex) == sys1.ex;
    BranchCommits(cfg, sys1.ex, i, x, j, pc, e);
    SecondSleeps(cfg, sys1.ex, i, x, j, e);
    assert c.commit(1) == e;
    hide CommitUpTo, Sleeps, Initial, Leads, Begin, CommitGuard, AfterBranch, Answered, Fills;
    evs := RunThenSleep(cfg, sys, ThreeEvents(i, x, j), sys1, c, 1);
  }

  function ThreeEvents(i: Inst, x: Inst, j: Inst): seq<Event> {
    [] + [DeliveryOf(i)] + [DeliveryOf(x)] + [DeliveryOf(j)]
  }

  /** x is delivered and goes to a unit. */
  lemma UnitRun(cfg: Config, sys: System, evs: seq<Event>, sys1: System, fl: seq<Inst>, a: Option<Inst>, x: Inst)
    returns (sys2: System)
    requires ValidConfig(cfg) && Leads(cfg, sys, evs, sys1) && InUnits(sys1.ex, fl, a, None) && UnitBound(x)
    requires x.stream == sys1.ex.th.stream == sys1.fr.stream && x.pc == sys1.fr.pc && sys1.fr.state == Running
    requires Increasing(sys1.ex.q.issued + [x]) && (a.Some? ==> a.value.id != x.id)
    ensures Leads(cfg, sys, evs + [DeliveryOf(x)], sys2)
    ensures if a.None? then InUnits(sys2.ex, fl + [x], Some(x), None) else InUnits(sys2.ex, fl + [x], a, Some(x))
    ensures sys2.ex.th == sys1.ex.th.(branch := BUBBLE) && sys2.fr == sys1.fr.(pc := Next(cfg, x))
    ensures sys2.ex.q.issued == sys1.ex.q.issued + [x]
  {
    DeliversOne(cfg, sys1, x);
    CycleIsLegal(cfg, sys1, [Some(x)], Holding());
    UnitDelivery(cfg, sys1.ex, fl, a, x);
    assert End(cfg, sys1.fr.pc, [x]) == Next(cfg, x) && sys1.fr.signals + [] == sys1.fr.signals;
    hide Evaluate, Legal, Leads, Delivers, Increasing, Fills;
    LeadsOn(cfg, sys, evs, sys1, DeliveryOf(x));
    sys2 := Apply(cfg, sys1, DeliveryOf(x));
  }

  /** j is delivered behind them. */
  lemma LightRun(cfg: Config, sys: System, evs: seq<Event>, sys1: System, fl: seq<Inst>, a: Inst, b: Inst, j: Inst)
    returns (sys2: System)
    requires Leads(cfg, sys, evs, sys1) && InUnits(sys1.ex, fl, Some(a), Some(b)) && fl != [] && Light(j)
    requires j.stream == sys1.ex.th.stream == sys1.fr.stream && j.id != a.id && j.id != b.id
    requires sys1.fr.state == Running && j.pc == sys1.fr.pc && Increasing(sys1.ex.q.issued + [j])
    ensures Leads(cfg, sys, evs + [DeliveryOf(j)], sys2) && InUnits(sys2.ex, fl + [j], Some(a), Some(b))
    ensures sys2.ex.th == sys1.ex.th.(branch := BUBBLE)
  {
    DeliversOne(cfg, sys1, j);
    CycleIsLegal(cfg, sys1, [Some(j)], Holding());
    LightDelivery(cfg, sys1.ex, fl, a, b, j);
    hide Evaluate, Legal, Leads, Delivers, Fills;
    LeadsOn(cfg, sys, evs, sys1, DeliveryOf(j));
    sys2 := Apply(cfg, sys1, DeliveryOf(j));
  }

  lemma FreshUnits(cfg: Config, sys: System)
    requires Initial(sys) && ShortUnits(sys.ex.u.fus)
    ensures InUnits(sys.ex, [], None, None) && Leads(cfg, sys, [], sys)
  {
    var fus := sys.ex.u.fus;
    assert fus[0] in fus && fus[1] in fus;
    assert fus[0].pipe == [None, None] && fus[1].pipe == [None, None];
  }

  lemma ThreeInFlight(cfg: Config, sys: System, i: Inst, x: Inst, j: Inst) returns (sys': System)
    requires Initial(sys) && ValidConfig(cfg) && ShortUnits(sys.ex.u.fus)
    requires UnitBound(i) && UnitBound(x) && Light(j) && i.id < x.id < j.id && i.stream == x.stream == j.stream == 1
    requires i.pc == sys.ex.th.pc && x.pc == Next(cfg, i) && j.pc == Next(cfg, x)
    ensures Leads(cfg, sys, ThreeEvents(i, x, j), sys') && InUnits(sys'.ex, [i, x, j], Some(i), Some(x))
    ensures sys'.ex.th == FreshThread(i.pc)
  {
    FreshUnits(cfg, sys);
    NewerThanOne(i, x);
    NewerThanTwo(i, x, j);
    hide Leads, InUnits, Increasing;
    var sys1 := UnitRun(cfg, sys, [], sys, [], None, i);
    var sys2 := UnitRun(cfg, sys, [] + [DeliveryOf(i)], sys1, [i], Some(i), x);
    sys' := LightRun(cfg, sys, [] + [DeliveryOf(i)] + [DeliveryOf(x)], sys2, [i, x], i, x, j);
  }

  // ---------- Dozing ----------

  /** The thread goes to sleep though an interrupt is pending. */
  function DozesOff(pc: PC): IterEnv { Executes(pc).(suspends := true, interrupted := true) }

  function Dozing(th: Thread, i: Inst, target: PC): Thread { Stepped(th, i, target).(suspended := true) }

  /** i puts its thread to sleep, an interrupt pending, with j behind it. */
  lemma DozeCycle(cfg: Config, sys: System, x: Scene, th: Thread, fr: Front, i: Inst, j: Inst)
    requires ValidConfig(cfg) && Stands(sys, x, th, fr) && x.q == [i, j] && th.branch == BUBBLE
    requires i.stream == j.stream == th.stream && !i.predictedTaken
    ensures Legal(cfg, sys, false, ExecutionOf(DozesOff(i.pc)))
    ensures var sys' := Apply(cfg, sys, ExecutionOf(DozesOff(i.pc)));
      && Idle(sys'.ex, Left(x, true)) && sys'.ex.th == Dozing(th, i, Next(cfg, i)) && sys'.ex.inp == Input([], 0)
      && sys'.fr == fr
  {
    var e := DozesOff(i.pc);
    assert i in x.q && th.(branch := BUBBLE) == th;
    var th1 := Dozing(th, i, Next(cfg, i));
    assert TryInst(cfg, th, x.bar.last, Free(i), false, e) == (th1, Done(true, false));
    Execution(cfg, sys.ex, x, e, th1, Done(true, false));
    assert fr.signals + Wire(BUBBLE) == fr.signals;
    CycleIsLegal(cfg, sys, [], Once(e));
    hide Evaluate, Idle, TryInst, Legal;
  }

  /** The interrupt is taken. */
  function Interrupting(handler: PC): Event {
    Cycle(CycleEnv([], [], true, Some(handler), false, false, _ => HoldsWith(true), _ => IssueEnv(_ => true)))
  }

  lemma InterruptCycle(cfg: Config, sys: System, x: Scene, handler: PC)
    requires Idle(sys.ex, x) && sys.ex.inp == Input([], 0) && x.end
    ensures Legal(cfg, sys, true, Interrupting(handler))
    ensures Apply(cfg, sys, Interrupting(handler)).ex.th == TakeInterrupt(sys.ex.th.(branch := BUBBLE), handler)
  {
    hide CommitUpTo, AdvanceUnits;
  }

  /** From every fresh system: a legal run in which i puts its thread to sleep with an
      interrupt pending, j is in flight behind it, and the interrupt is taken. */
  lemma DozeAndInterrupt(cfg: Config, sys: System, i: Inst, j: Inst, handler: PC) returns (evs: seq<Event>)
    requires Initial(sys) && ValidConfig(cfg) && Pair(cfg, i, j) && i.stream == 1 && i.pc == sys.ex.th.pc
    requires i.lastOp && !i.predictedTaken
    ensures LegalRun(cfg, sys, evs)
    ensures var th := Run(cfg, sys, evs).ex.th;
      th.log == [Took(i, j.pc), Redirect(j.pc, handler)] && th.pc == handler && th.stream == 2 && th.suspended
  {
    hide Legal, Apply, Initial, TwoEvents, Idle, Run, PossibleRun, LegalFrom, TakeInterrupt, Dozing;
    var sys1 := TwoInFlight(cfg, sys, i, j);
    var x, th := TwoScene(sys, i, j), FreshThread(i.pc);
    DozeCycle(cfg, sys1, x, th, Front(1, Next(cfg, j), Running, []), i, j);
    var e1, e2 := ExecutionOf(DozesOff(i.pc)), Interrupting(handler);
    var sys2 := Apply(cfg, sys1, e1);
    InterruptCycle(cfg, sys2, Left(x, true), handler);
    Interrupted(i, j.pc, handler);
    LegalTwo(cfg, sys1, e1, e2);
    LegalOn(cfg, sys, false, TwoEvents(i, j), [e1, e2]);
    RunOn(cfg, sys, TwoEvents(i, j), [e1, e2]);
    evs := TwoEvents(i, j) + [e1, e2];
  }

  lemma Interrupted(i: Inst, next: PC, handler: PC)
    ensures var th1 := Dozing(FreshThread(i.pc), i, next);
      && DozesOn(false, FreshThread(i.pc), th1)
      && var th2 := TakeInterrupt(th1.(branch := BUBBLE), handler);
         && th2.log == [Took(i, next), Redirect(next, handler)]
         && th2.pc == handler && th2.stream == 2 && th2.suspended
  {
  }

  lemma LegalTwo(cfg: Config, sys: System, e1: Event, e2: Event)
    requires Legal(cfg, sys, false, e1) && e2.Cycle?
    requires var sys' := Apply(cfg, sys, e1);
      Legal(cfg, sys', true, e2) && DozesOn(false, sys.ex.th, sys'.ex.th)
    ensures LegalFrom(cfg, sys, false, [e1, e2]) && Run(cfg, sys, [e1, e2]) == Apply(cfg, Apply(cfg, sys, e1), e2)
  {
    LegalOne(cfg, Apply(cfg, sys, e1), true, e2);
    assert [e1, e2][1..] == [e2];
    hide Apply, Delivers, Quiet;
  }

  // ---------- Woken while it dozes ----------

  function WokenEvents(i: Inst): seq<Event> { [ExecutionOf(DozesOff(i.pc))] + ([Wake] + []) }

  /** The thread is woken while j is still in flight: fetch starts again at j. */
  lemma WokenWithNext(cfg: Config, sys: System, x: Scene, th: Thread, fr: Front, i: Inst, j: Inst)
    returns (sys': System)
    requires ValidConfig(cfg) && Stands(sys, x, th, fr) && x.q == [i, j] && th.branch == BUBBLE
    requires i.stream == j.stream == th.stream && !i.predictedTaken
    ensures PossibleRun(cfg, sys, WokenEvents(i)) && Run(cfg, sys, WokenEvents(i)) == sys'
    ensures Stands(sys', Left(x, true), Stepped(th, i, Next(cfg, i)), fr.(pc := Next(cfg, i), state := Running))
  {
    var e, th1 := DozesOff(i.pc), Dozing(th, i, Next(cfg, i));
    DozeCycle(cfg, sys, x, th, fr, i, j);
    hide Evaluate, Idle, TryInst;
    var sys1 := Apply(cfg, sys, ExecutionOf(e));
    sys' := Apply(cfg, sys1, Wake);
    assert Stepped(th, i, Next(cfg, i)) == th1.(suspended := false);
    IdleAwake(sys1.ex, Left(x, true));
    NoEvents(cfg, sys');
    hide Left, Apply;
    RunCons(cfg, sys1, Wake, []);
    RunCons(cfg, sys, ExecutionOf(e), [Wake] + []);
  }

  lemma IdleAwake(s: State, x: Scene)
    requires Idle(s, x)
    ensures Idle(s.(th := s.th.(suspended := false)), x)
  {
  }

  /** From every fresh system: a thread that is woken while it dozes executes j
      twice, so its history is not the program's. */
  lemma WokenTooEarly(cfg: Config, sys: System, i: Inst, j: Inst, k: Inst) returns (evs: seq<Event>)
    requires Initial(sys) && ValidConfig(cfg) && Pair(cfg, i, j) && i.stream == 1 && i.pc == sys.ex.th.pc
    requires !i.predictedTaken && Simple(j) && !j.predictedTaken && cfg.advance(j, j.pc) != j.pc
    requires Simple(k) && !k.predictedTaken && k.pc == j.pc && j.id < k.id && k.stream == 1
    ensures PossibleRun(cfg, sys, evs)
    ensures var th := Run(cfg, sys, evs).ex.th;
      && th.log == [Took(i, j.pc), Took(j, cfg.advance(j, j.pc)), Took(k, cfg.advance(k, k.pc))]
      && !th.panicked && !Sequential(i.pc, th.log, th.pc)
  {
    NewerThanTwo(i, j, k);
    hide Initial, Stands, WokenEvents, TwoEvents, Increasing, Sequential, Run, PossibleRun, Stepped;
    FirstStep(i.pc, i, j.pc);
    var sys2 := WokenFresh(cfg, sys, i, j);
    var x, th, fr := WokenScene(sys, i, j), Stepped(FreshThread(i.pc), i, j.pc), Front(1, j.pc, Running, []);
    var sys3, th3, more := TwiceOver(cfg, sys2, x, th, fr, j, k);
    evs := TwoEvents(i, j) + WokenEvents(i);
    RunOn(cfg, sys, evs, more);
    evs := evs + more;
    ThreeSteps(i.pc, i, j, k, j.pc, cfg.advance(j, j.pc), cfg.advance(k, k.pc));
    Backtracks(i.pc, i, j, k, j.pc, cfg.advance(j, j.pc), cfg.advance(k, k.pc));
  }

  function WokenScene(sys: System, i: Inst, j: Inst): Scene {
    Scene([i, j], [j], [i], CompleteBarrier(Entered(Entered(FreshScene(sys), i), j).bar, i, true),
          sys.ex.u.fus, i.lastOp)
  }

  lemma WokenFresh(cfg: Config, sys: System, i: Inst, j: Inst) returns (sys': System)
    requires Initial(sys) && ValidConfig(cfg) && Pair(cfg, i, j) && i.stream == 1 && i.pc == sys.ex.th.pc
    requires !i.predictedTaken
    ensures var evs := TwoEvents(i, j) + WokenEvents(i);
      PossibleRun(cfg, sys, evs) && Run(cfg, sys, evs) == sys'
    ensures Stands(sys', WokenScene(sys, i, j), Stepped(FreshThread(i.pc), i, j.pc), Front(1, j.pc, Running, []))
  {
    hide Initial, Stands, WokenEvents, TwoEvents, Run, LegalRun, PossibleRun, LegalFrom;
    var sys1 := TwoInFlight(cfg, sys, i, j);
    var x1 := TwoScene(sys, i, j);
    assert Left(x1, true) == WokenScene(sys, i, j);
    sys' := WokenWithNext(cfg, sys1, x1, FreshThread(i.pc), Front(1, Next(cfg, j), Running, []), i, j);
    RunOn(cfg, sys, TwoEvents(i, j), WokenEvents(i));
  }

  lemma FirstStep(pc: PC, i: Inst, a: PC)
    ensures var th := Stepped(FreshThread(pc), i, a); th.branch == BUBBLE && th.stream == 1
  {
  }

  lemma ThreeSteps(pc: PC, i: Inst, j: Inst, k: Inst, a: PC, b: PC, c: PC)
    ensures var th := Stepped(Stepped(Stepped(FreshThread(pc), i, a), j, b), k, c);
      th.log == [Took(i, a), Took(j, b), Took(k, c)] && th.pc == c && !th.panicked
  {
  }

  lemma Backtracks(pc0: PC, i: Inst, j: Inst, k: Inst, a: PC, b: PC, c: PC)
    requires k.pc != b
    ensures !Sequential(pc0, [Took(i, a), Took(j, b), Took(k, c)], c)
  {
    var log := [Took(i, a), Took(j, b), Took(k, c)];
    assert log[..2] == [Took(i, a), Took(j, b)];
  }

  /** j, still in flight, takes effect, and so does k, fetched from the same PC. */
  lemma TwiceOver(cfg: Config, sys: System, x: Scene, th: Thread, fr: Front, j: Inst, k: Inst)
    returns (sys': System, th': Thread, evs: seq<Event>)
    requires ValidConfig(cfg) && Stands(sys, x, th, fr) && x.q == [j] && th.branch == BUBBLE
    requires Simple(j) && !j.predictedTaken && Simple(k) && !k.predictedTaken && Increasing(x.issued + [k])
    requires j.stream == k.stream == th.stream == fr.stream && fr.state == Running && fr.signals == [] && fr.pc == k.pc
    ensures th' == Stepped(Stepped(th, j, cfg.advance(j, j.pc)), k, cfg.advance(k, k.pc))
    ensures PossibleRun(cfg, sys, evs) && Run(cfg, sys, evs) == sys' && sys'.ex.th == th'
  {
    NoEvents(cfg, sys);
    assert Leads(cfg, sys, [], sys);
    hide Legal, Apply, TryInst, Leads, Stands, Increasing;
    var e := Executes(j.pc);
    assert th.(branch := BUBBLE) == th;
    Branches(cfg, th, x.bar.last, j, j.pc);
    var th1 := Stepped(th, j, cfg.advance(j, j.pc));
    StepExecution(cfg, sys, x, th, fr, e, th1, Done(true, false));
    LeadsOn(cfg, sys, [], sys, ExecutionOf(e));
    var sys1 := Apply(cfg, sys, ExecutionOf(e));
    assert fr.signals + Wire(BUBBLE) == fr.signals && Left(x, true).q == [];
    sys', th' := RunsAlone(cfg, sys, [] + [ExecutionOf(e)], sys1, Left(x, true), th1, fr, k);
    evs := [] + [ExecutionOf(e)] + AloneEvents(k);
    hide AloneEvents;
    var x' := Left(Entered(Left(x, true), k), true);
    EmptyReached(cfg, sys, evs, sys', x', th', fr.(pc := Next(cfg, k)), Next(cfg, k));
  }
}
