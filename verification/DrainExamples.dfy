/**
  A run in which a drain never ends: a micro-op that is not the last of its
  instruction changes the stream while the current instruction is being drained,
  and the rest of the instruction has not been issued.
 */
module DrainExamples {
  import opened Options
  import opened MinorTypes
  import opened CommitSpec
  import opened CommitTheorems
  import opened IssueSpec
  import opened IssueTheorems
  import opened CycleSpec
  import opened Pipeline
  import opened StageRuns
  import opened Witness
  import opened ExampleRuns
  import opened LostDrains

  /** A micro-op before the last one of its instruction, not predicted to branch. */
  ghost predicate MicroOp(u: Inst) { Light(u) && !u.lastOp && !u.quiesce && !u.predictedTaken }

  /** While the current instruction is drained, u branches. */
  lemma BranchInDrain(cfg: Config, s: State, x: Scene, u: Inst, pc: PC)
    requires ValidConfig(cfg) && s.drain == DrainCurrentInst && Idle(s.(drain := NotDraining), x)
    requires x.q == [u] && !x.end
    requires s.inp == Input([], 0) && MicroOp(u) && u.stream == s.th.stream && pc != u.pc && !s.th.suspended
    ensures var s' := Evaluate(cfg, s, Clock([], Once(Executes(pc))));
      && s'.drain == DrainCurrentInst && s'.th.stream == s.th.stream + 1 && s'.q.inFlight == [] && !s'.lastEnd
  {
    var e, env := Clock([], Once(Executes(pc))), Once(Executes(pc));
    var s0, th := DropBranch(s), s.th.(branch := BUBBLE);
    BeginWith(s, u, env);
    assert u in x.q && CommitUpTo(cfg, s0, true, false, env, 0) == (s0, CTL0) && CommitGuard(cfg, s0, CTL0);
    assert PickInst(cfg, s0, CTL0, true, env(0)) == Free(u);
    Branches(cfg, th, s.bar.last, u, pc);
    var th' := Branched(th, u, cfg.advance(u, pc));
    var (s1, c1) := CommitUpTo(cfg, s0, true, false, env, 1);
    assert s1 == Finish(s0, Free(u), th', Done(true, false));
    hide CommitIter, TryInst, PickInst, ClearDests;
    assert !CommitGuard(cfg, s1, c1);
    CommitSettled(cfg, s0, true, false, env, 1, CommitBound(s0));
    CycleIs(cfg, s, e);
    IssuesNone(cfg, DropBranch(s1), e.issue);
    hide Commit, Issue, Evaluate, AdvanceUnits, Begin, CommitUpTo, Finish;
  }

  /** The first micro-op takes effect. */
  lemma FirstMicroOp(cfg: Config, sys: System, u: Inst, v: Inst) returns (evs: seq<Event>, sys': System)
    requires Initial(sys) && ValidConfig(cfg) && Pair(cfg, u, v) && u.stream == 1 && u.pc == sys.ex.th.pc
    requires MicroOp(u) && MicroOp(v)
    ensures Leads(cfg, sys, evs, sys')
    ensures Stands(sys', Left(TwoScene(sys, u, v), true), Stepped(FreshThread(u.pc), u, v.pc),
                   Front(1, Next(cfg, v), Running, []))
  {
    hide Initial, Leads, Stands, Legal, Apply, TryInst, TwoEvents;
    var sys1 := TwoInFlight(cfg, sys, u, v);
    var x, th, fr := TwoScene(sys, u, v), FreshThread(u.pc), Front(1, Next(cfg, v), Running, []);
    var e := Executes(u.pc);
    Branches(cfg, th, x.bar.last, u, u.pc);
    var th1 := Stepped(th, u, v.pc);
    assert th.(branch := BUBBLE) == th;
    StepExecution(cfg, sys1, x, th, fr, e, th1, Done(true, false));
    LeadsOn(cfg, sys, TwoEvents(u, v), sys1, ExecutionOf(e));
    evs, sys' := TwoEvents(u, v) + [ExecutionOf(e)], Apply(cfg, sys1, ExecutionOf(e));
    assert fr.signals + Wire(BUBBLE) == fr.signals;
  }

  /** From every fresh system: u, v are the first micro-ops of an instruction, v
      branches, and the drain requested between them never ends, whatever follows. */
  lemma DrainHangs(cfg: Config, sys: System, u: Inst, v: Inst, pc: PC) returns (evs: seq<Event>)
    requires Initial(sys) && ValidConfig(cfg) && Pair(cfg, u, v) && u.stream == 1 && u.pc == sys.ex.th.pc
    requires MicroOp(u) && MicroOp(v) && pc != v.pc
    ensures LegalRun(cfg, sys, evs) && Lost(Run(cfg, sys, evs)) && !EndAhead(Run(cfg, sys, evs).ex)
    ensures forall more: seq<Event> | PossibleRun(cfg, Run(cfg, sys, evs), more) ::
      Run(cfg, Run(cfg, sys, evs), more).ex.drain == DrainCurrentInst
  {
    hide Initial, Lost, EndAhead, Leads, MicroOp;
    var evs2, sys2 := DrainRequested(cfg, sys, u, v);
    hide Run, PossibleRun, LegalRun;
    LastMicroOp(cfg, sys, evs2, sys2, u, v, pc);
    evs := evs2 + [ExecutionOf(Executes(pc))];
    var sys3 := Run(cfg, sys, evs);
    forall more: seq<Event> | PossibleRun(cfg, sys3, more) ensures Run(cfg, sys3, more).ex.drain == DrainCurrentInst {
      NeverEnds(cfg, sys3, more);
      LostDrain(Run(cfg, sys3, more));
    }
  }

  /** A drain is under way and v is next. */
  ghost predicate Draining(sys: System, x: Scene, v: Inst) {
    && sys.ex.drain == DrainCurrentInst && Idle(sys.ex.(drain := NotDraining), x) && x.q == [v] && !x.end
    && sys.ex.inp == Input([], 0) && sys.ex.th.stream == 1 && !sys.ex.th.suspended
    && sys.fr.state == Running && sys.fr.signals == []
  }

  lemma DrainRequested(cfg: Config, sys: System, u: Inst, v: Inst) returns (evs: seq<Event>, sys': System)
    requires Initial(sys) && ValidConfig(cfg) && Pair(cfg, u, v) && u.stream == 1 && u.pc == sys.ex.th.pc
    requires MicroOp(u) && MicroOp(v)
    ensures Leads(cfg, sys, evs, sys') && Draining(sys', Left(TwoScene(sys, u, v), true), v)
  {
    hide Initial, Leads;
    var evs1, sys1 := FirstMicroOp(cfg, sys, u, v);
    assert Left(TwoScene(sys, u, v), true).q == [v];
    LeadsOn(cfg, sys, evs1, sys1, RequestDrain(false));
    evs, sys' := evs1 + [RequestDrain(false)], Apply(cfg, sys1, RequestDrain(false));
  }

  lemma LastMicroOp(cfg: Config, sys: System, evs: seq<Event>, sys1: System, u: Inst, v: Inst, pc: PC)
    requires Initial(sys) && ValidConfig(cfg) && Leads(cfg, sys, evs, sys1) && MicroOp(v) && v.stream == 1 && pc != v.pc
    requires Draining(sys1, Left(TwoScene(sys, u, v), true), v)
    ensures var all := evs + [ExecutionOf(Executes(pc))];
      LegalRun(cfg, sys, all) && Lost(Run(cfg, sys, all)) && !EndAhead(Run(cfg, sys, all).ex)
  {
    var last, e := ExecutionOf(Executes(pc)), Clock([], Once(Executes(pc)));
    BranchInDrain(cfg, sys1.ex, Left(TwoScene(sys, u, v), true), v, pc);
    CycleIsLegal(cfg, sys1, [], Once(Executes(pc)));
    ReachedStage(cfg, sys, evs, sys1);
    hide Evaluate, Initial, StageInv, Leads, Lost, MicroOp, Idle, Delivers, CommitUpTo;
    SignalDropped(cfg, sys1, e);
    LeadsOn(cfg, sys, evs, sys1, last);
    LeadsMeans(cfg, sys, evs + [last], Apply(cfg, sys1, last));
  }

  lemma ReachedStage(cfg: Config, sys: System, evs: seq<Event>, sys1: System)
    requires Initial(sys) && ValidConfig(cfg) && Leads(cfg, sys, evs, sys1)
    ensures StageInv(sys1)
  {
    InitialStage(sys);
    hide Initial, StageInv;
    RunStage(cfg, sys, evs);
  }

  lemma LeadsMeans(cfg: Config, sys: System, evs: seq<Event>, sys1: System)
    requires Leads(cfg, sys, evs, sys1)
    ensures LegalRun(cfg, sys, evs) && Run(cfg, sys, evs) == sys1
  {
  }

  lemma LostDrain(sys: System)
    requires Lost(sys)
    ensures sys.ex.drain == DrainCurrentInst
  {
  }
}
