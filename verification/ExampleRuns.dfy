/**
  Legal runs in which a mispredicted branch is squashed and a drain is resumed, so
  that the promises of the surroundings can be kept.
 */
module ExampleRuns {
  import opened Options
  import opened MinorTypes
  import opened CommitSpec
  import opened CommitTheorems
  import opened IssueSpec
  import opened IssueTheorems
  import opened CycleSpec
  import opened QueueLemmas
  import opened Pipeline
  import opened StageRuns
  import opened RunTheorems
  import opened SequentialTheorems
  import opened Witness

  lemma NewerThanOne(i: Inst, j: Inst)
    requires i.id < j.id
    ensures [] + [i] == [i] && [i] + [j] == [i, j] && Increasing([i]) && Increasing([i, j])
  {
    forall a, b | 0 <= a < b < 2 ensures [i, j][a].id < [i, j][b].id { assert a == 0 && b == 1; }
  }

  lemma NewerThanTwo(i: Inst, j: Inst, k: Inst)
    requires i.id < j.id < k.id
    ensures [i, j] + [k] == [i, j, k] && Increasing([i, j, k])
  {
    forall a, b | 0 <= a < b < 3 ensures [i, j, k][a].id < [i, j, k][b].id {
      assert (a == 0 && b == 1) || (a == 0 && b == 2) || (a == 1 && b == 2);
    }
  }

  lemma NewerThanThree(i: Inst, j: Inst, k: Inst, l: Inst)
    requires i.id < j.id < k.id < l.id
    ensures [i, j, k] + [l] == [i, j, k, l] && Increasing([i, j, k, l])
  {
    NewerThanTwo(i, j, k);
    var q := [i, j, k, l];
    forall a, b | 0 <= a < b < 4 ensures q[a].id < q[b].id {
      assert b < 3 ==> q[a] == [i, j, k][a] && q[b] == [i, j, k][b];
    }
  }

  // ---------- Two instructions in flight ----------

  /** j where fetch goes after i, both fresh light instructions of one stream. */
  ghost predicate Pair(cfg: Config, i: Inst, j: Inst) {
    Light(i) && Light(j) && i.id < j.id && i.stream == j.stream && j.pc == Next(cfg, i)
  }

  ghost predicate Follow(cfg: Config, i: Inst, j: Inst) { Pair(cfg, i, j) && Simple(i) && Simple(j) }

  /** An empty stage, its front end running at pc in the thread's stream. */
  ghost predicate Empty(sys: System, x: Scene, th: Thread, fr: Front, pc: PC) {
    && Stands(sys, x, th, fr) && x.q == [] && !th.suspended
    && fr.stream == th.stream && fr.state == Running && fr.pc == pc && fr.signals == []
  }

  lemma FreshEmpty(cfg: Config, sys: System)
    requires Initial(sys)
    ensures var th := FreshThread(sys.ex.th.pc);
      Empty(sys, FreshScene(sys), th, Front(1, th.pc, Running, []), th.pc) && Leads(cfg, sys, [], sys)
  {
    FreshStands(cfg, sys);
  }

  /** First i, then j behind it, is issued. */
  lemma IssueTwo(cfg: Config, sys: System, evs: seq<Event>, sys1: System, x: Scene, th: Thread, fr: Front, i: Inst,
                 j: Inst)
    returns (sys': System)
    requires Leads(cfg, sys, evs, sys1) && Empty(sys1, x, th, fr, i.pc) && Pair(cfg, i, j) && i.stream == th.stream
    requires Increasing(x.issued + [i]) && Increasing(x.issued + [i] + [j])
    ensures Leads(cfg, sys, evs + [DeliveryOf(i)] + [DeliveryOf(j)], sys')
    ensures Stands(sys', Entered(Entered(x, i), j), th.(branch := BUBBLE), fr.(pc := Next(cfg, j)))
  {
    hide Legal, Apply, Leads, Stands, Increasing;
    StepDelivery(cfg, sys1, x, th, fr, i);
    LeadsOn(cfg, sys, evs, sys1, DeliveryOf(i));
    var sys2, x1, th1 := Apply(cfg, sys1, DeliveryOf(i)), Entered(x, i), th.(branch := BUBBLE);
    assert x1.q == [i] by { assert [] + [i] == [i]; }
    StepDelivery(cfg, sys2, x1, th1, fr.(pc := j.pc), j);
    LeadsOn(cfg, sys, evs + [DeliveryOf(i)], sys2, DeliveryOf(j));
    sys' := Apply(cfg, sys2, DeliveryOf(j));
  }

  function TwoEvents(i: Inst, j: Inst): seq<Event> { [] + [DeliveryOf(i)] + [DeliveryOf(j)] }

  function TwoScene(sys: System, i: Inst, j: Inst): Scene {
    Scene([i, j], [i, j], [], Entered(Entered(FreshScene(sys), i), j).bar, sys.ex.u.fus, true)
  }

  /** The first two instructions of a fresh system. */
  lemma TwoInFlight(cfg: Config, sys: System, i: Inst, j: Inst) returns (sys': System)
    requires Initial(sys) && Pair(cfg, i, j) && i.stream == 1 && i.pc == sys.ex.th.pc
    ensures Leads(cfg, sys, TwoEvents(i, j), sys')
    ensures Stands(sys', TwoScene(sys, i, j), FreshThread(i.pc), Front(1, Next(cfg, j), Running, []))
  {
    FreshEmpty(cfg, sys);
    NewerThanOne(i, j);
    hide Initial, Leads, Stands, Increasing;
    var x, th, fr := FreshScene(sys), FreshThread(i.pc), Front(1, i.pc, Running, []);
    sys' := IssueTwo(cfg, sys, [], sys, x, th, fr, i, j);
    assert Entered(Entered(x, i), j) == TwoScene(sys, i, j);
  }

  // ---------- A mispredicted branch ----------

  function BranchEvents(pc: PC): seq<Event> {
    [ExecutionOf(Executes(pc)), TakeSignal(false), ExecutionOf(Executes(0))]
  }

  /** i branches, though not predicted to; the branch reaches the front end, and
      the j fetched behind i is dropped. */
  lemma BranchAway(cfg: Config, sys: System, evs: seq<Event>, sys1: System, x: Scene, th: Thread, fr: Front,
                   i: Inst, j: Inst, pc: PC)
    returns (sys': System, th': Thread)
    requires ValidConfig(cfg) && Leads(cfg, sys, evs, sys1) && Stands(sys1, x, th, fr) && x.q == [i, j] && !th.suspended
    requires Follow(cfg, i, j) && i.stream == th.stream && !i.predictedTaken && pc != i.pc
    requires fr.state == Running && fr.signals == []
    ensures th' == Branched(th.(branch := BUBBLE), i, cfg.advance(i, pc)).(branch := BUBBLE)
    ensures Leads(cfg, sys, evs + BranchEvents(pc), sys')
    ensures Empty(sys', Left(Left(x, true), false), th', Front(th.stream + 1, cfg.advance(i, pc), Running, []), th'.pc)
  {
    hide Legal, Apply, TryInst, Leads, Stands;
    var e, th1 := Executes(pc), th.(branch := BUBBLE);
    Branches(cfg, th1, x.bar.last, i, pc);
    var th2 := Branched(th1, i, cfg.advance(i, pc));
    StepExecution(cfg, sys1, x, th, fr, e, th2, Done(true, false));
    LeadsOn(cfg, sys, evs, sys1, ExecutionOf(e));
    var sys2, fr2, x2 := Apply(cfg, sys1, ExecutionOf(e)), fr.(signals := [th2.branch]), Left(x, true);
    assert [] + [th2.branch] == [th2.branch] && x2.q == [j];
    StepSignal(cfg, sys2, x2, th2, fr2);
    LeadsOn(cfg, sys, evs + [ExecutionOf(e)], sys2, TakeSignal(false));
    var sys3, fr3 := Apply(cfg, sys2, TakeSignal(false)), Front(th.stream + 1, th2.pc, Running, []);
    assert fr2.signals[1..] == [] && React(fr2, false) == fr3;
    sys' := DroppedNext(cfg, sys, evs + [ExecutionOf(e)] + [TakeSignal(false)], sys3, x2, th2, fr3);
    th' := th2.(branch := BUBBLE);
    assert evs + [ExecutionOf(e)] + [TakeSignal(false)] + [ExecutionOf(Executes(0))] == evs + BranchEvents(pc);
  }

  /** The only instruction in flight is of an old stream and is dropped. */
  lemma DroppedNext(cfg: Config, sys: System, evs: seq<Event>, sys1: System, x: Scene, th: Thread, fr: Front)
    returns (sys': System)
    requires ValidConfig(cfg) && Leads(cfg, sys, evs, sys1) && Stands(sys1, x, th, fr)
    requires |x.q| == 1 && x.q[0].stream != th.stream && !th.suspended
    ensures Leads(cfg, sys, evs + [ExecutionOf(Executes(0))], sys')
    ensures Stands(sys', Left(x, false), th.(branch := BUBBLE), fr)
  {
    hide Legal, Apply, TryInst, Leads, Stands, Left;
    var th1 := th.(branch := BUBBLE);
    Drops(cfg, th1, x.bar.last, x.q[0], Executes(0));
    StepExecution(cfg, sys1, x, th, fr, Executes(0), th1, Done(false, false));
    LeadsOn(cfg, sys, evs, sys1, ExecutionOf(Executes(0)));
    sys' := Apply(cfg, sys1, ExecutionOf(Executes(0)));
    assert fr.signals + Wire(BUBBLE) == fr.signals;
  }

  function AloneEvents(k: Inst): seq<Event> { [DeliveryOf(k), ExecutionOf(Executes(k.pc))] }

  /** k is delivered to an empty stage and takes effect. */
  lemma RunsAlone(cfg: Config, sys: System, evs: seq<Event>, sys1: System, x: Scene, th: Thread, fr: Front, k: Inst)
    returns (sys': System, th': Thread)
    requires ValidConfig(cfg) && Leads(cfg, sys, evs, sys1) && Empty(sys1, x, th, fr, k.pc)
    requires Simple(k) && !k.predictedTaken && k.stream == th.stream && Increasing(x.issued + [k])
    ensures th' == Stepped(th.(branch := BUBBLE), k, cfg.advance(k, k.pc))
    ensures Leads(cfg, sys, evs + AloneEvents(k), sys')
    ensures Empty(sys', Left(Entered(x, k), true), th', fr.(pc := Next(cfg, k)), Next(cfg, k))
  {
    hide Legal, Apply, TryInst, Leads, Stands, Increasing;
    StepDelivery(cfg, sys1, x, th, fr, k);
    LeadsOn(cfg, sys, evs, sys1, DeliveryOf(k));
    var sys2, e := Apply(cfg, sys1, DeliveryOf(k)), Executes(k.pc);
    var x1, th1, fr1 := Entered(x, k), th.(branch := BUBBLE), fr.(pc := Next(cfg, k));
    assert x1.q == [k] by { assert [] + [k] == [k]; }
    Branches(cfg, th1, x1.bar.last, k, k.pc);
    th' := Stepped(th1, k, cfg.advance(k, k.pc));
    StepExecution(cfg, sys2, x1, th1, fr1, e, th', Done(true, false));
    LeadsOn(cfg, sys, evs + [DeliveryOf(k)], sys2, ExecutionOf(e));
    sys' := Apply(cfg, sys2, ExecutionOf(e));
    assert fr1.signals + Wire(BUBBLE) == fr1.signals;
    assert evs + [DeliveryOf(k)] + [ExecutionOf(e)] == evs + AloneEvents(k);
  }

  /** From every fresh system at i's PC, with k where i branches to: i and k take
      effect, and j, fetched behind i, is squashed. */
  lemma Misprediction(cfg: Config, sys: System, i: Inst, j: Inst, k: Inst, pc: PC) returns (evs: seq<Event>)
    requires Initial(sys) && ValidConfig(cfg) && Follow(cfg, i, j) && i.stream == 1 && i.pc == sys.ex.th.pc
    requires !i.predictedTaken && pc != i.pc && k.pc == cfg.advance(i, pc)
    requires Simple(k) && !k.predictedTaken && j.id < k.id && k.stream == 2
    ensures LegalRun(cfg, sys, evs)
    ensures var s := Run(cfg, sys, evs).ex;
      && s.th.log == [Took(i, k.pc), Took(k, cfg.advance(k, k.pc))]
      && s.q.completed == [i, j, k]
  {
    hide Initial, Leads, Empty, Stands, Increasing, BranchEvents, AloneEvents, TwoEvents, Run, LegalRun, PossibleRun,
        LegalFrom;
    NewerThanTwo(i, j, k);
    var sys1 := TwoInFlight(cfg, sys, i, j);
    var x1, th := TwoScene(sys, i, j), FreshThread(i.pc);
    evs := TwoEvents(i, j);
    var sys2, th2 := BranchAway(cfg, sys, evs, sys1, x1, th, Front(1, Next(cfg, j), Running, []), i, j, pc);
    var x2 := Left(Left(x1, true), false);
    BothGone(sys, i, j);
    var fr2 := Front(2, k.pc, Running, []);
    var sys3, th3 := RunsAlone(cfg, sys, evs + BranchEvents(pc), sys2, x2, th2, fr2, k);
    evs := evs + BranchEvents(pc) + AloneEvents(k);
    EmptyReached(cfg, sys, evs, sys3, Left(Entered(x2, k), true), th3, fr2.(pc := Next(cfg, k)), Next(cfg, k));
  }

  lemma BothGone(sys: System, i: Inst, j: Inst)
    ensures var x := Left(Left(TwoScene(sys, i, j), true), false); x.issued == [i, j] && x.q == [] && x.done == [i, j]
  {
  }

  lemma EmptyReached(cfg: Config, sys: System, evs: seq<Event>, sys': System, x: Scene, th: Thread, fr: Front, pc: PC)
    requires Leads(cfg, sys, evs, sys') && Empty(sys', x, th, fr, pc)
    ensures LegalRun(cfg, sys, evs) && Run(cfg, sys, evs) == sys'
    ensures sys'.ex.th == th && sys'.ex.q.completed == x.done && sys'.ex.drain == NotDraining
  {
  }

  // ---------- A drain and a resume ----------

  function Halting(th: Thread): Thread {
    th.(stream := th.stream + 1, branch := BranchData(HaltFetch, th.stream + 1, 0))
  }

  /** The cycle in which fetch is halted. */
  lemma HaltCycle(cfg: Config, s: State)
    requires s.drain == DrainHaltFetch && s.inp == Input([], 0) && s.q.inFlight == []
    requires forall k | 0 <= k < |s.u.fus| :: Unused(s.u.fus[k])
    ensures Evaluate(cfg, s, Clock([], Holding())) == s.(th := Halting(s.th.(branch := BUBBLE)), drain := DrainAllInsts)
  {
    var e := Clock([], Holding());
    var s1 := HaltPhase(CommitPhase(cfg, Begin(s, e), e));
    IssuesNone(cfg, s1, e.issue);
    AdvanceFree(s.u);
    hide Issue, AdvanceUnits;
  }

  function DrainEvents(): seq<Event> {
    [] + [RequestDrain(false)] + [Cycle(Clock([], Holding()))] + [TakeSignal(false)] + [Resume]
  }

  lemma Drained(cfg: Config, sys: System) returns (sys': System)
    requires Initial(sys)
    ensures Leads(cfg, sys, DrainEvents(), sys')
    ensures var th := Halting(FreshThread(sys.ex.th.pc));
      Empty(sys', FreshScene(sys), th, Front(2, th.pc, Running, []), th.pc)
  {
    FreshStands(cfg, sys);
    var halt := Cycle(Clock([], Holding()));
    var sys1 := Apply(cfg, sys, RequestDrain(false));
    assert sys1.ex == sys.ex.(drain := DrainHaltFetch);
    LeadsOn(cfg, sys, [], sys, RequestDrain(false));
    CycleIsLegal(cfg, sys1, [], Holding());
    HaltCycle(cfg, sys1.ex);
    var sys2 := Apply(cfg, sys1, halt);
    LeadsOn(cfg, sys, [] + [RequestDrain(false)], sys1, halt);
    hide Evaluate, Initial, Leads;
    assert sys2.fr.signals == [sys2.ex.th.branch];
    var sys3 := Apply(cfg, sys2, TakeSignal(false));
    LeadsOn(cfg, sys, [] + [RequestDrain(false)] + [halt], sys2, TakeSignal(false));
    assert sys3.fr.state == Halted;
    LeadsOn(cfg, sys, [] + [RequestDrain(false)] + [halt] + [TakeSignal(false)], sys3, Resume);
    sys' := Apply(cfg, sys3, Resume);
  }

  /** Every fresh system can be drained and resumed, after which the instruction
      at its PC takes effect in the new stream. */
  lemma DrainAndResume(cfg: Config, sys: System, k: Inst) returns (evs: seq<Event>)
    requires Initial(sys) && ValidConfig(cfg) && Simple(k) && !k.predictedTaken && k.stream == 2 && k.pc == sys.ex.th.pc
    ensures LegalRun(cfg, sys, evs) && DrainEvents() <= evs
    ensures var s := Run(cfg, sys, evs).ex;
      s.th.log == [Took(k, cfg.advance(k, k.pc))] && s.drain == NotDraining
  {
    var sys1 := Drained(cfg, sys);
    var x, th, fr := FreshScene(sys), Halting(FreshThread(k.pc)), Front(2, k.pc, Running, []);
    assert Increasing([] + [k]) by { assert [] + [k] == [k]; }
    hide Initial, Leads, Empty, Increasing, DrainEvents, AloneEvents;
    var sys2, th2 := RunsAlone(cfg, sys, DrainEvents(), sys1, x, th, fr, k);
    evs := DrainEvents() + AloneEvents(k);
    EmptyReached(cfg, sys, evs, sys2, Left(Entered(x, k), true), th2, fr.(pc := Next(cfg, k)), Next(cfg, k));
    hide Run, LegalRun;
  }
}
