/**
  Runs of simple instructions, built step by step: every step is a legal event
  and its outcome is known exactly.
 */
module Witness {
  import opened Options
  import opened MinorTypes
  import opened CommitSpec
  import opened CommitTheorems
  import opened IssueSpec
  import opened IssueTheorems
  import opened CycleSpec
  import opened QueueLemmas
  import opened Pipeline
  import opened StageRuns
  import opened RunTheorems

  // ---------- Cycles ----------

  /** Execution leaves the thread's PC at pc; nothing unusual happens. */
  function Executes(pc: PC): IterEnv {
    IterEnv(true, None, false, true, false, false, true, false, pc, false, false, true)
  }

  /** Nothing may commit yet. */
  function HoldsBack(): IterEnv { HoldsWith(false) }

  /** The same, with an interrupt pending or not. */
  function HoldsWith(interrupted: bool): IterEnv {
    IterEnv(true, None, false, true, true, false, true, false, 0, false, interrupted, true)
  }

  /** Do e first, then hold; an interrupt stays pending. */
  function Once(e: IterEnv): nat -> IterEnv { k => if k == 0 then e else HoldsWith(e.interrupted) }

  function Holding(): nat -> IterEnv { _ => HoldsBack() }

  function Clock(line: seq<Option<Inst>>, commit: nat -> IterEnv): CycleEnv {
    CycleEnv(line, [], false, None, true, true, commit, _ => IssueEnv(_ => true))
  }

  lemma CycleIsLegal(cfg: Config, sys: System, line: seq<Option<Inst>>, commit: nat -> IterEnv)
    requires Delivers(cfg, sys, line) && !sys.ex.th.suspended
    ensures Legal(cfg, sys, false, Cycle(Clock(line, commit)))
  {
    hide Delivers;
  }

  // ---------- States ----------

  /** An instruction that needs no unit and writes no register. */
  ghost predicate Light(i: Inst) { WellFormed(i) && i.noCost && i.dests == [] }

  /** One that does nothing special either. */
  ghost predicate Simple(i: Inst) { Light(i) && i.lastOp && !i.quiesce && !i.serializing }

  /** Issued, in flight, completed; the barriers; the units, all free; and whether the
      last to complete ended a macro-op. */
  datatype Scene = Scene(issued: seq<Inst>, q: seq<Inst>, done: seq<Inst>, bar: Barriers, fus: seq<FU>, end: bool)

  ghost predicate Unused(fu: FU) { !fu.stalled && |fu.pipe| >= 2 && forall k | 0 <= k < |fu.pipe| :: fu.pipe[k].None? }

  const NO_WRITERS := Scoreboard(multiset{}, map[])

  /** Only light instructions in flight and nothing unusual under way. */
  ghost predicate Idle(s: State, x: Scene) {
    && s.q.issued == x.issued && s.q.inFlight == x.q && s.q.completed == x.done && s.q.sent == []
    && s.q.inFUMem == [] && s.q.inLSQ == {} && s.bar == x.bar && s.u.fus == x.fus && s.sb == NO_WRITERS
    && s.drain == NotDraining && s.lastEnd == x.end
    && (forall k | 0 <= k < |x.fus| :: Unused(x.fus[k]))
    && (forall i | i in x.q :: Light(i) && FUOf(s.u, i) == NoCostFU(s.u))
  }

  function Entered(x: Scene, i: Inst): Scene {
    x.(issued := x.issued + [i], q := x.q + [i], bar := if i.barrier then x.bar.(last := i.id) else x.bar)
  }

  function Left(x: Scene, committed: bool): Scene
    requires x.q != []
  {
    x.(q := x.q[1..], done := x.done + [x.q[0]], bar := CompleteBarrier(x.bar, x.q[0], committed), end := x.q[0].lastOp)
  }

  lemma AdvanceFree(u: Units)
    requires forall k | 0 <= k < |u.fus| :: Unused(u.fus[k])
    ensures AdvanceUnits(u) == u
  {
    forall k | 0 <= k < |u.fus| ensures AdvanceFU(u.fus[k]) == u.fus[k] {
      assert Unused(u.fus[k]);
      assert u.fus[k].pipe[1..] + [None] == u.fus[k].pipe;
    }
    assert AdvanceUnits(u).fus == u.fus;
  }

  // ---------- Commit ----------

  lemma CommitsNone(cfg: Config, s: State, discard: bool, env: nat -> IterEnv)
    requires s.q.inFlight == []
    ensures Commit(cfg, s, false, discard, env).0 == s
  {
    assert !CommitGuard(cfg, s, CTL0);
    CommitSettled(cfg, s, false, discard, env, 0, CommitBound(s));
  }

  /** What an iteration does with a simple head. */
  lemma FreeHead(cfg: Config, s: State, x: Scene, c: Ctl, e: IterEnv)
    requires Idle(s, x) && x.q != [] && e.pcEvent.None?
    ensures var (th, o) := TryInst(cfg, s.th, x.bar.last, Free(x.q[0]), false, e);
      CommitIter(cfg, s, c, false, false, e) == (Finish(s, Free(x.q[0]), th, o), Count(c, Free(x.q[0]), o))
  {
    assert x.q[0] in x.q;
    assert PickInst(cfg, s, c, false, e) == Free(x.q[0]);
  }

  lemma HeadHolds(cfg: Config, s: State, x: Scene, c: Ctl, interrupted: bool)
    requires Idle(s, x) && x.q != [] && x.q[0].stream == s.th.stream
    ensures var (s', c') := CommitIter(cfg, s, c, false, false, HoldsWith(interrupted)); s' == s && !c'.completed
  {
    FreeHead(cfg, s, x, c, HoldsWith(interrupted));
    assert x.q[0] in x.q;
  }

  /** A loop whose first iteration changes nothing. */
  lemma Stalls(cfg: Config, s: State, env: nat -> IterEnv)
    requires s.q.inFlight != [] ==>
      var (s', c') := CommitIter(cfg, s, CTL0, false, false, env(0)); s' == s && !c'.completed
    ensures Commit(cfg, s, false, false, env).0 == s
  {
    if s.q.inFlight == [] {
      CommitsNone(cfg, s, false, env);
    } else {
      hide CommitIter;
      assert CommitUpTo(cfg, s, false, false, env, 0) == (s, CTL0);
      var (s1, c1) := CommitUpTo(cfg, s, false, false, env, 1);
      assert s1 == s && !CommitGuard(cfg, s1, c1);
      CommitSettled(cfg, s, false, false, env, 1, CommitBound(s));
    }
  }

  /** The simple head leaves. */
  lemma FreeLeaves(s: State, x: Scene, th: Thread, o: Outcome)
    requires Idle(s, x) && x.q != [] && o.Done?
    ensures var s' := Finish(s, Free(x.q[0]), th, o);
      Idle(s', Left(x, Commits(o))) && s'.th == th && s'.inp == s.inp
  {
    assert x.q[0] in x.q;
    assert multiset(x.q[0].dests) == multiset{};
    assert ClearDests(s.sb, x.q[0]) == NO_WRITERS;
    hide ClearDests;
  }

  /** The head completes, and then a change of stream, an empty queue or a held
      next head ends the loop. */
  lemma CommitFirst(cfg: Config, s: State, x: Scene, e: IterEnv, th: Thread, o: Outcome)
    requires ValidConfig(cfg) && s.th.branch == BUBBLE && Idle(s, x) && x.q != [] && e.pcEvent.None?
    requires (th, o) == TryInst(cfg, s.th, x.bar.last, Free(x.q[0]), false, e) && o.Done? && !o.fault
    requires IsStreamChange(th.branch.reason) || |x.q| == 1 || x.q[1].stream == th.stream
    ensures var s' := Commit(cfg, s, false, false, Once(e)).0;
      Idle(s', Left(x, Commits(o))) && s'.th == th && s'.inp == s.inp
  {
    var env := Once(e);
    assert CommitUpTo(cfg, s, false, false, env, 0) == (s, CTL0) && CommitGuard(cfg, s, CTL0);
    FreeHead(cfg, s, x, CTL0, e);
    FreeLeaves(s, x, th, o);
    hide CommitIter, TryInst, Finish;
    var (s1, c1) := CommitUpTo(cfg, s, false, false, env, 1);
    if CommitGuard(cfg, s1, c1) {
      HeadHolds(cfg, s1, Left(x, Commits(o)), c1, e.interrupted);
      var (s2, c2) := CommitUpTo(cfg, s, false, false, env, 2);
      assert s2 == s1 && !CommitGuard(cfg, s2, c2);
      CommitSettled(cfg, s, false, false, env, 2, CommitBound(s));
    } else {
      CommitSettled(cfg, s, false, false, env, 1, CommitBound(s));
    }
  }

  // ---------- Issue ----------

  /** The state with one line of input. */
  function WithLine(s: State, i: Inst): State { s.(inp := Input([[Some(i)]], 0)) }

  lemma IssuesOne(cfg: Config, s: State, i: Inst, env: nat -> IssueEnv)
    requires s.inp == Input([], 0) && Light(i) && i.stream == s.th.stream && !s.th.suspended
    ensures Issue(cfg, WithLine(s, i), env).0 ==
      IssueInst(s, i, s.u.(fuIndex := s.u.fuIndex[i.id := NoCostFU(s.u)]))
  {
    var s0 := WithLine(s, i);
    assert IssueUpTo(cfg, s0, env, 0) == (s0, Start(s0)) && Start(s0).going;
    var (s1, c1) := IssueUpTo(cfg, s0, env, 1);
    assert s1.inp == Input([], 0) && !c1.going;
    IssueSettled(cfg, s0, env, 1, |Remaining(s0.inp)| + 1);
  }

  lemma FreeIssued(s: State, x: Scene, i: Inst)
    requires Idle(s, x) && Light(i) && forall j | j in x.q :: j.id < i.id
    ensures Idle(IssueInst(s, i, s.u.(fuIndex := s.u.fuIndex[i.id := NoCostFU(s.u)])), Entered(x, i))
  {
    assert multiset(i.dests) == multiset{};
    assert MarkupDests(s.sb, i) == NO_WRITERS;
    hide MarkupDests;
  }

  // ---------- Cycles on simple instructions ----------

  /** The rest of a cycle after commit. */
  lemma AfterCommit(cfg: Config, s: State, e: CycleEnv, s1: State)
    requires s.drain == NotDraining && !e.interrupted && s1.drain == NotDraining
    requires Commit(cfg, Begin(s, e), false, false, e.commit).0 == s1
    ensures var s2 := Issue(cfg, s1, e.issue).0; Evaluate(cfg, s, e) == s2.(u := AdvanceUnits(s2.u))
  {
    hide Commit, Issue, AdvanceUnits;
  }

  lemma BeginWith(s: State, i: Inst, commit: nat -> IterEnv)
    requires s.inp == Input([], 0)
    ensures Begin(s, Clock([Some(i)], commit)) == WithLine(DropBranch(s), i)
    ensures Begin(s, Clock([], commit)) == DropBranch(s)
  {
    assert [] + [[Some(i)]] == [[Some(i)]];
  }

  /** A cycle that delivers i and holds everything. */
  lemma Delivery(cfg: Config, s: State, x: Scene, i: Inst)
    requires Idle(s, x) && s.inp == Input([], 0) && Light(i) && i.stream == s.th.stream
    requires (forall j | j in x.q :: j.id < i.id) && (x.q != [] ==> x.q[0].stream == s.th.stream) && !s.th.suspended
    ensures var s' := Evaluate(cfg, s, Clock([Some(i)], Holding()));
      Idle(s', Entered(x, i)) && s'.inp == Input([], 0) && s'.th == s.th.(branch := BUBBLE)
  {
    var e := Clock([Some(i)], Holding());
    var s1 := DropBranch(s);
    BeginWith(s, i, Holding());
    if x.q != [] { HeadHolds(cfg, WithLine(s1, i), x, CTL0, false); }
    Stalls(cfg, WithLine(s1, i), e.commit);
    AfterCommit(cfg, s, e, WithLine(s1, i));
    IssuesOne(cfg, s1, i, e.issue);
    FreeIssued(s1, x, i);
    var s2 := IssueInst(s1, i, s1.u.(fuIndex := s1.u.fuIndex[i.id := NoCostFU(s1.u)]));
    AdvanceFree(s2.u);
    hide Commit, Issue, Evaluate, Begin, AdvanceUnits, CommitIter;
  }

  /** A cycle that commits the head and holds the rest. */
  lemma Execution(cfg: Config, s: State, x: Scene, e: IterEnv, th: Thread, o: Outcome)
    requires ValidConfig(cfg) && Idle(s, x) && s.inp == Input([], 0) && x.q != [] && e.pcEvent.None?
    requires (th, o) == TryInst(cfg, s.th.(branch := BUBBLE), x.bar.last, Free(x.q[0]), false, e)
    requires o.Done? && !o.fault
    requires IsStreamChange(th.branch.reason) || |x.q| == 1 || x.q[1].stream == th.stream
    ensures var s' := Evaluate(cfg, s, Clock([], Once(e)));
      Idle(s', Left(x, Commits(o))) && s'.inp == Input([], 0) && s'.th == th
  {
    var c := Clock([], Once(e));
    var s1 := DropBranch(s);
    BeginWith(s, x.q[0], Once(e));
    CommitFirst(cfg, s1, x, e, th, o);
    var s2 := Commit(cfg, s1, false, false, c.commit).0;
    AfterCommit(cfg, s, c, s2);
    IssuesNone(cfg, s2, c.issue);
    AdvanceFree(s2.u);
    hide Commit, Issue, Evaluate, Begin, AdvanceUnits, TryInst;
  }

  // ---------- Legal runs, step by step ----------

  /** A legal run to a state in which the thread is awake can be continued by
      another; only a sleeping thread dozes. */
  lemma {:induction false} LegalOn(cfg: Config, sys: System, dozing: bool, evs: seq<Event>, more: seq<Event>)
    requires LegalFrom(cfg, sys, dozing, evs) && (dozing ==> sys.ex.th.suspended)
    requires var sys' := Run(cfg, sys, evs); !sys'.ex.th.suspended && LegalFrom(cfg, sys', false, more)
    ensures LegalFrom(cfg, sys, dozing, evs + more)
    decreases |evs|
  {
    hide Legal, Apply, Delivers;
    var all := evs + more;
    if evs == [] {
      assert all == more;
    } else {
      assert all[1..] == evs[1..] + more && all[0] == evs[0];
      var sys' := Apply(cfg, sys, evs[0]);
      LegalOn(cfg, sys', DozesOn(dozing, sys.ex.th, sys'.ex.th), evs[1..], more);
    }
  }

  lemma LegalOne(cfg: Config, sys: System, dozing: bool, ev: Event)
    requires Legal(cfg, sys, dozing, ev)
    ensures LegalFrom(cfg, sys, dozing, [ev]) && Run(cfg, sys, [ev]) == Apply(cfg, sys, ev)
  {
    hide Delivers, Apply, Quiet;
    assert [ev][1..] == [];
  }

  /** From sys, the events evs lead to sys'. */
  ghost predicate Leads(cfg: Config, sys: System, evs: seq<Event>, sys': System) {
    LegalRun(cfg, sys, evs) && Run(cfg, sys, evs) == sys'
  }

  lemma LeadsOn(cfg: Config, sys: System, evs: seq<Event>, sys1: System, ev: Event)
    requires Leads(cfg, sys, evs, sys1) && !sys1.ex.th.suspended && Legal(cfg, sys1, false, ev)
    ensures Leads(cfg, sys, evs + [ev], Apply(cfg, sys1, ev))
  {
    hide Legal, Apply;
    LegalOne(cfg, sys1, false, ev);
    LegalOn(cfg, sys, false, evs, [ev]);
    RunOn(cfg, sys, evs, [ev]);
  }

  ghost predicate Stands(sys: System, x: Scene, th: Thread, fr: Front) {
    Idle(sys.ex, x) && sys.ex.inp == Input([], 0) && sys.ex.th == th && !th.suspended && sys.fr == fr
  }

  function FreshThread(pc: PC): Thread { Thread(1, pc, false, false, BUBBLE, []) }

  function FreshScene(sys: System): Scene { Scene([], [], [], Barriers(0, {}), sys.ex.u.fus, true) }

  lemma FreshStands(cfg: Config, sys: System)
    requires Initial(sys)
    ensures Stands(sys, FreshScene(sys), FreshThread(sys.ex.th.pc), Front(1, sys.ex.th.pc, Running, []))
    ensures Leads(cfg, sys, [], sys)
  {
    var fus := sys.ex.u.fus;
    forall k | 0 <= k < |fus| ensures Unused(fus[k]) { assert fus[k] in fus; }
  }

  lemma DeliversOne(cfg: Config, sys: System, i: Inst)
    requires sys.fr.state == Running && !sys.ex.th.suspended && sys.ex.inp == Input([], 0)
    requires WellFormed(i) && i.stream == sys.fr.stream && i.pc == sys.fr.pc && Increasing(sys.ex.q.issued + [i])
    ensures Delivers(cfg, sys, [Some(i)]) && Reals([Some(i)]) == [i]
  {
    assert Reals([Some(i)]) == [i];
    assert Pending(sys.ex.inp) == [];
    assert sys.ex.q.issued + [] == sys.ex.q.issued;
    assert Path(cfg, i.pc, [i]);
  }

  function DeliveryOf(i: Inst): Event { Cycle(Clock([Some(i)], Holding())) }

  function ExecutionOf(e: IterEnv): Event { Cycle(Clock([], Once(e))) }

  /** Everything issued is older than i. */
  ghost predicate Newer(x: Scene, i: Inst) {
    Increasing(x.issued + [i]) && forall j | j in x.q :: j.id < i.id
  }

  /** The front end delivers one more instruction, which is issued. */
  lemma StepDelivery(cfg: Config, sys: System, x: Scene, th: Thread, fr: Front, i: Inst)
    requires Stands(sys, x, th, fr) && (x.q != [] ==> x.q[0].stream == th.stream) && Newer(x, i)
    requires Light(i) && i.stream == th.stream == fr.stream && i.pc == fr.pc && fr.state == Running
    ensures Legal(cfg, sys, false, DeliveryOf(i)) && !sys.ex.th.suspended
    ensures Stands(Apply(cfg, sys, DeliveryOf(i)), Entered(x, i), th.(branch := BUBBLE), fr.(pc := Next(cfg, i)))
  {
    DeliversOne(cfg, sys, i);
    CycleIsLegal(cfg, sys, [Some(i)], Holding());
    Delivery(cfg, sys.ex, x, i);
    assert End(cfg, fr.pc, [i]) == Next(cfg, i) && fr.signals + [] == fr.signals;
    hide Evaluate, Idle, Delivers, Legal, Newer, Entered;
  }

  /** The head is committed or dropped. */
  lemma StepExecution(cfg: Config, sys: System, x: Scene, th: Thread, fr: Front, e: IterEnv, th': Thread, o: Outcome)
    requires ValidConfig(cfg) && Stands(sys, x, th, fr) && x.q != [] && e.pcEvent.None? && !e.suspends
    requires (th', o) == TryInst(cfg, th.(branch := BUBBLE), x.bar.last, Free(x.q[0]), false, e)
    requires o.Done? && !o.fault && !th'.suspended
    requires IsStreamChange(th'.branch.reason) || |x.q| == 1 || x.q[1].stream == th'.stream
    ensures Legal(cfg, sys, false, ExecutionOf(e)) && !sys.ex.th.suspended
    ensures Stands(Apply(cfg, sys, ExecutionOf(e)), Left(x, Commits(o)), th',
                   fr.(signals := fr.signals + Wire(th'.branch)))
  {
    CycleIsLegal(cfg, sys, [], Once(e));
    Execution(cfg, sys.ex, x, e, th', o);
    hide Evaluate, Idle, Delivers, Legal, TryInst, Left;
  }

  lemma StepSignal(cfg: Config, sys: System, x: Scene, th: Thread, fr: Front)
    requires Stands(sys, x, th, fr) && fr.signals != []
    ensures Legal(cfg, sys, false, TakeSignal(false)) && sys.fr.signals != [] && !sys.ex.th.suspended
    ensures Stands(Apply(cfg, sys, TakeSignal(false)), x, th, React(fr, false))
  {
    assert !sys.ex.th.suspended;
    hide Idle;
  }

  // ---------- What a simple instruction does ----------

  /** The thread once i has taken effect and branched. */
  function Branched(th: Thread, i: Inst, target: PC): Thread {
    th.(stream := th.stream + 1, pc := target, log := th.log + [Took(i, target)],
        branch := BranchData(UnpredictedBranch, th.stream + 1, target))
  }

  function Stepped(th: Thread, i: Inst, target: PC): Thread {
    th.(pc := target, log := th.log + [Took(i, target)])
  }

  lemma Branches(cfg: Config, th: Thread, last: SeqNum, i: Inst, pc: PC)
    requires Light(i) && !i.quiesce && !(i.lastOp && i.serializing) && !i.predictedTaken
    requires !th.suspended && th.branch == BUBBLE && i.stream == th.stream
    ensures var th' := if pc != i.pc then Branched(th, i, cfg.advance(i, pc)) else Stepped(th, i, cfg.advance(i, pc));
      TryInst(cfg, th, last, Free(i), false, Executes(pc)) == (th', Done(true, false))
  {
  }

  lemma Drops(cfg: Config, th: Thread, last: SeqNum, i: Inst, e: IterEnv)
    requires i.stream != th.stream
    ensures TryInst(cfg, th, last, Free(i), false, e) == (th, Done(false, false))
  {
  }
}
