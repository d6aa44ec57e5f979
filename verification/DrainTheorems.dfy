/**
  Draining everything ends: cycle by cycle the oldest instruction in flight
  moves through its unit and leaves, nothing new is issued, and after a bounded
  number of cycles the stage is empty.
 */
module DrainTheorems {
  import opened Options
  import opened MinorTypes
  import opened QueueLemmas
  import opened QueueInvariants
  import opened UnitInvariants
  import opened DependencyInvariants
  import opened CommitSpec
  import opened CommitTheorems
  import opened IssueSpec
  import opened IssueTheorems
  import opened CycleSpec
  import opened CycleTheorems
  import opened Pipeline
  import opened StageRuns

  // ---------- The commit call of a cycle ----------

  /** What the surroundings grant the oldest instruction in flight at the beginning
      of the call: no PC event, and its response if it is in the LSQ. */
  ghost predicate Willing(s: State, e: IterEnv) {
    s.q.inFlight != [] ==> !HasPCEvent(s, e) && (s.q.inFlight[0].id in s.q.inLSQ ==> e.response)
  }

  lemma WorkFalls(cfg: Config, s: State, c: Ctl, onlyMicroops: bool, discard: bool, e: IterEnv)
    requires ExInv(s) && s.q.inFlight != [] && MayDiscard(s, discard)
    ensures Work(CommitIter(cfg, s, c, onlyMicroops, discard, e).0) <= Work(s)
  {
    IterShrinks(cfg, s, c, onlyMicroops, discard, e);
    var p := PickInst(cfg, s, c, onlyMicroops, e);
    if !HasPCEvent(s, e) && !p.NoPick? {
      IterCase(cfg, s, c, onlyMicroops, discard, e);
      hide ExInv, PickInst, TryInst, FinishU, LeaveQ, SendQ, ClearDests, CompleteBarrier;
    }
  }

  lemma StepWork(cfg: Config, s0: State, s: State, c: Ctl, onlyMicroops: bool, discard: bool, e: IterEnv)
    requires LoopInv(cfg, s0, s, c, discard) && CommitGuard(cfg, s, c)
    ensures s.q.inFlight != [] && Work(CommitIter(cfg, s, c, onlyMicroops, discard, e).0) <= Work(s)
  {
    hide ExInv, MayDiscard, CommitIter, CommitGuard, LoopInv, Work;
    LoopParts(cfg, s0, s, c, discard);
    GuardFacts(cfg, s, c);
    WorkFalls(cfg, s, c, onlyMicroops, discard, e);
  }

  lemma {:induction false} CallWork(cfg: Config, s: State, onlyMicroops: bool, discard: bool, env: nat -> IterEnv,
                                    k: nat, n: nat)
    requires ExInv(s) && MayDiscard(s, discard) && s.th.branch == BUBBLE && k <= n
    ensures Work(CommitUpTo(cfg, s, onlyMicroops, discard, env, n).0) <=
      Work(CommitUpTo(cfg, s, onlyMicroops, discard, env, k).0)
  {
    hide ExInv, MayDiscard, CommitIter, CommitGuard, LoopInv, Work;
    if k < n {
      CallWork(cfg, s, onlyMicroops, discard, env, k, n - 1);
      CommitUpToKeeps(cfg, s, onlyMicroops, discard, env, n - 1);
      var (s1, c1) := CommitUpTo(cfg, s, onlyMicroops, discard, env, n - 1);
      if CommitGuard(cfg, s1, c1) { StepWork(cfg, s, s1, c1, onlyMicroops, discard, env(n - 1)); }
    }
  }

  /** The head can be taken: its response is there, it needs no unit, or it is at the
      end of its unit. */
  lemma HeadPicked(cfg: Config, s: State, e: IterEnv)
    requires ExInv(s) && MayDiscard(s, true) && s.q.inFlight != [] && Willing(s, e) && 0 < cfg.memoryCommitLimit
    ensures var p := PickInst(cfg, s, CTL0, false, e);
      && !p.Early?
      && (p.NoPick? ==> Live(s.q, s.q.inFlight[0]) && !AtEndOfUnit(s.u, s.q.inFlight[0]))
  {
    var p := PickInst(cfg, s, CTL0, false, e);
    assert s.q.inFlight[0] in s.q.inFlight;
    if p.Early? { EarlyNotDiscarded(cfg, s, CTL0, false, true, e); }
    if s.q.inFlight[0].id in s.q.inLSQ { HeldHead(s.q); }
  }

  /** A call that discards: either an instruction leaves, or nothing changes and the
      head is on its way through its unit. */
  lemma DiscardCall(cfg: Config, s: State, env: nat -> IterEnv)
    requires ValidConfig(cfg) && ExInv(s) && MayDiscard(s, true) && s.th.branch == BUBBLE
    requires s.q.inFlight != [] && Willing(s, env(0)) && 0 < cfg.memoryCommitLimit
    ensures var s' := Commit(cfg, s, false, true, env).0;
      || Work(s') < Work(s)
      || (s' == s && Live(s.q, s.q.inFlight[0]) && !AtEndOfUnit(s.u, s.q.inFlight[0]))
  {
    var p := PickInst(cfg, s, CTL0, false, env(0));
    HeadPicked(cfg, s, env(0));
    assert CommitUpTo(cfg, s, false, true, env, 0) == (s, CTL0) && CommitGuard(cfg, s, CTL0);
    var (s1, c1) := CommitUpTo(cfg, s, false, true, env, 1);
    assert (s1, c1) == CommitIter(cfg, s, CTL0, false, true, env(0));
    if p.NoPick? {
      assert !CommitGuard(cfg, s1, c1);
      hide ExInv, CommitIter, CommitGuard;
      CommitSettled(cfg, s, false, true, env, 1, CommitBound(s));
    } else {
      assert TryInst(cfg, s.th, s.bar.last, p, true, env(0)).1 == Done(false, false);
      assert c1.completed;
      hide ExInv, CommitIter, CommitGuard, PickInst, TryInst;
      IterShrinks(cfg, s, CTL0, false, true, env(0));
      CallWork(cfg, s, false, true, env, 1, CommitBound(s));
    }
  }

  // ---------- A cycle ----------

  /** The state in which commit begins. */
  ghost function Drained(s: State, e: CycleEnv): State { Dumped(Begin(s, e)) }

  lemma DrainCycle(cfg: Config, s: State, e: CycleEnv)
    requires FullInv(s) && ValidConfig(cfg) && (BubbleLine(e.line) || LineOK(s, e.line)) && s.drain == DrainAllInsts
    ensures var s0 := Drained(s, e);
      && ExInv(s0) && MayDiscard(s0, true) && s0.q == s.q && s0.u == s.u && s0.th.branch == BUBBLE
      && var s1 := Commit(cfg, s0, false, true, e.commit).0; Evaluate(cfg, s, e) == s1.(u := AdvanceUnits(s1.u))
    ensures Evaluate(cfg, s, e).inp == Input([], 0) && Evaluate(cfg, s, e).drain == DrainAllInsts
  {
    var s0 := Drained(s, e);
    BeginKeeps(s, e);
    assert ExInv(s0) && s0.drain == DrainAllInsts;
    DrainedMayDiscard(s0);
    DumpFirst(cfg, Begin(s, e), e);
    DumpedArgs(Begin(s, e), e);
    EmptyInput(s, e);
    CommitKeeps(cfg, s0, false, true, e.commit);
    var s1 := Commit(cfg, s0, false, true, e.commit).0;
    IssuesNone(cfg, s1, e.issue);
    hide FullInv, ExInv, Commit, Issue, AdvanceUnits, MayDiscard;
    assert s0.(inp := DumpInput(s0.inp)) == s0;
  }

  lemma EmptyInput(s: State, e: CycleEnv)
    requires FullInv(s) && (BubbleLine(e.line) || LineOK(s, e.line)) && s.drain == DrainAllInsts
    ensures Drained(s, e).inp == Input([], 0)
  {
    ArriveKeeps(s, e.line);
    DumpIsEmpty(Arrive(s.inp, e.line));
  }

  /** No unit is deeper than d. */
  ghost predicate Depth(u: Units, d: nat) { forall f | 0 <= f < |u.fus| :: |u.fus[f].pipe| <= d }

  lemma DepthAdvance(u: Units, d: nat)
    requires Depth(u, d)
    ensures Depth(AdvanceUnits(u), d)
  {
  }

  lemma IterDepth(cfg: Config, s: State, c: Ctl, onlyMicroops: bool, discard: bool, e: IterEnv, d: nat)
    requires Depth(s.u, d) && s.q.inFlight != []
    ensures Depth(CommitIter(cfg, s, c, onlyMicroops, discard, e).0.u, d)
  {
    var p := PickInst(cfg, s, c, onlyMicroops, e);
    if !HasPCEvent(s, e) && !p.NoPick? {
      DepthFinish(s.u, p, TryInst(cfg, s.th, s.bar.last, p, discard, e).1, d);
    }
    hide PickInst, TryInst, LeaveQ, SendQ, ClearDests, CompleteBarrier, FinishU, Depth;
  }

  lemma DepthFinish(u: Units, p: Pick, o: Outcome, d: nat)
    requires Depth(u, d) && !p.NoPick?
    ensures Depth(FinishU(u, p, o), d)
  {
  }

  lemma {:induction false} DepthCommit(cfg: Config, s: State, onlyMicroops: bool, discard: bool, env: nat -> IterEnv,
                                       k: nat, d: nat)
    requires Depth(s.u, d)
    ensures Depth(CommitUpTo(cfg, s, onlyMicroops, discard, env, k).0.u, d)
  {
    hide CommitIter, Depth;
    if k > 0 {
      DepthCommit(cfg, s, onlyMicroops, discard, env, k - 1, d);
      var (s1, c1) := CommitUpTo(cfg, s, onlyMicroops, discard, env, k - 1);
      if CommitGuard(cfg, s1, c1) { IterDepth(cfg, s1, c1, onlyMicroops, discard, env(k - 1), d); }
    }
  }

  // ---------- How long it takes ----------

  /** d cycles for each of so many. */
  ghost function Budget(work: nat, d: nat): nat { if work == 0 then 0 else d + Budget(work - 1, d) }

  lemma {:induction false} BudgetIs(work: nat, d: nat)
    ensures Budget(work, d) == work * d
  {
    if work > 0 {
      BudgetIs(work - 1, d);
      assert (work - 1) * d + d == work * d;
    }
  }

  lemma {:induction false} BudgetGrows(a: nat, b: nat, d: nat)
    requires a <= b
    ensures Budget(a, d) <= Budget(b, d)
  {
    if a < b { BudgetGrows(a, b - 1, d); }
  }

  /** n such cycles are enough to empty the stage: the head, in slot k of its unit,
      needs one for each slot on the way and one to leave; the others d each. */
  ghost predicate EnoughFrom(s: State, d: nat, n: nat, k: nat)
    requires s.q.inFlight != []
  {
    k < d && InSlot(s.q, s.u, k) && Budget(Work(s) - 1, d) + k + 1 <= n
  }

  ghost predicate Enough(s: State, d: nat, n: nat) {
    s.q.inFlight != [] ==> exists k: nat :: EnoughFrom(s, d, n, k)
  }

  lemma EnoughAtFirst(s: State, d: nat)
    requires ExInv(s) && Depth(s.u, d) && 0 < d
    ensures Enough(s, d, Budget(Work(s), d))
  {
    var k := HeadInSlot(s.q, s.u, s.th.stream);
    hide ExInv, InSlot;
    if s.q.inFlight != [] { assert EnoughFrom(s, d, Budget(Work(s), d), k); }
  }

  lemma UnitParts(s: State)
    requires ExInv(s)
    ensures OrderInv(s.q) && UnitInv(s.q, s.u, s.th.stream)
  {
  }

  lemma EnoughMoves(s: State, s': State, d: nat, n: nat)
    requires ExInv(s) && Enough(s, d, n) && s.q.inFlight != [] && s'.q == s.q && s'.u == AdvanceUnits(s.u)
    requires Live(s.q, s.q.inFlight[0]) && !AtEndOfUnit(s.u, s.q.inFlight[0])
    ensures 0 < n && Enough(s', d, n - 1)
  {
    hide ExInv, InSlot, Live, AtEndOfUnit, Budget, AdvanceUnits, UnitInv, OrderInv;
    var k: nat :| EnoughFrom(s, d, n, k);
    UnitParts(s);
    SlotMoves(s.q, s.u, s.th.stream, k);
    assert EnoughFrom(s', d, n - 1, k - 1);
  }

  lemma EnoughShrinks(s: State, s': State, d: nat, n: nat)
    requires ExInv(s') && Enough(s, d, n) && s.q.inFlight != [] && Work(s') < Work(s) && Depth(s'.u, d)
    ensures 0 < n && Enough(s', d, n - 1)
  {
    var k: nat :| EnoughFrom(s, d, n, k);
    EnoughAtFirst(s', d);
    hide ExInv, InSlot, Depth, Budget;
    BudgetGrows(Work(s'), Work(s) - 1, d);
    if s'.q.inFlight != [] {
      var k': nat :| EnoughFrom(s', d, Budget(Work(s'), d), k');
      assert EnoughFrom(s', d, n - 1, k');
    }
  }

  /** One cycle is one step towards an empty stage. */
  lemma DrainStepsOn(cfg: Config, s: State, e: CycleEnv, d: nat, n: nat)
    requires FullInv(s) && ValidConfig(cfg) && (BubbleLine(e.line) || LineOK(s, e.line)) && s.drain == DrainAllInsts
    requires 0 < cfg.memoryCommitLimit && Depth(s.u, d) && Willing(Drained(s, e), e.commit(0)) && Enough(s, d, n)
    ensures var s' := Evaluate(cfg, s, e);
      && s'.inp == Input([], 0) && s'.drain == DrainAllInsts && Work(s') <= Work(s) && Depth(s'.u, d)
      && (s.q.inFlight != [] ==> 0 < n) && Enough(s', d, if s.q.inFlight == [] then n else n - 1)
  {
    var s0, s' := Drained(s, e), Evaluate(cfg, s, e);
    DrainCycle(cfg, s, e);
    EvaluateKeeps(cfg, s, e);
    var s1 := Commit(cfg, s0, false, true, e.commit).0;
    DepthCommit(cfg, s0, false, true, e.commit, CommitBound(s0), d);
    CallWork(cfg, s0, false, true, e.commit, 0, CommitBound(s0));
    hide Evaluate, Drained, LineOK, BubbleLine, CommitUpTo, MayDiscard;
    DepthAdvance(s1.u, d);
    assert ExInv(s');
    if s.q.inFlight != [] {
      DiscardCall(cfg, s0, e.commit);
      hide Commit, AdvanceUnits, ExInv, FullInv, Live, AtEndOfUnit, Willing, Enough, Depth;
      EnoughSame(s, s0, d, n);
      if Work(s1) < Work(s0) { EnoughShrinks(s0, s', d, n); } else { EnoughMoves(s0, s', d, n); }
    } else {
      assert Work(s') == 0 by { NoMemory(s); }
    }
  }

  lemma EnoughSame(s: State, s': State, d: nat, n: nat)
    requires Enough(s, d, n) && s'.q == s.q && s'.u == s.u
    ensures Enough(s', d, n) && Work(s') == Work(s)
  {
    if s.q.inFlight != [] {
      var k: nat :| EnoughFrom(s, d, n, k);
      assert EnoughFrom(s', d, n, k);
    }
  }

  lemma NoMemory(s: State)
    requires FullInv(s) && s.q.inFlight == []
    ensures Work(s) == 0
  {
  }

  // ---------- Runs ----------

  ghost function Cycles(evs: seq<Event>): nat {
    if evs == [] then 0 else (if evs[0].Cycle? then 1 else 0) + Cycles(evs[1..])
  }

  /** In every cycle the oldest instruction is granted what it needs, and the drain is
      not called off. */
  ghost predicate WillingRun(cfg: Config, sys: System, evs: seq<Event>)
    requires PossibleRun(cfg, sys, evs)
    decreases |evs|
  {
    evs != [] ==>
      && !evs[0].Resume?
      && (evs[0].Cycle? ==> Willing(Drained(sys.ex, evs[0].env), evs[0].env.commit(0)))
      && WillingRun(cfg, Apply(cfg, sys, evs[0]), evs[1..])
  }

  ghost predicate Towards(sys: System, d: nat, n: nat) {
    StageInv(sys) && sys.ex.drain == DrainAllInsts && Depth(sys.ex.u, d) && Enough(sys.ex, d, n)
  }

  lemma EventTowards(cfg: Config, sys: System, ev: Event, d: nat, n: nat)
    requires Towards(sys, d, n) && ValidConfig(cfg) && 0 < cfg.memoryCommitLimit && Possible(cfg, sys, ev)
    requires !ev.Resume? && (ev.Cycle? ==> Willing(Drained(sys.ex, ev.env), ev.env.commit(0)))
    ensures var sys' := Apply(cfg, sys, ev);
      && Towards(sys', d, if ev.Cycle? && 0 < n then n - 1 else n)
      && (ev.Cycle? ==> sys'.ex.inp == Input([], 0))
      && (n == 0 ==> sys.ex.q.inFlight == [])
  {
    hide StageInv, Forward, Willing, Drained, Delivers, Depth, Enough, Evaluate;
    EventStage(cfg, sys, ev);
    NoneNeeded(sys.ex, d, n);
    if ev.Cycle? {
      CycleTowards(cfg, sys, ev.env, d, n);
    } else {
      SameQueues(cfg, sys, ev);
      EnoughSame(sys.ex, Apply(cfg, sys, ev).ex, d, n);
    }
  }

  lemma SameQueues(cfg: Config, sys: System, ev: Event)
    requires Possible(cfg, sys, ev) && !ev.Cycle? && !ev.Resume?
    ensures var s := Apply(cfg, sys, ev).ex;
      && s.q == sys.ex.q && s.u == sys.ex.u && s.inp == sys.ex.inp
      && (sys.ex.drain == DrainAllInsts ==> s.drain == sys.ex.drain)
  {
  }

  lemma CycleTowards(cfg: Config, sys: System, e: CycleEnv, d: nat, n: nat)
    requires Towards(sys, d, n) && ValidConfig(cfg) && 0 < cfg.memoryCommitLimit && Possible(cfg, sys, Cycle(e))
    requires Willing(Drained(sys.ex, e), e.commit(0))
    ensures var s' := Evaluate(cfg, sys.ex, e);
      && s'.drain == DrainAllInsts && Depth(s'.u, d) && Enough(s', d, if 0 < n then n - 1 else n)
      && s'.inp == Input([], 0)
  {
    hide StageInv, LineOK, BubbleLine, Willing, Drained, Delivers, Depth, Enough, Evaluate;
    NoneNeeded(sys.ex, d, n);
    StageParts(cfg, sys, e);
    DrainStepsOn(cfg, sys.ex, e, d, n);
    if sys.ex.q.inFlight == [] { EmptyEnough(cfg, sys.ex, e, d, if 0 < n then n - 1 else n); }
  }

  lemma NoneNeeded(s: State, d: nat, n: nat)
    requires Enough(s, d, n)
    ensures n == 0 ==> s.q.inFlight == []
  {
    if s.q.inFlight != [] {
      var k: nat :| EnoughFrom(s, d, n, k);
    }
  }

  lemma EmptyEnough(cfg: Config, s: State, e: CycleEnv, d: nat, n: nat)
    requires FullInv(s) && s.q.inFlight == [] && Work(Evaluate(cfg, s, e)) <= Work(s)
    ensures Enough(Evaluate(cfg, s, e), d, n)
  {
    NoMemory(s);
    hide Evaluate, FullInv;
  }

  lemma {:induction false} RunTowards(cfg: Config, sys: System, evs: seq<Event>, d: nat, n: nat)
    requires Towards(sys, d, n) && ValidConfig(cfg) && 0 < cfg.memoryCommitLimit
    requires PossibleRun(cfg, sys, evs) && WillingRun(cfg, sys, evs) && n <= Cycles(evs)
    ensures Run(cfg, sys, evs).ex.q.inFlight == []
    ensures Cycles(evs) > 0 || sys.ex.inp == Input([], 0) ==> Run(cfg, sys, evs).ex.inp == Input([], 0)
    decreases |evs|
  {
    hide Apply, Delivers, Towards;
    if evs == [] {
      TowardsEmpty(sys, d, n);
    } else {
      EventTowards(cfg, sys, evs[0], d, n);
      if !evs[0].Cycle? { SameQueues(cfg, sys, evs[0]); }
      RunTowards(cfg, Apply(cfg, sys, evs[0]), evs[1..], d, if evs[0].Cycle? && 0 < n then n - 1 else n);
    }
  }

  lemma TowardsEmpty(sys: System, d: nat, n: nat)
    requires Towards(sys, d, n)
    ensures n == 0 ==> sys.ex.q.inFlight == []
  {
    hide StageInv, Depth;
    NoneNeeded(sys.ex, d, n);
  }

  /** From any state of any run in which everything is being drained: once as many
      cycles have passed as there are instructions in the two queues, times the depth
      of the deepest unit, nothing is in flight and no input is left. */
  lemma DrainEnds(cfg: Config, sys: System, evs: seq<Event>, d: nat)
    requires StageInv(sys) && ValidConfig(cfg) && 0 < cfg.memoryCommitLimit && sys.ex.drain == DrainAllInsts
    requires 0 < d && Depth(sys.ex.u, d) && PossibleRun(cfg, sys, evs) && WillingRun(cfg, sys, evs)
    requires Work(sys.ex) * d < Cycles(evs)
    ensures var s := Run(cfg, sys, evs).ex; s.q.inFlight == [] && s.inp == Input([], 0)
  {
    StageEx(sys);
    BudgetIs(Work(sys.ex), d);
    hide StageInv, ExInv, Depth, Enough, PossibleRun, WillingRun, Cycles, Run, Budget, Work;
    EnoughAtFirst(sys.ex, d);
    RunTowards(cfg, sys, evs, d, Budget(Work(sys.ex), d));
  }

  lemma StageEx(sys: System)
    requires StageInv(sys)
    ensures ExInv(sys.ex)
  {
  }
}
