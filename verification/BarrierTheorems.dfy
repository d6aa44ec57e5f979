/**
  Barriers that have committed and wait in the store buffer.  The LSQ remembers
  one barrier only; these lemmas say in which runs that is enough to hold
  younger memory references back, and which references overtake all the same.
 */
module BarrierTheorems {
  import opened Options
  import opened MinorTypes
  import opened Collections
  import opened QueueLemmas
  import opened QueueInvariants
  import opened UnitInvariants
  import opened DependencyInvariants
  import opened CommitSpec
  import opened CommitTheorems
  import opened IssueSpec
  import opened IssueTheorems
  import opened CycleSpec
  import opened CycleTheorems
  import opened Pipeline
  import opened StageRuns

  /** The remembered barrier is at least as young as every waiting one. */
  ghost predicate Remembers(bar: Barriers) { forall w | w in bar.waiting :: 0 < w <= bar.last }

  // ---------- What keeps it ----------

  lemma RememberIssue(q: Queues, bar: Barriers, x: Inst)
    requires BarrierInv(q, bar) && Remembers(bar) && LastId(q.issued) < x.id
    ensures Remembers(if x.barrier then bar.(last := x.id) else bar)
  {
  }

  lemma RememberCommit(q: Queues, bar: Barriers, x: Inst)
    requires BarrierInv(q, bar) && Remembers(bar) && x in q.inFlight && 0 < x.id
    ensures Remembers(CompleteBarrier(bar, x, true))
  {
  }

  /** A barrier that is dropped is forgotten too: this keeps the others remembered
      exactly if there are none or a younger barrier has been issued. */
  lemma RememberDiscard(bar: Barriers, x: Inst)
    requires Remembers(bar) && x.barrier
    ensures Remembers(CompleteBarrier(bar, x, false)) <==> bar.waiting == {} || x.id < bar.last
  {
    if bar.waiting != {} && x.id >= bar.last {
      var w := Element(bar.waiting);
      assert w in CompleteBarrier(bar, x, false).waiting;
    }
  }

  /** The store buffer lets barriers go oldest first. */
  ghost predicate OldestFirst(bar: Barriers, cleared: seq<SeqNum>)
    decreases cleared
  {
    cleared != [] ==>
      && (cleared[0] in bar.waiting ==> forall w | w in bar.waiting :: cleared[0] <= w)
      && OldestFirst(DropBarrier(bar, cleared[0]), cleared[1..])
  }

  lemma {:induction false} RememberStep(bar: Barriers, cleared: seq<SeqNum>)
    requires Remembers(bar) && OldestFirst(bar, cleared)
    ensures Remembers(StepLSQ(bar, cleared))
    decreases cleared
  {
    if cleared != [] {
      assert Remembers(DropBarrier(bar, cleared[0]));
      RememberStep(DropBarrier(bar, cleared[0]), cleared[1..]);
    }
  }

  // ---------- Commit ----------

  /** Its access is tried at the head of the queue and faults: nothing holds it back,
      and there is room for the request. */
  ghost predicate AccessFaults(s: State, p: Pick, e: IterEnv)
    requires !p.NoPick?
  {
    && p.inst.memRef && !p.Response? && !p.Early? && e.canRequest && e.initFault
    && !(0 < s.bar.last < p.inst.id) && !e.delayed && (s.th.suspended ==> e.interrupted)
  }

  /** The instruction picked by this iteration leaves without having committed: it is
      of another stream, being discarded, or its access faults. */
  ghost predicate Dropped(s: State, p: Pick, discard: bool, e: IterEnv)
    requires !p.NoPick?
  {
    p.inst.stream != s.th.stream || discard || AccessFaults(s, p, e)
  }

  /** The youngest barrier is about to be dropped while another waits. */
  ghost predicate Forgets(cfg: Config, s: State, c: Ctl, onlyMicroops: bool, discard: bool, e: IterEnv)
    requires s.q.inFlight != []
  {
    var p := PickInst(cfg, s, c, onlyMicroops, e);
    && !HasPCEvent(s, e) && !p.NoPick?
    && p.inst.barrier && s.bar.last <= p.inst.id && s.bar.waiting != {} && Dropped(s, p, discard, e)
  }

  /** A commit iteration keeps every waiting barrier remembered exactly if it does
      not drop the youngest barrier while another waits. */
  lemma IterRemembers(cfg: Config, s: State, c: Ctl, onlyMicroops: bool, discard: bool, e: IterEnv)
    requires ExInv(s) && s.q.inFlight != [] && MayDiscard(s, discard) && Remembers(s.bar)
    ensures Remembers(CommitIter(cfg, s, c, onlyMicroops, discard, e).0.bar) <==>
      !Forgets(cfg, s, c, onlyMicroops, discard, e)
  {
    var p := PickInst(cfg, s, c, onlyMicroops, e);
    if !HasPCEvent(s, e) && !p.NoPick? {
      var (th, o) := TryInst(cfg, s.th, s.bar.last, p, discard, e);
      IterCase(cfg, s, c, onlyMicroops, discard, e);
      HeadLeaves(s, p, discard, o);
      if p.inst.barrier { LeavesUncommitted(cfg, s, p, discard, e); }
      hide TryInst, PickInst, FinishU, ClearDests, ExInv, Considers, Dropped;
      LeaveRemembers(s, p, th, o);
    }
  }

  /** Which barriers leave uncommitted. */
  lemma LeavesUncommitted(cfg: Config, s: State, p: Pick, discard: bool, e: IterEnv)
    requires !p.NoPick? && WellFormed(p.inst) && p.inst.barrier
    ensures var o := TryInst(cfg, s.th, s.bar.last, p, discard, e).1;
      Dropped(s, p, discard, e) <==> Leaves(o) && !Commits(o)
  {
  }

  lemma HeadLeaves(s: State, p: Pick, discard: bool, o: Outcome)
    requires ExInv(s) && Considers(s, p, discard, o)
    ensures BarrierInv(s.q, s.bar) && s.q.inFlight != [] && p.inst in s.q.inFlight && WellFormed(p.inst)
    ensures p.Response? ==> s.q.lsq != []
  {
  }

  lemma LeaveRemembers(s: State, p: Pick, th: Thread, o: Outcome)
    requires BarrierInv(s.q, s.bar) && Remembers(s.bar) && s.q.inFlight != [] && !p.NoPick?
    requires p.inst in s.q.inFlight && 0 < p.inst.id
    requires p.Response? ==> s.q.lsq != []
    ensures Remembers(Finish(s, p, th, o).bar) <==>
      !(p.inst.barrier && s.bar.last <= p.inst.id && s.bar.waiting != {} && Leaves(o) && !Commits(o))
  {
    hide FinishU, ClearDests, Remembers;
    if Leaves(o) && p.inst.barrier {
      if Commits(o) { RememberCommit(s.q, s.bar, p.inst); } else { RememberDiscard(s.bar, p.inst); }
    }
  }

  /** No iteration before the k-th forgets a barrier. */
  ghost predicate Keeps(cfg: Config, s: State, onlyMicroops: bool, discard: bool, env: nat -> IterEnv, k: nat) {
    forall j: nat | j < k ::
      var (s1, c1) := CommitUpTo(cfg, s, onlyMicroops, discard, env, j);
      CommitGuard(cfg, s1, c1) ==> !Forgets(cfg, s1, c1, onlyMicroops, discard, env(j))
  }

  lemma {:induction false} CallRemembers(cfg: Config, s: State, onlyMicroops: bool, discard: bool,
                                         env: nat -> IterEnv, k: nat)
    requires ExInv(s) && MayDiscard(s, discard) && s.th.branch == BUBBLE
    requires Remembers(s.bar) && Keeps(cfg, s, onlyMicroops, discard, env, k)
    ensures Remembers(CommitUpTo(cfg, s, onlyMicroops, discard, env, k).0.bar)
  {
    hide ExInv, MayDiscard, Remembers, CommitIter, LoopInv, Work, Forgets, CommitGuard, Keeps;
    if k > 0 {
      KeepsAt(cfg, s, onlyMicroops, discard, env, k);
      CallRemembers(cfg, s, onlyMicroops, discard, env, k - 1);
      CommitUpToKeeps(cfg, s, onlyMicroops, discard, env, k - 1);
      var (s1, c1) := CommitUpTo(cfg, s, onlyMicroops, discard, env, k - 1);
      if CommitGuard(cfg, s1, c1) {
        LoopParts(cfg, s, s1, c1, discard);
        GuardFacts(cfg, s1, c1);
        IterRemembers(cfg, s1, c1, onlyMicroops, discard, env(k - 1));
      }
    }
  }

  lemma KeepsAt(cfg: Config, s: State, onlyMicroops: bool, discard: bool, env: nat -> IterEnv, k: nat)
    requires Keeps(cfg, s, onlyMicroops, discard, env, k) && 0 < k
    ensures Keeps(cfg, s, onlyMicroops, discard, env, k - 1)
    ensures var (s1, c1) := CommitUpTo(cfg, s, onlyMicroops, discard, env, k - 1);
      CommitGuard(cfg, s1, c1) ==> !Forgets(cfg, s1, c1, onlyMicroops, discard, env(k - 1))
  {
  }

  // ---------- Issue ----------

  lemma IterIssueRemembers(cfg: Config, s: State, c: IssueCtl, e: IssueEnv)
    requires FullInv(s) && HasInput(s.inp) && s.inp.index < |s.inp.lines[0]| && Remembers(s.bar)
    ensures Remembers(IssueIter(cfg, s, c, e).0.bar)
  {
    hide ExInv, PendingInv, LinesInv, FindFU, IssueU, Remembers, BarrierInv;
    var slot := s.inp.lines[0][s.inp.index];
    if slot.Some? {
      var x := slot.value;
      TakeKeeps(s, s.(q := IssueQ(s.q, x), inp := NextSlot(s.inp)));
      BarrierPart(s);
      RememberIssue(s.q, s.bar, x);
    }
  }

  lemma BarrierPart(s: State)
    requires ExInv(s)
    ensures BarrierInv(s.q, s.bar)
  {
  }

  lemma {:induction false} IssueRemembers(cfg: Config, s: State, env: nat -> IssueEnv, k: nat)
    requires FullInv(s) && ValidConfig(cfg) && Remembers(s.bar)
    ensures Remembers(IssueUpTo(cfg, s, env, k).0.bar)
  {
    hide FullInv, Remembers, IssueIter, IssueInv;
    if k > 0 {
      IssueRemembers(cfg, s, env, k - 1);
      var n := IssueUpToKeeps(cfg, s, env, k - 1);
      var (s1, c1) := IssueUpTo(cfg, s, env, k - 1);
      if c1.going && HasInput(s1.inp) && InRange(s1.inp) {
        IterIssueRemembers(cfg, s1, c1, env(k - 1));
      }
    }
  }

  // ---------- Runs ----------

  /** The k-th state of the cycle's commit call. */
  ghost function CallAt(cfg: Config, s: State, e: CycleEnv, k: nat): (State, Ctl) {
    var (s1, onlyMicroops, discard) := CommitArgs(Begin(s, e), e);
    CommitUpTo(cfg, s1, onlyMicroops, discard, e.commit, k)
  }

  /** The store buffer clears oldest first and, up to the k-th iteration, no
      barrier is forgotten. */
  ghost predicate OrderlyUpTo(cfg: Config, s: State, e: CycleEnv, k: nat) {
    var (s1, onlyMicroops, discard) := CommitArgs(Begin(s, e), e);
    && OldestFirst(s.bar, e.cleared)
    && (CallsCommit(Begin(s, e), e) ==> Keeps(cfg, s1, onlyMicroops, discard, e.commit, k))
  }

  ghost predicate Orderly(cfg: Config, s: State, ev: Event) {
    ev.Cycle? ==> forall k: nat :: OrderlyUpTo(cfg, s, ev.env, k)
  }

  ghost predicate OrderlyRun(cfg: Config, sys: System, evs: seq<Event>)
    requires PossibleRun(cfg, sys, evs)
    decreases |evs|
  {
    evs != [] ==> Orderly(cfg, sys.ex, evs[0]) && OrderlyRun(cfg, Apply(cfg, sys, evs[0]), evs[1..])
  }

  /** The state in which commit begins. */
  lemma CallBegins(s: State, e: CycleEnv)
    requires FullInv(s) && (BubbleLine(e.line) || LineOK(s, e.line))
    requires Remembers(s.bar) && OldestFirst(s.bar, e.cleared)
    ensures var (s1, _, discard) := CommitArgs(Begin(s, e), e);
      && s1 == Dumped(Begin(s, e)) && FullInv(s1) && ExInv(s1) && MayDiscard(s1, discard)
      && s1.th.branch == BUBBLE && Remembers(s1.bar)
  {
    BeginKeeps(s, e);
    RememberStep(s.bar, e.cleared);
    var s1 := Dumped(Begin(s, e));
    assert s1 == CommitArgs(Begin(s, e), e).0 && s1.bar == StepLSQ(s.bar, e.cleared) && s1.drain == s.drain;
    hide FullInv, Begin, Dumped, Remembers, OldestFirst, LineOK, BubbleLine, StepLSQ;
    if s.drain == DrainAllInsts { DrainedMayDiscard(s1); }
    FullParts(s1);
  }

  lemma FullParts(s: State)
    requires FullInv(s)
    ensures ExInv(s)
  {
  }

  /** Commit and what follows it keep every waiting barrier remembered. */
  lemma WorkRemembers(cfg: Config, s: State, e: CycleEnv)
    requires FullInv(s) && ExInv(s) && ValidConfig(cfg) && s.th.branch == BUBBLE && Remembers(s.bar) && s == Dumped(s)
    requires var (s1, onlyMicroops, discard) := CommitArgs(s, e);
      && s1 == s && MayDiscard(s1, discard)
      && (CallsCommit(s, e) ==> Keeps(cfg, s1, onlyMicroops, discard, e.commit, CommitBound(s1)))
    ensures Remembers(CommitAndIssue(cfg, s, e).bar)
  {
    hide FullInv, ExInv, Remembers, MayDiscard, Keeps, CommitUpTo, IssueUpTo, DumpInput;
    var (_, onlyMicroops, discard) := CommitArgs(s, e);
    if !InterruptTaken(s, e) {
      if s.drain != DrainHaltFetch {
        CallRemembers(cfg, s, onlyMicroops, discard, e.commit, CommitBound(s));
      }
      var s1 := HaltPhase(CommitPhase(cfg, s, e));
      CommitPhaseKeeps(cfg, s, e);
      HaltPhaseKeeps(CommitPhase(cfg, s, e));
      IssueRemembers(cfg, s1, e.issue, |Remaining(s1.inp)| + 1);
    }
  }

  lemma CycleRemembers(cfg: Config, s: State, e: CycleEnv)
    requires FullInv(s) && ValidConfig(cfg) && (BubbleLine(e.line) || LineOK(s, e.line))
    requires Remembers(s.bar) && Orderly(cfg, s, Cycle(e))
    ensures Remembers(Evaluate(cfg, s, e).bar)
  {
    var s1 := Dumped(Begin(s, e));
    assert Cycle(e).env == e && OrderlyUpTo(cfg, s, e, CommitBound(s1));
    CallBegins(s, e);
    DumpFirst(cfg, Begin(s, e), e);
    DumpedArgs(Begin(s, e), e);
    hide FullInv, ExInv, Remembers, MayDiscard, Keeps, Begin, Dumped, CommitAndIssue, CommitArgs, CallsCommit, LineOK,
        BubbleLine, OldestFirst, AdvanceUnits;
    WorkRemembers(cfg, s1, e);
  }

  /** In every orderly run each waiting barrier stays remembered. */
  lemma {:induction false} RunRemembers(cfg: Config, sys: System, evs: seq<Event>)
    requires StageInv(sys) && ValidConfig(cfg) && PossibleRun(cfg, sys, evs)
    requires Remembers(sys.ex.bar) && OrderlyRun(cfg, sys, evs)
    ensures Remembers(Run(cfg, sys, evs).ex.bar)
    decreases |evs|
  {
    hide StageInv, Delivers, Forward, Orderly, Remembers, Evaluate, LineOK, BubbleLine;
    if evs != [] {
      EventStage(cfg, sys, evs[0]);
      if evs[0].Cycle? {
        StageParts(cfg, sys, evs[0].env);
        CycleRemembers(cfg, sys.ex, evs[0].env);
      }
      RunRemembers(cfg, Apply(cfg, sys, evs[0]), evs[1..]);
    }
  }

  // ---------- Overtaking ----------

  /** A reference that is handed over while an older barrier w waits: the barrier
      remembered is not an older one, so w has been forgotten or a barrier at
      least as young as the reference has been issued. */
  lemma Overtakes(cfg: Config, s: State, c: Ctl, onlyMicroops: bool, discard: bool, e: IterEnv, w: SeqNum)
    requires ExInv(s) && s.q.inFlight != [] && MayDiscard(s, discard)
    requires CommitIter(cfg, s, c, onlyMicroops, discard, e).0.q.sent != s.q.sent
    requires s.q.inFUMem != [] && w in s.bar.waiting && w < s.q.inFUMem[0].id
    ensures s.bar.last == 0 || s.q.inFUMem[0].id <= s.bar.last
    ensures Remembers(s.bar) ==> s.q.inFUMem[0].id <= s.bar.last
  {
    hide QueueInv, UnitInv, ScoreInv, BarrierInv, WaitInv, StreamInv, MayDiscard, Remembers;
    var p := PickInst(cfg, s, c, onlyMicroops, e);
    IterCase(cfg, s, c, onlyMicroops, discard, e);
    QueueParts(s.q);
    var o := TryInst(cfg, s.th, s.bar.last, p, discard, e).1;
    assert o.Send?;
    PickedIsNext(s, p);
    assert !(0 < s.bar.last < p.inst.id);
    if Remembers(s.bar) { RememberedLast(s.bar, w); }
  }

  lemma RememberedLast(bar: Barriers, w: SeqNum)
    requires Remembers(bar) && w in bar.waiting
    ensures 0 < w <= bar.last
  {
  }

  /** A barrier at least as young as x has been issued and is the one remembered. */
  ghost predicate YoungerBarrier(s: State, x: Inst) {
    && x.id <= s.bar.last
    && (s.bar.last in s.bar.waiting || exists b | b in s.q.inFlight :: b.barrier && b.id == s.bar.last)
  }

  /** The k-th iteration of the cycle hands over a reference past the waiting w. */
  ghost predicate HandsOver(cfg: Config, s: State, e: CycleEnv, k: nat, w: SeqNum) {
    var (_, onlyMicroops, discard) := CommitArgs(Begin(s, e), e);
    var (s1, c1) := CallAt(cfg, s, e, k);
    && CallsCommit(Begin(s, e), e) && CommitGuard(cfg, s1, c1)
    && CommitIter(cfg, s1, c1, onlyMicroops, discard, e.commit(k)).0.q.sent != s1.q.sent
    && s1.q.inFUMem != [] && w in s1.bar.waiting && w < s1.q.inFUMem[0].id
  }

  lemma CycleOvertakes(cfg: Config, s: State, e: CycleEnv, k: nat, w: SeqNum)
    requires FullInv(s) && (BubbleLine(e.line) || LineOK(s, e.line)) && Remembers(s.bar)
    requires OrderlyUpTo(cfg, s, e, k) && HandsOver(cfg, s, e, k, w)
    ensures var s1 := CallAt(cfg, s, e, k).0; s1.q.inFUMem != [] && YoungerBarrier(s1, s1.q.inFUMem[0])
  {
    CallBegins(s, e);
    var (s0, onlyMicroops, discard) := CommitArgs(Begin(s, e), e);
    var (s1, c1) := CallAt(cfg, s, e, k);
    hide FullInv, ExInv, Remembers, MayDiscard, Begin, Dumped, CommitArgs, LineOK, BubbleLine, OldestFirst, CommitUpTo,
        CommitIter, LoopInv, Work, Keeps;
    CallRemembers(cfg, s0, onlyMicroops, discard, e.commit, k);
    CommitUpToKeeps(cfg, s0, onlyMicroops, discard, e.commit, k);
    LoopParts(cfg, s0, s1, c1, discard);
    GuardFacts(cfg, s1, c1);
    Overtakes(cfg, s1, c1, onlyMicroops, discard, e.commit(k), w);
    TracedLast(s1);
    RememberedLast(s1.bar, w);
  }

  lemma TracedLast(s: State)
    requires ExInv(s)
    ensures Traced(s.q, s.bar)
  {
  }

  /** From a fresh system, by any run in which the store buffer clears oldest first
      and no barrier is forgotten: a reference is handed over past an older waiting
      barrier only if a barrier at least as young as it has been issued. */
  lemma OvertakenOnlyBetween(cfg: Config, sys: System, evs: seq<Event>, e: CycleEnv, k: nat, w: SeqNum)
    requires Initial(sys) && ValidConfig(cfg) && PossibleRun(cfg, sys, evs) && OrderlyRun(cfg, sys, evs)
    requires var s := Run(cfg, sys, evs);
      Possible(cfg, s, Cycle(e)) && OrderlyUpTo(cfg, s.ex, e, k) && HandsOver(cfg, s.ex, e, k, w)
    ensures var s1 := CallAt(cfg, Run(cfg, sys, evs).ex, e, k).0;
      s1.q.inFUMem != [] && YoungerBarrier(s1, s1.q.inFUMem[0])
  {
    assert Remembers(sys.ex.bar);
    InitialStage(sys);
    hide StageInv, Initial, Remembers, Run, PossibleRun, OrderlyRun, LineOK, BubbleLine, OrderlyUpTo, HandsOver,
        YoungerBarrier, CallAt;
    RunStage(cfg, sys, evs);
    RunRemembers(cfg, sys, evs);
    StageParts(cfg, Run(cfg, sys, evs), e);
    CycleOvertakes(cfg, Run(cfg, sys, evs).ex, e, k, w);
  }
}
