/**
  Laws over whole runs that tie what the stage does to its own history: where
  interrupts, drains and PC events may fall, what a serializing instruction cuts
  off, and how full the store buffer and the LSQ can get.
 */
module RunLaws {
  import opened Options
  import opened MinorTypes
  import opened QueueLemmas
  import opened QueueInvariants
  import opened UnitInvariants
  import opened DependencyInvariants
  import opened CommitSpec
  import opened CommitTheorems
  import opened CommitCalls
  import opened CommitLaws
  import opened IssueSpec
  import opened IssueTheorems
  import opened IssueLaws
  import opened CycleSpec
  import opened CycleTheorems
  import opened Pipeline
  import opened StageRuns
  import opened BarrierTheorems

  // ---------- Interrupts ----------

  /** Between two instructions: the last to complete ended a macro-op, and no access is
      in flight. */
  ghost predicate Between(s: State, accesses: bool) { AtEnd(s.q.completed) && !accesses }

  ghost predicate CanInterrupt(s: State, e: CycleEnv) {
    s.drain == NotDraining && e.interrupted && e.handler.Some? && Between(s, e.accessesBefore)
  }

  lemma EndOf(s: State)
    requires HistInv(s)
    ensures s.lastEnd <==> AtEnd(s.q.completed)
  {
  }

  /** Commit never signals an interrupt itself. */
  lemma CommitPhaseReason(cfg: Config, s: State, e: CycleEnv)
    requires FullInv(s) && s.th.branch == BUBBLE
    ensures HaltPhase(CommitPhase(cfg, s, e)).th.branch.reason != Interrupt
  {
    hide FullInv, Commit;
    match s.drain
    case NotDraining => CommitKeeps(cfg, s, e.interrupted, false, e.commit);
    case DrainCurrentInst =>
    case DrainHaltFetch =>
    case DrainAllInsts =>
      DumpedKeeps(s);
      CommitKeeps(cfg, s.(inp := DumpInput(s.inp)), false, true, e.commit);
  }

  lemma WorkInterrupts(cfg: Config, s: State, e: CycleEnv)
    requires FullInv(s) && ValidConfig(cfg) && s.th.branch == BUBBLE && HistInv(s)
    ensures var s' := CommitAndIssue(cfg, s, e);
      && (s'.th.branch.reason == Interrupt <==> CanInterrupt(s, e))
      && (CanInterrupt(s, e) ==> s' == s.(th := TakeInterrupt(s.th, e.handler.value)))
  {
    hide FullInv, HistInv, CommitPhase, HaltPhase, Issue, IssueInv, AtEnd;
    EndOf(s);
    assert InterruptTaken(s, e) <==> CanInterrupt(s, e);
    hide CanInterrupt;
    if !InterruptTaken(s, e) {
      CommitPhaseReason(cfg, s, e);
      CommitPhaseKeeps(cfg, s, e);
      HaltPhaseKeeps(CommitPhase(cfg, s, e));
      var s1 := HaltPhase(CommitPhase(cfg, s, e));
      var n := IssueLoopEnds(cfg, s1, e.issue);
      IssueSameThread(cfg, s1, e.issue, n);
    }
  }

  /** A cycle signals an interrupt exactly if one is pending that can be taken, the
      thread is not draining and stands between two instructions.  Then nothing else
      happens to the queues, and the thread is at the handler in a new stream. */
  lemma InterruptsExactly(cfg: Config, s: State, e: CycleEnv)
    requires FullInv(s) && ValidConfig(cfg) && (BubbleLine(e.line) || LineOK(s, e.line)) && HistInv(s)
    ensures var s' := Evaluate(cfg, s, e);
      && (s'.th.branch.reason == Interrupt <==> CanInterrupt(s, e))
      && (CanInterrupt(s, e) ==>
            && s'.q == s.q && s'.u == AdvanceUnits(s.u)
            && s'.th.pc == e.handler.value && s'.th.stream == s.th.stream + 1
            && s'.th.log == s.th.log + [Redirect(s.th.pc, e.handler.value)])
  {
    hide FullInv, HistInv, Begin, Dumped, CommitAndIssue, AdvanceUnits, LineOK, BubbleLine, AtEnd;
    var s0 := Dumped(Begin(s, e));
    BeginKeeps(s, e);
    BeginSame(s, e);
    DumpFirst(cfg, Begin(s, e), e);
    HistFrame(s, s0);
    WorkInterrupts(cfg, s0, e);
  }

  /** In every run. */
  lemma InterruptRuns(cfg: Config, sys: System, evs: seq<Event>, e: CycleEnv)
    requires Initial(sys) && ValidConfig(cfg) && PossibleRun(cfg, sys, evs)
    requires Possible(cfg, Run(cfg, sys, evs), Cycle(e))
    ensures var s := Run(cfg, sys, evs).ex;
      Evaluate(cfg, s, e).th.branch.reason == Interrupt <==>
        && s.drain == NotDraining && e.interrupted && e.handler.Some? && !e.accessesBefore
        && (s.q.completed == [] || Ends(s.q.completed[|s.q.completed| - 1]))
  {
    InitialStage(sys);
    hide Initial, StageInv, Run, PossibleRun, LineOK, BubbleLine, Evaluate, FullInv;
    RunStage(cfg, sys, evs);
    StageParts(cfg, Run(cfg, sys, evs), e);
    HistOf(Run(cfg, sys, evs));
    InterruptsExactly(cfg, Run(cfg, sys, evs).ex, e);
  }

  lemma HistOf(sys: System)
    requires StageInv(sys)
    ensures HistInv(sys.ex)
  {
  }

  // ---------- Drains ----------

  /** A drain waits for the end of the current instruction exactly if there is one. */
  lemma RequestsExactly(s: State, accesses: bool)
    requires HistInv(s)
    ensures Drain(s, accesses).drain ==
      if s.drain != NotDraining then s.drain else if Between(s, accesses) then DrainHaltFetch else DrainCurrentInst
  {
  }

  /** Fetch is halted exactly in a cycle that finds this due, or that drains the current
      instruction and leaves the thread between two. */
  lemma HaltsExactly(cfg: Config, s: State, e: CycleEnv)
    requires FullInv(s) && ValidConfig(cfg) && (BubbleLine(e.line) || LineOK(s, e.line)) && HistInv(s) && HaltInv(s)
    ensures var s' := Evaluate(cfg, s, e);
      s'.th.branch.reason == HaltFetch <==>
        s.drain == DrainHaltFetch || (s.drain == DrainCurrentInst && Between(s', e.accessesAfter))
  {
    var s0 := Dumped(Begin(s, e));
    BeginKeeps(s, e);
    BeginSame(s, e);
    DumpFirst(cfg, Begin(s, e), e);
    HistFrame(s, s0);
    hide FullInv, HistInv, Begin, Dumped, CommitAndIssue, AdvanceUnits, LineOK, BubbleLine;
    WorkHalts(cfg, s0, e);
  }

  lemma WorkHalts(cfg: Config, s: State, e: CycleEnv)
    requires FullInv(s) && ValidConfig(cfg) && s.th.branch == BUBBLE && HistInv(s) && HaltInv(s)
    ensures var s' := CommitAndIssue(cfg, s, e);
      s'.th.branch.reason == HaltFetch <==>
        s.drain == DrainHaltFetch || (s.drain == DrainCurrentInst && Between(s', e.accessesAfter))
  {
    hide FullInv, CommitPhase, HaltPhase, Issue, IssueInv, TookOf, Increasing;
    if !InterruptTaken(s, e) {
      PhaseHalts(cfg, s, e);
      CommitPhaseKeeps(cfg, s, e);
      HaltPhaseKeeps(CommitPhase(cfg, s, e));
      var s1 := HaltPhase(CommitPhase(cfg, s, e));
      var n := IssueLoopEnds(cfg, s1, e.issue);
      IssueSameThread(cfg, s1, e.issue, n);
    }
  }

  lemma PhaseHalts(cfg: Config, s: State, e: CycleEnv)
    requires FullInv(s) && s.th.branch == BUBBLE && HistInv(s) && HaltInv(s)
    ensures var s' := HaltPhase(CommitPhase(cfg, s, e));
      s'.th.branch.reason == HaltFetch <==>
        s.drain == DrainHaltFetch || (s.drain == DrainCurrentInst && Between(s', e.accessesAfter))
  {
    hide FullInv, Commit, TookOf, Increasing;
    match s.drain
    case NotDraining => CommitHist(cfg, s, e.interrupted, false, e.commit);
    case DrainCurrentInst => CommitHist(cfg, s, true, false, e.commit);
    case DrainHaltFetch =>
    case DrainAllInsts =>
      DumpedKeeps(s);
      HistFrame(s, s.(inp := DumpInput(s.inp)));
      CommitHist(cfg, s.(inp := DumpInput(s.inp)), false, true, e.commit);
  }

  // ---------- Issue in every cycle ----------

  /** The input that a cycle issues from. */
  ghost function Buffered(s: State, e: CycleEnv): seq<seq<Option<Inst>>> {
    if s.drain == DrainAllInsts then [] else if BubbleLine(e.line) then s.inp.lines else s.inp.lines + [e.line]
  }

  /** From s1, commit over, issue went n slots to s2 and had to stop there. */
  ghost predicate IssuedFully(cfg: Config, s1: State, s2: State, n: nat, e: IssueEnv) {
    && n <= |Remaining(s1.inp)| && Remaining(s2.inp) == Remaining(s1.inp)[n..] && s2.th == s1.th
    && s2.q.inFlight == s1.q.inFlight + Taken(s1.th, Remaining(s1.inp)[..n])
    && s2.q.issued == s1.q.issued + Taken(s1.th, Remaining(s1.inp)[..n])
    && MustStop(cfg, s1, s2, n, e) && NotBefore(cfg, s1, s2, n)
  }

  lemma PhaseInput(cfg: Config, s: State, e: CycleEnv)
    requires FullInv(s) && s.th.branch == BUBBLE && s == Dumped(s)
    ensures var s' := HaltPhase(CommitPhase(cfg, s, e)); s'.inp == s.inp && s'.q.issued == s.q.issued
  {
    hide FullInv, ExInv, MayDiscard, CommitUpTo, OneChangeSince, WithinLimits;
    CallReady(s);
    if s.drain != DrainHaltFetch {
      var (_, onlyMicroops, discard) := CommitArgs(s, e);
      CommitUpToKeeps(cfg, s, onlyMicroops, discard, e.commit, CommitBound(s));
    }
  }

  lemma WorkIssues(cfg: Config, s: State, e: CycleEnv) returns (n: nat, s1: State)
    requires FullInv(s) && ValidConfig(cfg) && s.th.branch == BUBBLE && s == Dumped(s) && !InterruptTaken(s, e)
    ensures s1.inp == s.inp && s1.q.issued == s.q.issued
    ensures IssuedFully(cfg, s1, CommitAndIssue(cfg, s, e), n, e.issue(n))
  {
    hide FullInv, Dumped, CommitPhase, HaltPhase, Issue, MustStop, NotBefore, Remaining, Taken;
    PhaseInput(cfg, s, e);
    CommitPhaseKeeps(cfg, s, e);
    HaltPhaseKeeps(CommitPhase(cfg, s, e));
    s1 := HaltPhase(CommitPhase(cfg, s, e));
    n := IssueStopsExactly(cfg, s1, e.issue);
  }

  /** Every cycle that takes no interrupt issues, in whatever drain state, from all that
      is buffered, and goes as far as it can; then the units move on. */
  lemma CycleIssues(cfg: Config, s: State, e: CycleEnv) returns (n: nat, s1: State, s2: State)
    requires FullInv(s) && ValidConfig(cfg) && (BubbleLine(e.line) || LineOK(s, e.line)) && HistInv(s)
    requires !CanInterrupt(s, e)
    ensures Evaluate(cfg, s, e) == s2.(u := AdvanceUnits(s2.u))
    ensures s1.inp.lines == Buffered(s, e) && s1.q.issued == s.q.issued
    ensures IssuedFully(cfg, s1, s2, n, e.issue(n))
  {
    BufferedIs(s, e);
    hide FullInv, HistInv, Begin, Dumped, CommitAndIssue, AdvanceUnits, LineOK, BubbleLine, AtEnd, IssuedFully,
        Buffered;
    BeginKeeps(s, e);
    BeginSame(s, e);
    DumpFirst(cfg, Begin(s, e), e);
    DumpedArgs(Begin(s, e), e);
    EndOf(s);
    n, s1 := WorkIssues(cfg, Dumped(Begin(s, e)), e);
    s2 := CommitAndIssue(cfg, Begin(s, e), e);
  }

  lemma BufferedIs(s: State, e: CycleEnv)
    requires FullInv(s) && (BubbleLine(e.line) || LineOK(s, e.line))
    ensures Dumped(Begin(s, e)).inp.lines == Buffered(s, e)
  {
    if s.drain == DrainAllInsts {
      ArriveKeeps(s, e.line);
      DumpIsEmpty(Begin(s, e).inp);
    }
  }

  // ---------- Waiting for an interrupt ----------

  /** No response comes back during the call. */
  ghost predicate NoResponses(env: nat -> IterEnv) { forall k: nat :: !env(k).response }

  lemma WaitsIter(cfg: Config, s: State, c: Ctl, e: IterEnv)
    requires ExInv(s) && s.q.inFlight != [] && s.lastEnd && !e.response
    ensures var s' := CommitIter(cfg, s, c, true, false, e).0; s'.q == s.q && s'.lastEnd
  {
    hide ExInv;
    MayKeep(s);
    TriesHead(cfg, s, c, true, false, e);
    ThreadAfter(cfg, s, c, true, false, e);
    hide CommitIter, PickInst, EarlyInst, AtEndOfUnit;
  }

  lemma {:induction false} WaitsUpTo(cfg: Config, s: State, env: nat -> IterEnv, k: nat)
    requires ExInv(s) && s.th.branch == BUBBLE && s.lastEnd && NoResponses(env)
    ensures var s' := CommitUpTo(cfg, s, true, false, env, k).0; s'.q == s.q && s'.lastEnd
  {
    hide ExInv, CommitIter, LoopInv, Work, MayDiscard;
    if k > 0 {
      WaitsUpTo(cfg, s, env, k - 1);
      MayKeep(s);
      CommitUpToKeeps(cfg, s, true, false, env, k - 1);
      var (s1, c1) := CommitUpTo(cfg, s, true, false, env, k - 1);
      if CommitGuard(cfg, s1, c1) {
        LoopParts(cfg, s, s1, c1, false);
        WaitsIter(cfg, s1, c1, env(k - 1));
      }
    }
  }

  /** While an interrupt is pending, no new instruction begins: in a cycle that finds
      the last one complete nothing completes or is handed over, unless a memory
      response comes back. */
  lemma WaitsForInterrupt(cfg: Config, s: State, e: CycleEnv)
    requires FullInv(s) && ValidConfig(cfg) && (BubbleLine(e.line) || LineOK(s, e.line)) && HistInv(s)
    requires s.drain == NotDraining && e.interrupted && AtEnd(s.q.completed) && NoResponses(e.commit)
    ensures var s' := Evaluate(cfg, s, e);
      s'.q.completed == s.q.completed && s'.q.sent == s.q.sent && s.q.inFlight <= s'.q.inFlight
  {
    var s0 := Dumped(Begin(s, e));
    BeginKeeps(s, e);
    BeginSame(s, e);
    DumpFirst(cfg, Begin(s, e), e);
    EndOf(s);
    hide FullInv, HistInv, Begin, Dumped, CommitAndIssue, AdvanceUnits, LineOK, BubbleLine, AtEnd;
    WorkWaits(cfg, s0, e);
  }

  lemma WorkWaits(cfg: Config, s: State, e: CycleEnv)
    requires FullInv(s) && ValidConfig(cfg) && s.th.branch == BUBBLE && s.lastEnd
    requires s.drain == NotDraining && e.interrupted && NoResponses(e.commit)
    ensures var s' := CommitAndIssue(cfg, s, e);
      s'.q.completed == s.q.completed && s'.q.sent == s.q.sent && s.q.inFlight <= s'.q.inFlight
  {
    hide FullInv, ExInv, Issue, CommitUpTo, NoResponses, MayDiscard;
    if !InterruptTaken(s, e) {
      CallReady(s);
      WaitsUpTo(cfg, s, e.commit, CommitBound(s));
      CommitPhaseKeeps(cfg, s, e);
      var s1 := CommitPhase(cfg, s, e);
      CommitKeeps(cfg, s, true, false, e.commit);
      var n := IssueLoopEnds(cfg, s1, e.issue);
      hide Remaining, Taken;
    }
  }

  // ---------- Serializing instructions ----------

  /** What a run has added to the history is of no stream before `stream`. */
  ghost predicate AddedSince(log: seq<Effect>, log': seq<Effect>, stream: SeqNum) {
    && log <= log'
    && forall k | |log| <= k < |log'| && log'[k].Took? :: log'[k].inst.stream >= stream
  }

  lemma AddedOn(a: seq<Effect>, b: seq<Effect>, c: seq<Effect>, m: SeqNum, n: SeqNum)
    requires AddedSince(a, b, m) && AddedSince(b, c, n) && m <= n
    ensures AddedSince(a, c, m)
  {
    forall k | |a| <= k < |c| && c[k].Took? ensures c[k].inst.stream >= m {
      if k < |b| { assert c[k] == b[k]; }
    }
  }

  lemma CommitAdds(cfg: Config, s: State, onlyMicroops: bool, discard: bool, env: nat -> IterEnv)
    requires FullInv(s) && s.th.branch == BUBBLE && (discard ==> s.drain == DrainAllInsts)
    ensures var s' := Commit(cfg, s, onlyMicroops, discard, env).0; AddedSince(s.th.log, s'.th.log, s.th.stream)
  {
    hide Commit, ExInv, FullInv, MayDiscard;
    CallReady(s);
    if !discard { MayKeep(s); }
    var n, added := CommitCall(cfg, s, onlyMicroops, discard, env);
    AddedRightly(s, n, discard, added);
  }

  lemma AddedRightly(s: State, n: nat, discard: bool, added: seq<Effect>)
    requires n <= |s.q.inFlight| && AllRightly(s, n, discard, added)
    ensures AddedSince(s.th.log, s.th.log + added, s.th.stream)
  {
    var log' := s.th.log + added;
    forall k | |s.th.log| <= k < |log'| && log'[k].Took? ensures log'[k].inst.stream >= s.th.stream {
      assert log'[k] == added[k - |s.th.log|];
      assert Rightly(s, n, discard, log'[k]);
    }
  }

  lemma PhaseAdds(cfg: Config, s: State, e: CycleEnv)
    requires FullInv(s) && s.th.branch == BUBBLE
    ensures AddedSince(s.th.log, HaltPhase(CommitPhase(cfg, s, e)).th.log, s.th.stream)
  {
    hide FullInv, Commit;
    match s.drain
    case NotDraining => CommitAdds(cfg, s, e.interrupted, false, e.commit);
    case DrainCurrentInst => CommitAdds(cfg, s, true, false, e.commit);
    case DrainHaltFetch =>
    case DrainAllInsts =>
      DumpedKeeps(s);
      CommitAdds(cfg, s.(inp := DumpInput(s.inp)), false, true, e.commit);
  }

  lemma WorkAdds(cfg: Config, s: State, e: CycleEnv)
    requires FullInv(s) && ValidConfig(cfg) && s.th.branch == BUBBLE
    ensures AddedSince(s.th.log, CommitAndIssue(cfg, s, e).th.log, s.th.stream)
  {
    hide FullInv, CommitPhase, HaltPhase, Issue, IssueInv;
    if !InterruptTaken(s, e) {
      PhaseAdds(cfg, s, e);
      CommitPhaseKeeps(cfg, s, e);
      HaltPhaseKeeps(CommitPhase(cfg, s, e));
      var s1 := HaltPhase(CommitPhase(cfg, s, e));
      var n := IssueLoopEnds(cfg, s1, e.issue);
      IssueSameThread(cfg, s1, e.issue, n);
    }
  }

  lemma CycleAdds(cfg: Config, s: State, e: CycleEnv)
    requires FullInv(s) && ValidConfig(cfg) && (BubbleLine(e.line) || LineOK(s, e.line))
    ensures AddedSince(s.th.log, Evaluate(cfg, s, e).th.log, s.th.stream)
  {
    BeginKeeps(s, e);
    BeginSame(s, e);
    DumpFirst(cfg, Begin(s, e), e);
    hide FullInv, Begin, Dumped, CommitAndIssue, AdvanceUnits, LineOK, BubbleLine, AddedSince;
    WorkAdds(cfg, Dumped(Begin(s, e)), e);
  }

  /** Whatever takes effect in a run is of the thread's stream or a later one. */
  lemma {:induction false} RunAdds(cfg: Config, sys: System, evs: seq<Event>)
    requires StageInv(sys) && ValidConfig(cfg) && PossibleRun(cfg, sys, evs)
    ensures var s := Run(cfg, sys, evs).ex;
      AddedSince(sys.ex.th.log, s.th.log, sys.ex.th.stream) && sys.ex.th.stream <= s.th.stream
    decreases |evs|
  {
    if evs == [] {
      assert AddedSince(sys.ex.th.log, sys.ex.th.log, sys.ex.th.stream);
    } else {
      hide StageInv, Delivers, Forward, AddedSince, Apply;
      EventStage(cfg, sys, evs[0]);
      EventAdds(cfg, sys, evs[0]);
      var sys' := Apply(cfg, sys, evs[0]);
      RunAdds(cfg, sys', evs[1..]);
      AddedOn(sys.ex.th.log, sys'.ex.th.log, Run(cfg, sys, evs).ex.th.log, sys.ex.th.stream, sys'.ex.th.stream);
    }
  }

  lemma EventAdds(cfg: Config, sys: System, ev: Event)
    requires StageInv(sys) && ValidConfig(cfg) && Possible(cfg, sys, ev)
    ensures var s := Apply(cfg, sys, ev).ex;
      AddedSince(sys.ex.th.log, s.th.log, sys.ex.th.stream) && sys.ex.th.stream <= s.th.stream
  {
    hide StageInv, Delivers, Evaluate, LineOK, BubbleLine, FullInv;
    if ev.Cycle? {
      StageParts(cfg, sys, ev.env);
      CycleAdds(cfg, sys.ex, ev.env);
      EvaluateKeeps(cfg, sys.ex, ev.env);
      hide AddedSince;
    }
  }

  /** After its commit call a cycle adds nothing to the history. */
  lemma CallIsAll(cfg: Config, s: State, e: CycleEnv)
    requires FullInv(s) && ValidConfig(cfg) && s.th.branch == BUBBLE && s == Dumped(s) && CallsCommit(s, e)
    ensures var (s0, onlyMicroops, discard) := CommitArgs(s, e);
      var s1 := Commit(cfg, s, onlyMicroops, discard, e.commit).0;
      var s' := CommitAndIssue(cfg, s, e);
      s0 == s && s'.th.log == s1.th.log && s1.th.stream <= s'.th.stream
  {
    hide FullInv, Commit, Issue, IssueInv;
    CommitPhaseKeeps(cfg, s, e);
    HaltPhaseKeeps(CommitPhase(cfg, s, e));
    var s1 := HaltPhase(CommitPhase(cfg, s, e));
    var n := IssueLoopEnds(cfg, s1, e.issue);
    IssueSameThread(cfg, s1, e.issue, n);
  }

  /** A serializing instruction takes effect and leaves the thread awake. */
  ghost predicate SerialIter(cfg: Config, s: State, c: Ctl, onlyMicroops: bool, discard: bool, e: IterEnv) {
    && CommitGuard(cfg, s, c)
    && var s' := CommitIter(cfg, s, c, onlyMicroops, discard, e).0;
       && TakesEffect(s, s') && !s'.th.suspended
       && s.q.inFlight[0].serializing && s.q.inFlight[0].lastOp && !s.q.inFlight[0].fault
  }

  /** In iteration k of this cycle. */
  ghost predicate SerializesAt(cfg: Config, s: State, e: CycleEnv, k: nat) {
    var (_, onlyMicroops, discard) := CommitArgs(Begin(s, e), e);
    var (s1, c1) := CallAt(cfg, s, e, k);
    CallsCommit(Begin(s, e), e) && SerialIter(cfg, s1, c1, onlyMicroops, discard, e.commit(k))
  }

  /** The call ends with it. */
  lemma SerialCall(cfg: Config, s0: State, onlyMicroops: bool, discard: bool, env: nat -> IterEnv, k: nat)
    requires ExInv(s0) && MayDiscard(s0, discard) && s0.th.branch == BUBBLE
    requires var (s1, c1) := CommitUpTo(cfg, s0, onlyMicroops, discard, env, k);
      SerialIter(cfg, s1, c1, onlyMicroops, discard, env(k))
    ensures var (s1, c1) := CommitUpTo(cfg, s0, onlyMicroops, discard, env, k);
      && s1.q.inFlight != []
      && var s2 := CommitIter(cfg, s1, c1, onlyMicroops, discard, env(k)).0;
         && Commit(cfg, s0, onlyMicroops, discard, env).0 == s2 && s1.q.inFlight[0].stream < s2.th.stream
  {
    hide ExInv, MayDiscard, CommitIter, LoopInv, SerialIter, Work, CommitGuard;
    var (s1, c1) := CommitUpTo(cfg, s0, onlyMicroops, discard, env, k);
    CommitUpToKeeps(cfg, s0, onlyMicroops, discard, env, k);
    SomeWork(cfg, s0, s1, c1, onlyMicroops, discard, env(k));
    SerialStep(cfg, s0, s1, c1, onlyMicroops, discard, env(k));
    var (s2, c2) := CommitUpTo(cfg, s0, onlyMicroops, discard, env, k + 1);
    hide CommitUpTo;
    CommitSettled(cfg, s0, onlyMicroops, discard, env, k + 1, CommitBound(s0));
  }

  lemma SerialStep(cfg: Config, s0: State, s: State, c: Ctl, onlyMicroops: bool, discard: bool, e: IterEnv)
    requires LoopInv(cfg, s0, s, c, discard) && SerialIter(cfg, s, c, onlyMicroops, discard, e)
    ensures var (s', c') := CommitIter(cfg, s, c, onlyMicroops, discard, e);
      !CommitGuard(cfg, s', c') && s.q.inFlight[0].stream < s'.th.stream
  {
    hide ExInv, MayDiscard, CommitIter, TakesEffect;
    LoopParts(cfg, s0, s, c, discard);
    hide LoopInv;
    Serializes(cfg, s, c, onlyMicroops, discard, e);
    TakenStream(cfg, s0, s, c, onlyMicroops, discard, e);
  }

  lemma SomeWork(cfg: Config, s0: State, s: State, c: Ctl, onlyMicroops: bool, discard: bool, e: IterEnv)
    requires SerialIter(cfg, s, c, onlyMicroops, discard, e)
    ensures CommitGuard(cfg, s, c) && s.q.inFlight != [] && Work(s) >= 1 && CommitBound(s0) == Work(s0) + 1
  {
    hide CommitIter;
  }

  lemma TakenStream(cfg: Config, s0: State, s: State, c: Ctl, onlyMicroops: bool, discard: bool, e: IterEnv)
    requires LoopInv(cfg, s0, s, c, discard) && CommitGuard(cfg, s, c)
    ensures var s' := CommitIter(cfg, s, c, onlyMicroops, discard, e).0;
      && (s'.th.stream != s.th.stream ==> IsStreamChange(s'.th.branch.reason))
      && (TakesEffect(s, s') ==> s.q.inFlight[0].stream == s.th.stream)
  {
    hide CommitIter, ExInv, MayDiscard;
    IterStream(cfg, s, c, onlyMicroops, discard, e, s0.th);
    IterEffects(cfg, s, c, onlyMicroops, discard, e);
  }

  lemma SerialCycle(cfg: Config, s: State, e: CycleEnv, k: nat)
    requires FullInv(s) && ValidConfig(cfg) && (BubbleLine(e.line) || LineOK(s, e.line)) && SerializesAt(cfg, s, e, k)
    ensures var (_, onlyMicroops, discard) := CommitArgs(Begin(s, e), e);
      var (s1, c1) := CallAt(cfg, s, e, k);
      && s1.q.inFlight != []
      && var s2 := CommitIter(cfg, s1, c1, onlyMicroops, discard, e.commit(k)).0;
         Evaluate(cfg, s, e).th.log == s2.th.log && s1.q.inFlight[0].stream < Evaluate(cfg, s, e).th.stream
  {
    var s0 := Dumped(Begin(s, e));
    BeginKeeps(s, e);
    BeginSame(s, e);
    DumpFirst(cfg, Begin(s, e), e);
    DumpedArgs(Begin(s, e), e);
    CallReady(s0);
    assert CommitArgs(Begin(s, e), e).0 == s0;
    var (_, onlyMicroops, discard) := CommitArgs(Begin(s, e), e);
    assert !discard ==> MayDiscard(s0, discard);
    hide FullInv, ExInv, MayDiscard, Begin, Dumped, CommitAndIssue, AdvanceUnits, LineOK, BubbleLine, CommitUpTo,
        CommitIter, SerialIter, Commit, CallsCommit;
    SerialCall(cfg, s0, onlyMicroops, discard, e.commit, k);
    CallIsAll(cfg, s0, e);
  }

  /** Once a serializing instruction has taken effect, with the thread awake, no other
      instruction of its stream takes effect in any continuation of the run. */
  lemma SerialRun(cfg: Config, sys: System, e: CycleEnv, k: nat, more: seq<Event>)
    requires StageInv(sys) && ValidConfig(cfg) && Possible(cfg, sys, Cycle(e)) && SerializesAt(cfg, sys.ex, e, k)
    requires PossibleRun(cfg, Apply(cfg, sys, Cycle(e)), more)
    ensures var (_, onlyMicroops, discard) := CommitArgs(Begin(sys.ex, e), e);
      var (s1, c1) := CallAt(cfg, sys.ex, e, k);
      && s1.q.inFlight != []
      && var s2 := CommitIter(cfg, s1, c1, onlyMicroops, discard, e.commit(k)).0;
         var log := Run(cfg, Apply(cfg, sys, Cycle(e)), more).ex.th.log;
         && s2.th.log <= log
         && forall j | |s2.th.log| <= j < |log| && log[j].Took? :: log[j].inst.stream > s1.q.inFlight[0].stream
  {
    StageParts(cfg, sys, e);
    hide StageInv, SerializesAt, Begin, CommitIter, CallAt, Evaluate, LineOK, BubbleLine, FullInv, Delivers, Run;
    EventStage(cfg, sys, Cycle(e));
    SerialCycle(cfg, sys.ex, e, k);
    RunAdds(cfg, Apply(cfg, sys, Cycle(e)), more);
  }

  // ---------- Room in the store buffer and the LSQ ----------

  /** At most n barriers wait in the store buffer and m references are in the LSQ. */
  ghost predicate Within(s: State, n: nat, m: nat) { |s.bar.waiting| <= n && |s.q.lsq| <= m }

  /** Room is offered to a barrier and to a reference only while there is some. */
  ghost predicate Offers(s: State, e: IterEnv, n: nat, m: nat)
    requires s.q.inFlight != []
  {
    var h := s.q.inFlight[0];
    (h.barrier && !h.memRef && e.storeBufferRoom ==> |s.bar.waiting| < n) && (e.canRequest ==> |s.q.lsq| < m)
  }

  /** The head is a memory reference and a barrier, and its response comes. */
  ghost predicate Returns(s: State, e: IterEnv)
    requires s.q.inFlight != []
  {
    s.q.inFlight[0].barrier && s.q.inFlight[0].id in s.q.inLSQ && e.response
  }

  /** What an iteration can add to either. */
  lemma IterAddsRoom(cfg: Config, s: State, c: Ctl, onlyMicroops: bool, discard: bool, e: IterEnv)
    requires ExInv(s) && s.q.inFlight != [] && MayDiscard(s, discard)
    ensures var s' := CommitIter(cfg, s, c, onlyMicroops, discard, e).0;
      && (s'.bar.waiting == s.bar.waiting
          || (&& s'.bar.waiting == s.bar.waiting + {s.q.inFlight[0].id} && s.q.inFlight[0].barrier
              && (s.q.inFlight[0].memRef ==> s.q.inFlight[0].id in s.q.inLSQ) && TakesEffect(s, s')))
      && (|s'.q.lsq| <= |s.q.lsq| || (|s'.q.lsq| == |s.q.lsq| + 1 && s'.q.sent != s.q.sent))
  {
    hide ExInv, MayDiscard, PickInst, TryInst, Finish, TakesEffect;
    var p := PickInst(cfg, s, c, onlyMicroops, e);
    LogGrows(cfg, s, c, onlyMicroops, discard, e);
    if Undisturbed(s, e) && !p.NoPick? {
      var (th, o) := TryInst(cfg, s.th, s.bar.last, p, discard, e);
      IterCase(cfg, s, c, onlyMicroops, discard, e);
      CommitsLog(cfg, s.th, s.bar.last, p, discard, e);
      FinishRoom(s, p, th, o);
    }
  }

  lemma FinishRoom(s: State, p: Pick, th: Thread, o: Outcome)
    requires s.q.inFlight != [] && !p.NoPick? && (p.Response? ==> s.q.lsq != [])
    ensures var s' := Finish(s, p, th, o);
      && s'.th == th
      && s'.bar.waiting == s.bar.waiting + (if Leaves(o) && Commits(o) && p.inst.barrier then {p.inst.id} else {})
      && (|s'.q.lsq| <= |s.q.lsq| || (o.Send? && |s'.q.lsq| == |s.q.lsq| + 1 && s'.q.sent != s.q.sent))
  {
    hide FinishU, ClearDests;
    assert |s.q.sent + [p.inst]| > |s.q.sent|;
  }

  lemma CommitsLog(cfg: Config, th: Thread, last: SeqNum, p: Pick, discard: bool, e: IterEnv)
    requires !p.NoPick? && WellFormed(p.inst)
    ensures var (th', o) := TryInst(cfg, th, last, p, discard, e);
      Commits(o) ==> th'.log != th.log && (p.inst.memRef ==> p.Response?)
  {
    TryLonger(cfg, th, p.inst, e.fault, e);
    TryLonger(cfg, th, p.inst, true, e);
  }

  /** A barrier that is no memory reference never overfills the store buffer; one that
      is goes in without asking for room, and overfills it exactly if it was full. */
  lemma OverfillsExactly(cfg: Config, s: State, c: Ctl, onlyMicroops: bool, discard: bool, e: IterEnv, n: nat, m: nat)
    requires ExInv(s) && s.q.inFlight != [] && MayDiscard(s, discard) && Within(s, n, m) && Offers(s, e, n, m)
    ensures var s' := CommitIter(cfg, s, c, onlyMicroops, discard, e).0;
      && |s'.q.lsq| <= m
      && (|s'.bar.waiting| > n <==> Returns(s, e) && TakesEffect(s, s') && |s.bar.waiting| == n)
  {
    hide CommitIter, ExInv, MayDiscard;
    IterAddsRoom(cfg, s, c, onlyMicroops, discard, e);
    TakesEffectExactly(cfg, s, c, onlyMicroops, discard, e);
    SendsExactly(cfg, s, c, onlyMicroops, discard, e);
    HeadInLSQ(s);
    hide HeadDue, EarlyInst, AtEndOfUnit, Undisturbed;
    if s.q.inFlight[0].barrier && s.q.inFlight[0].id in s.q.inLSQ {
      ReturnWaits(cfg, s, c, onlyMicroops, discard, e);
    }
    hide TakesEffect;
  }

  lemma HeadInLSQ(s: State)
    requires ExInv(s) && s.q.inFlight != []
    ensures var h := s.q.inFlight[0]; h.id !in s.bar.waiting && !(h.fault && h.barrier)
    ensures s.q.inFlight[0].id in s.q.inLSQ ==> s.q.inFlight[0].memRef
  {
    assert s.q.inFlight[0] in s.q.inFlight;
  }

  /** A reference that is a barrier waits in the store buffer once it has taken effect. */
  lemma ReturnWaits(cfg: Config, s: State, c: Ctl, onlyMicroops: bool, discard: bool, e: IterEnv)
    requires ExInv(s) && s.q.inFlight != [] && MayDiscard(s, discard)
    requires s.q.inFlight[0].barrier && s.q.inFlight[0].id in s.q.inLSQ
    ensures var s' := CommitIter(cfg, s, c, onlyMicroops, discard, e).0;
      TakesEffect(s, s') ==> s'.bar.waiting == s.bar.waiting + {s.q.inFlight[0].id}
  {
    hide ExInv, MayDiscard;
    var p := PickInst(cfg, s, c, onlyMicroops, e);
    LogGrows(cfg, s, c, onlyMicroops, discard, e);
    TriesHead(cfg, s, c, onlyMicroops, discard, e);
    if Undisturbed(s, e) && !p.NoPick? {
      IterCase(cfg, s, c, onlyMicroops, discard, e);
      if p.Early? { EarlyQuiet(cfg, s.th, s.bar.last, p, discard, e); }
      hide PickInst, FinishU, ClearDests, TryToBranch, CommitInst;
    }
  }

  lemma IterWithin(cfg: Config, s: State, c: Ctl, onlyMicroops: bool, discard: bool, e: IterEnv, n: nat, m: nat)
    requires ExInv(s) && s.q.inFlight != [] && MayDiscard(s, discard) && Within(s, n, m) && Offers(s, e, n, m)
    requires Returns(s, e) ==> |s.bar.waiting| < n
    ensures Within(CommitIter(cfg, s, c, onlyMicroops, discard, e).0, n, m)
  {
    hide CommitIter, ExInv, MayDiscard, TakesEffect, Returns;
    OverfillsExactly(cfg, s, c, onlyMicroops, discard, e, n, m);
  }

  /** Room is offered only while there is some, and also when the response of a barrier
      comes there is some. */
  ghost predicate HasRoom(s: State, e: IterEnv, n: nat, m: nat)
    requires s.q.inFlight != []
  {
    Offers(s, e, n, m) && (Returns(s, e) ==> |s.bar.waiting| < n)
  }

  ghost predicate CallOffers(cfg: Config, s: State, onlyMicroops: bool, discard: bool, env: nat -> IterEnv, n: nat,
                             m: nat) {
    forall k: nat ::
      var (s1, c1) := CommitUpTo(cfg, s, onlyMicroops, discard, env, k);
      CommitGuard(cfg, s1, c1) ==> HasRoom(s1, env(k), n, m)
  }

  lemma CallOffersAt(cfg: Config, s: State, onlyMicroops: bool, discard: bool, env: nat -> IterEnv, n: nat, m: nat,
                     k: nat)
    requires CallOffers(cfg, s, onlyMicroops, discard, env, n, m)
    ensures var (s1, c1) := CommitUpTo(cfg, s, onlyMicroops, discard, env, k);
      CommitGuard(cfg, s1, c1) ==> HasRoom(s1, env(k), n, m)
  {
  }

  lemma {:induction false} CallWithin(cfg: Config, s: State, onlyMicroops: bool, discard: bool, env: nat -> IterEnv,
                                      n: nat, m: nat, k: nat)
    requires ExInv(s) && MayDiscard(s, discard) && s.th.branch == BUBBLE && Within(s, n, m)
    requires CallOffers(cfg, s, onlyMicroops, discard, env, n, m)
    ensures Within(CommitUpTo(cfg, s, onlyMicroops, discard, env, k).0, n, m)
  {
    hide ExInv, MayDiscard, CommitIter, CommitGuard, LoopInv, Work, Within, Offers, CallOffers;
    if k > 0 {
      CallWithin(cfg, s, onlyMicroops, discard, env, n, m, k - 1);
      CommitUpToKeeps(cfg, s, onlyMicroops, discard, env, k - 1);
      CallOffersAt(cfg, s, onlyMicroops, discard, env, n, m, k - 1);
      var (s1, c1) := CommitUpTo(cfg, s, onlyMicroops, discard, env, k - 1);
      if CommitGuard(cfg, s1, c1) {
        LoopParts(cfg, s, s1, c1, discard);
        GuardFacts(cfg, s1, c1);
        IterWithin(cfg, s1, c1, onlyMicroops, discard, env(k - 1), n, m);
      }
    }
  }

  ghost predicate CycleOffers(cfg: Config, s: State, e: CycleEnv, n: nat, m: nat) {
    var (s1, onlyMicroops, discard) := CommitArgs(s, e);
    CallsCommit(s, e) ==> CallOffers(cfg, s1, onlyMicroops, discard, e.commit, n, m)
  }

  lemma {:induction false} ClearedFewer(bar: Barriers, cleared: seq<SeqNum>)
    ensures |StepLSQ(bar, cleared).waiting| <= |bar.waiting|
    decreases cleared
  {
    if cleared != [] { ClearedFewer(DropBarrier(bar, cleared[0]), cleared[1..]); }
  }

  /** Issue touches neither. */
  lemma {:induction false} IssueWaits(cfg: Config, s: State, env: nat -> IssueEnv, k: nat)
    ensures var s' := IssueUpTo(cfg, s, env, k).0; s'.bar.waiting == s.bar.waiting && s'.q.lsq == s.q.lsq
  {
    hide IssueIter;
    if k > 0 {
      IssueWaits(cfg, s, env, k - 1);
      var (s1, c1) := IssueUpTo(cfg, s, env, k - 1);
      if c1.going && HasInput(s1.inp) && InRange(s1.inp) { SlotWaits(cfg, s1, c1, env(k - 1)); }
    }
  }

  lemma SlotWaits(cfg: Config, s: State, c: IssueCtl, e: IssueEnv)
    requires HasInput(s.inp) && s.inp.index < |s.inp.lines[0]|
    ensures var s' := IssueIter(cfg, s, c, e).0; s'.bar.waiting == s.bar.waiting && s'.q.lsq == s.q.lsq
  {
    hide IssueU, InstToWaitFor, MarkupDests, FindFU;
  }

  lemma PhaseWithin(cfg: Config, s: State, e: CycleEnv, n: nat, m: nat)
    requires FullInv(s) && s.th.branch == BUBBLE && s == Dumped(s) && Within(s, n, m) && CycleOffers(cfg, s, e, n, m)
    requires !InterruptTaken(s, e)
    ensures Within(HaltPhase(CommitPhase(cfg, s, e)), n, m)
  {
    hide FullInv, ExInv, MayDiscard, CommitUpTo, CallOffers;
    CallReady(s);
    if s.drain != DrainHaltFetch {
      var (_, onlyMicroops, discard) := CommitArgs(s, e);
      CallWithin(cfg, s, onlyMicroops, discard, e.commit, n, m, CommitBound(s));
    }
  }

  lemma CycleWithin(cfg: Config, s: State, e: CycleEnv, n: nat, m: nat)
    requires FullInv(s) && ValidConfig(cfg) && (BubbleLine(e.line) || LineOK(s, e.line)) && Within(s, n, m)
    requires CycleOffers(cfg, Begin(s, e), e, n, m)
    ensures Within(Evaluate(cfg, s, e), n, m)
  {
    hide FullInv, Begin, Dumped, LineOK, BubbleLine, AdvanceUnits, CommitAndIssue, CycleOffers;
    BeginKeeps(s, e);
    BeginWithin(cfg, s, e, n, m);
    DumpFirst(cfg, Begin(s, e), e);
    WorkWithin(cfg, Dumped(Begin(s, e)), e, n, m);
  }

  lemma BeginWithin(cfg: Config, s: State, e: CycleEnv, n: nat, m: nat)
    requires Within(s, n, m) && CycleOffers(cfg, Begin(s, e), e, n, m)
    ensures var s0 := Dumped(Begin(s, e));
      Dumped(s0) == s0 && s0.th.branch == BUBBLE && Within(s0, n, m) && CycleOffers(cfg, s0, e, n, m)
  {
    ClearedFewer(s.bar, e.cleared);
    DumpedArgs(Begin(s, e), e);
    hide StepLSQ, CallOffers;
  }

  lemma WorkWithin(cfg: Config, s: State, e: CycleEnv, n: nat, m: nat)
    requires FullInv(s) && s.th.branch == BUBBLE && s == Dumped(s) && Within(s, n, m) && CycleOffers(cfg, s, e, n, m)
    ensures Within(CommitAndIssue(cfg, s, e), n, m)
  {
    hide FullInv, Dumped, CommitPhase, HaltPhase, CycleOffers, IssueUpTo;
    if !InterruptTaken(s, e) {
      PhaseWithin(cfg, s, e, n, m);
      var s1 := HaltPhase(CommitPhase(cfg, s, e));
      IssueWaits(cfg, s1, e.issue, |Remaining(s1.inp)| + 1);
    }
  }

  ghost predicate OfferingRun(cfg: Config, sys: System, evs: seq<Event>, n: nat, m: nat)
    requires PossibleRun(cfg, sys, evs)
    decreases |evs|
  {
    evs != [] ==>
      && (evs[0].Cycle? ==> CycleOffers(cfg, Begin(sys.ex, evs[0].env), evs[0].env, n, m))
      && OfferingRun(cfg, Apply(cfg, sys, evs[0]), evs[1..], n, m)
  }

  lemma {:induction false} RunWithin(cfg: Config, sys: System, evs: seq<Event>, n: nat, m: nat)
    requires StageInv(sys) && ValidConfig(cfg) && PossibleRun(cfg, sys, evs) && OfferingRun(cfg, sys, evs, n, m)
    requires Within(sys.ex, n, m)
    ensures Within(Run(cfg, sys, evs).ex, n, m)
    decreases |evs|
  {
    hide StageInv, Delivers, Forward, CycleOffers, Evaluate, LineOK, BubbleLine;
    if evs != [] {
      EventStage(cfg, sys, evs[0]);
      if evs[0].Cycle? {
        StageParts(cfg, sys, evs[0].env);
        CycleWithin(cfg, sys.ex, evs[0].env, n, m);
      }
      RunWithin(cfg, Apply(cfg, sys, evs[0]), evs[1..], n, m);
    }
  }

  /** The stage never overfills what it is told is full: if room in the store buffer is
      offered only while fewer than n barriers wait there, and room in the LSQ only
      while fewer than m references are in it, and the response of a reference that is
      a barrier only comes in the former case, neither number is ever exceeded. */
  lemma NeverOverfull(cfg: Config, sys: System, evs: seq<Event>, n: nat, m: nat)
    requires Initial(sys) && ValidConfig(cfg) && PossibleRun(cfg, sys, evs) && OfferingRun(cfg, sys, evs, n, m)
    ensures var s := Run(cfg, sys, evs).ex; |s.bar.waiting| <= n && |s.q.lsq| <= m
  {
    hide Initial, StageInv, Run, PossibleRun, OfferingRun;
    InitialStage(sys);
    FreshWithin(sys, n, m);
    RunWithin(cfg, sys, evs, n, m);
  }

  lemma FreshWithin(sys: System, n: nat, m: nat)
    requires Initial(sys)
    ensures Within(sys.ex, n, m)
  {
    hide StageInv;
  }
}
