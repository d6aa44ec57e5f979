/**
  While the current instruction is being drained, a signal to fetch is dropped.
  If it announced a change of stream, fetch goes on in the old one and nothing it
  delivers is issued any more.  The drain then ends if, and only if, the last
  micro-op of an instruction is still in flight.
 */
module LostDrains {
  import opened Options
  import opened MinorTypes
  import opened QueueLemmas
  import opened QueueInvariants
  import opened UnitInvariants
  import opened DependencyInvariants
  import opened CommitSpec
  import opened CommitTheorems
  import opened CommitCalls
  import opened IssueSpec
  import opened IssueTheorems
  import opened CycleSpec
  import opened CycleTheorems
  import opened Pipeline
  import opened StageRuns
  import opened DrainTheorems
  import opened SequentialTheorems
  import opened SleepRuns

  /** An instruction has just ended, or its end is in flight. */
  ghost predicate EndAhead(s: State) { s.lastEnd || exists i | i in s.q.inFlight :: Ends(i) }

  /** Nothing in flight or waiting to be issued is of the thread's stream. */
  ghost predicate AllOld(s: State) {
    && (forall i | i in s.q.inFlight :: i.stream < s.th.stream)
    && (forall i | i in Pending(s.inp) :: i.stream < s.th.stream)
  }

  /** Fetch runs in an old stream and no signal is on its way to it. */
  ghost predicate Lost(sys: System) {
    && StageInv(sys) && sys.ex.drain == DrainCurrentInst && AllOld(sys.ex)
    && sys.fr.state == Running && sys.fr.stream < sys.ex.th.stream && sys.fr.signals == []
  }

  // ---------- Commit ----------

  /** Only the head can be picked, and it is dropped. */
  lemma OldPick(cfg: Config, s: State, c: Ctl, onlyMicroops: bool, e: IterEnv)
    requires ExInv(s) && s.q.inFlight != [] && MayDiscard(s, true) && !PickInst(cfg, s, c, onlyMicroops, e).NoPick?
    ensures var p := PickInst(cfg, s, c, onlyMicroops, e);
      && p.inst == s.q.inFlight[0] && (p.Response? ==> s.q.lsq != [])
      && TryInst(cfg, s.th, s.bar.last, p, false, e) == (s.th, Done(false, false))
  {
    var p := PickInst(cfg, s, c, onlyMicroops, e);
    PickIsSound(cfg, s, c, onlyMicroops, e);
    PickedWellFormed(s, p);
    if p.Early? { EarlyNotDiscarded(cfg, s, c, onlyMicroops, true, e); }
    hide PickInst, ExInv;
  }

  /** The head has left, dropped. */
  ghost predicate HeadDropped(s: State, s': State) {
    && s.q.inFlight != [] && s'.q.inFlight == s.q.inFlight[1..] && s'.th == s.th && s'.lastEnd == Ends(s.q.inFlight[0])
  }

  /** What an iteration can do when all that is in flight is old: a PC event, which
      needs the end of an instruction; nothing; or it drops the head. */
  lemma OldIter(cfg: Config, s: State, c: Ctl, onlyMicroops: bool, e: IterEnv)
    requires ExInv(s) && s.q.inFlight != [] && MayDiscard(s, true)
    ensures var (s', c') := CommitIter(cfg, s, c, onlyMicroops, false, e);
      || (s.lastEnd && s' == s.(th := s'.th) && s.th.stream < s'.th.stream)
      || (s' == s && !c'.completed && PickInst(cfg, s, c, onlyMicroops, e).NoPick?)
      || (HeadDropped(s, s') && c'.completed)
  {
    var p := PickInst(cfg, s, c, onlyMicroops, e);
    if !HasPCEvent(s, e) && !p.NoPick? {
      OldPick(cfg, s, c, onlyMicroops, e);
      hide PickInst, TryInst, ExInv, FinishU, ClearDests, CompleteBarrier;
    }
  }

  lemma OldStays(s: State, s': State)
    requires MayDiscard(s, true) && s.th.stream <= s'.th.stream
    requires s'.q.inFlight == s.q.inFlight || (s.q.inFlight != [] && s'.q.inFlight == s.q.inFlight[1..])
    ensures MayDiscard(s', true)
  {
  }

  /** After any number of iterations all is still old; and without the end of an
      instruction there is none later, and the thread stands still. */
  lemma {:induction false} OldCall(cfg: Config, s: State, env: nat -> IterEnv, k: nat)
    requires ExInv(s) && s.th.branch == BUBBLE && MayDiscard(s, true)
    ensures var s' := CommitUpTo(cfg, s, true, false, env, k).0;
      && MayDiscard(s', true) && s.th.stream <= s'.th.stream && (!EndAhead(s) ==> !EndAhead(s'))
  {
    hide ExInv, CommitIter, LoopInv, Work, MayDiscard, EndAhead;
    if k > 0 {
      OldCall(cfg, s, env, k - 1);
      MayKeep(s);
      CommitUpToKeeps(cfg, s, true, false, env, k - 1);
      var (s1, c1) := CommitUpTo(cfg, s, true, false, env, k - 1);
      if CommitGuard(cfg, s1, c1) {
        LoopParts(cfg, s, s1, c1, false);
        OldIter(cfg, s1, c1, true, env(k - 1));
        var s2 := CommitIter(cfg, s1, c1, true, false, env(k - 1)).0;
        OldStays(s1, s2);
        NoEndLater(s1, s2);
      }
    }
  }

  lemma NoEndLater(s: State, s': State)
    requires (s'.q.inFlight == s.q.inFlight && s'.lastEnd == s.lastEnd) || HeadDropped(s, s')
    ensures !EndAhead(s) ==> !EndAhead(s')
  {
  }

  // ---------- Issue ----------

  ghost predicate OldInput(inp: Input, stream: SeqNum) {
    LinesInv(inp) && forall i | i in Pending(inp) :: i.stream < stream
  }

  lemma OldSlot(inp: Input, stream: SeqNum)
    requires OldInput(inp, stream) && inp.lines != []
    ensures OldInput(NextSlot(inp), stream)
    ensures var slot := inp.lines[0][inp.index]; slot.Some? ==> slot.value.stream < stream
  {
    NextSlotStep(inp);
    RealsCons(inp.lines[0][inp.index], Remaining(NextSlot(inp)));
  }

  /** Nothing old is issued: slots are only stepped past. */
  lemma {:induction false} OldIssue(cfg: Config, s: State, env: nat -> IssueEnv, k: nat)
    requires OldInput(s.inp, s.th.stream)
    ensures var s' := IssueUpTo(cfg, s, env, k).0; s' == s.(inp := s'.inp) && OldInput(s'.inp, s.th.stream)
  {
    hide OldInput;
    if k > 0 {
      OldIssue(cfg, s, env, k - 1);
      var (s1, c1) := IssueUpTo(cfg, s, env, k - 1);
      if c1.going && HasInput(s1.inp) && InRange(s1.inp) { OldSlot(s1.inp, s.th.stream); }
    }
  }

  lemma OldIssued(cfg: Config, s: State, env: nat -> IssueEnv)
    requires FullInv(s) && AllOld(s)
    ensures var s' := Issue(cfg, s, env).0; s' == s.(inp := s'.inp) && AllOld(s')
  {
    assert OldInput(s.inp, s.th.stream);
    hide IssueUpTo, FullInv;
    OldIssue(cfg, s, env, |Remaining(s.inp)| + 1);
  }

  // ---------- A cycle ----------

  /** The commit call of a cycle that drains the current instruction. */
  ghost function Committed(cfg: Config, s: State, e: CycleEnv): State {
    Commit(cfg, Begin(s, e), true, false, e.commit).0
  }

  /** The state that issue meets, unless the drain goes on to halt fetch. */
  lemma CycleIs(cfg: Config, s: State, e: CycleEnv)
    requires s.drain == DrainCurrentInst
    ensures var s1 := Committed(cfg, s, e);
      if InbetweenInsts(s1, e.accessesAfter) then
        var s2 := Issue(cfg, HaltPhase(DropBranch(s1.(drain := DrainHaltFetch))), e.issue).0;
        Evaluate(cfg, s, e) == s2.(u := AdvanceUnits(s2.u))
      else
        s1.drain == DrainCurrentInst ==>
          var s2 := Issue(cfg, DropBranch(s1), e.issue).0; Evaluate(cfg, s, e) == s2.(u := AdvanceUnits(s2.u))
  {
    hide Commit, Issue, AdvanceUnits, Begin;
    assert Begin(s, e).drain == DrainCurrentInst by { BeginDrain(s, e); }
  }

  lemma BeginDrain(s: State, e: CycleEnv)
    ensures Begin(s, e).drain == s.drain && Begin(s, e).lastEnd == s.lastEnd && Begin(s, e).q == s.q
    ensures Begin(s, e).u == s.u && Begin(s, e).th == s.th.(branch := BUBBLE)
  {
  }

  /** What arrives is old too. */
  lemma OldArrives(cfg: Config, sys: System, e: CycleEnv)
    requires Lost(sys) && Possible(cfg, sys, Cycle(e))
    ensures FullInv(Begin(sys.ex, e)) && AllOld(Begin(sys.ex, e)) && MayDiscard(Begin(sys.ex, e), true)
  {
    StageParts(cfg, sys, e);
    BeginKeeps(sys.ex, e);
    ArriveKeeps(sys.ex, e.line);
    BeginDrain(sys.ex, e);
    assert Dumped(Begin(sys.ex, e)) == Begin(sys.ex, e);
    hide FullInv, StageInv, Reals, Remaining, LineOK, StepLSQ;
  }

  lemma CommittedOld(cfg: Config, sys: System, e: CycleEnv)
    requires Lost(sys) && ValidConfig(cfg) && Possible(cfg, sys, Cycle(e))
    ensures var s1 := Committed(cfg, sys.ex, e);
      && FullInv(DropBranch(s1)) && AllOld(DropBranch(s1)) && s1.drain == DrainCurrentInst
      && sys.ex.th.stream <= s1.th.stream && (!EndAhead(sys.ex) ==> !EndAhead(s1))
  {
    var s0 := Begin(sys.ex, e);
    OldArrives(cfg, sys, e);
    BeginDrain(sys.ex, e);
    hide StageInv, Begin, FullInv, Commit, MayDiscard, Lost;
    CommitKeeps(cfg, s0, true, false, e.commit);
    CallReady(s0);
    var s1 := Committed(cfg, sys.ex, e);
    LaterStream(s1, s1.th.(branch := BUBBLE), s1.drain);
    OldAfter(cfg, s0, e.commit);
    EndSame(sys.ex, s0);
  }

  lemma EndSame(s: State, s': State)
    requires s'.q == s.q && s'.lastEnd == s.lastEnd
    ensures EndAhead(s') == EndAhead(s)
  {
  }

  lemma OldAfter(cfg: Config, s: State, env: nat -> IterEnv)
    requires ExInv(s) && s.th.branch == BUBBLE && MayDiscard(s, true) && AllOld(s)
    requires Commit(cfg, s, true, false, env).0.inp == s.inp
    ensures var s' := Commit(cfg, s, true, false, env).0;
      AllOld(DropBranch(s')) && s.th.stream <= s'.th.stream && (!EndAhead(s) ==> !EndAhead(s'))
  {
    hide ExInv, CommitUpTo, EndAhead;
    OldCall(cfg, s, env, CommitBound(s));
  }

  /** A cycle that does not end the drain leaves fetch lost, and brings no end of an
      instruction. */
  lemma CycleLost(cfg: Config, sys: System, e: CycleEnv)
    requires Lost(sys) && ValidConfig(cfg) && Possible(cfg, sys, Cycle(e))
    ensures var sys' := Apply(cfg, sys, Cycle(e));
      && (sys'.ex.drain == DrainCurrentInst ==> Lost(sys'))
      && (!EndAhead(sys.ex) ==> sys'.ex.drain == DrainCurrentInst && !EndAhead(sys'.ex))
  {
    hide StageInv, FullInv, AllOld, Delivers, Evaluate, EndAhead, Committed, Forward;
    EventStage(cfg, sys, Cycle(e));
    CommittedOld(cfg, sys, e);
    CycleIs(cfg, sys.ex, e);
    var s1 := Committed(cfg, sys.ex, e);
    NoEndYet(s1);
    if InbetweenInsts(s1, e.accessesAfter) {
      HaltedIssue(cfg, s1, e.issue);
    } else {
      OldIssued(cfg, DropBranch(s1), e.issue);
      OldParts(DropBranch(s1), Evaluate(cfg, sys.ex, e), s1);
      OldFrame(Issue(cfg, DropBranch(s1), e.issue).0, Evaluate(cfg, sys.ex, e));
    }
  }

  lemma NoEndYet(s: State)
    ensures !EndAhead(s) ==> !s.lastEnd
  {
  }

  lemma OldParts(s: State, s': State, s1: State)
    requires s'.q.inFlight == s.q.inFlight == s1.q.inFlight && s'.lastEnd == s.lastEnd == s1.lastEnd
    ensures EndAhead(s') == EndAhead(s1)
  {
  }

  lemma OldFrame(s: State, s': State)
    requires s'.q.inFlight == s.q.inFlight && s'.inp == s.inp && s'.th.stream == s.th.stream
    ensures AllOld(s') == AllOld(s)
  {
  }

  lemma HaltedIssue(cfg: Config, s: State, env: nat -> IssueEnv)
    requires FullInv(DropBranch(s)) && ValidConfig(cfg) && s.drain == DrainCurrentInst
    ensures Issue(cfg, HaltPhase(DropBranch(s.(drain := DrainHaltFetch))), env).0.drain == DrainAllInsts
  {
    var s1 := HaltPhase(DropBranch(s.(drain := DrainHaltFetch)));
    LaterStream(DropBranch(s), s1.th, DrainAllInsts);
    hide FullInv, Issue, IssueInv;
    var n := IssueLoopEnds(cfg, s1, env);
    IssueSameThread(cfg, s1, env, n);
  }

  /** Every other event leaves fetch lost. */
  lemma OtherLost(cfg: Config, sys: System, ev: Event)
    requires Lost(sys) && ValidConfig(cfg) && Possible(cfg, sys, ev) && !ev.Cycle?
    ensures var sys' := Apply(cfg, sys, ev);
      Lost(sys') && sys'.ex.q == sys.ex.q && sys'.ex.lastEnd == sys.ex.lastEnd
  {
    hide StageInv, Forward, AllOld, Delivers, Evaluate, React;
    EventStage(cfg, sys, ev);
    assert ev.Wake? || ev.RequestDrain?;
    OldFrame(sys.ex, Apply(cfg, sys, ev).ex);
  }

  // ---------- Runs ----------

  /** A drain that fetch has lost, with no end of an instruction in flight, never
      ends. */
  lemma {:induction false} NeverEnds(cfg: Config, sys: System, evs: seq<Event>)
    requires Lost(sys) && !EndAhead(sys.ex) && ValidConfig(cfg) && PossibleRun(cfg, sys, evs)
    ensures Lost(Run(cfg, sys, evs)) && !EndAhead(Run(cfg, sys, evs).ex)
    decreases |evs|
  {
    hide Lost, EndAhead, Delivers, Apply;
    if evs != [] {
      var sys' := Apply(cfg, sys, evs[0]);
      if evs[0].Cycle? {
        assert evs[0] == Cycle(evs[0].env);
        CycleLost(cfg, sys, evs[0].env);
      } else {
        OtherLost(cfg, sys, evs[0]);
        EndSame(sys.ex, sys'.ex);
      }
      NeverEnds(cfg, sys', evs[1..]);
    }
  }

  // ---------- When it can end ----------

  /** What the surroundings can do to end the drain: nothing, if an instruction has just
      ended; else let the head go, and nothing more. */
  ghost function EndingEnv(s: State): nat -> IterEnv {
    if s.lastEnd || s.q.inFlight == [] then _ => STILL else Calm(s.q.inFlight[0])
  }

  ghost function EndingCycle(s: State): CycleEnv {
    CycleEnv([], [], false, None, false, false, EndingEnv(s), _ => IssueEnv(_ => true))
  }

  lemma EndingAt(s: State, k: nat)
    ensures EndingEnv(s)(k).pcEvent.None? && (EndingEnv(s)(k).response ==> k == 0 && !s.lastEnd)
  {
  }

  /** Once an instruction has ended nothing more happens. */
  lemma EndStops(cfg: Config, s: State, c: Ctl, e: IterEnv)
    requires s.q.inFlight != [] && s.lastEnd && e.pcEvent.None? && !e.response
    ensures var (s', c') := CommitIter(cfg, s, c, true, false, e); s' == s && !c'.completed
  {
    assert PickInst(cfg, s, c, true, e) == NoPick;
  }

  lemma EndKept(s: State, s': State)
    requires EndAhead(s) && !s.lastEnd && HeadDropped(s, s')
    ensures EndAhead(s')
  {
    var i :| i in s.q.inFlight && Ends(i);
    assert i == s.q.inFlight[0] || i in s'.q.inFlight;
  }

  lemma {:induction false} EndingCall(cfg: Config, s: State, k: nat)
    requires ExInv(s) && s.th.branch == BUBBLE && MayDiscard(s, true) && EndAhead(s)
    ensures EndAhead(CommitUpTo(cfg, s, true, false, EndingEnv(s), k).0)
  {
    hide ExInv, CommitIter, LoopInv, Work, MayDiscard, EndAhead, EndingEnv, HeadDropped;
    var env := EndingEnv(s);
    if k > 0 {
      EndingCall(cfg, s, k - 1);
      MayKeep(s);
      CommitUpToKeeps(cfg, s, true, false, env, k - 1);
      OldCall(cfg, s, env, k - 1);
      EndingAt(s, k - 1);
      var (s1, c1) := CommitUpTo(cfg, s, true, false, env, k - 1);
      if CommitGuard(cfg, s1, c1) {
        LoopParts(cfg, s, s1, c1, false);
        if s1.lastEnd {
          EndStops(cfg, s1, c1, env(k - 1));
        } else {
          OldIter(cfg, s1, c1, true, env(k - 1));
          var s2 := CommitIter(cfg, s1, c1, true, false, env(k - 1)).0;
          if HeadDropped(s1, s2) { EndKept(s1, s2); }
        }
      }
    }
  }

  /** The first iteration drops the head, unless it is on its way through its unit. */
  lemma FirstEnding(cfg: Config, s: State)
    requires ExInv(s) && MayDiscard(s, true) && !s.lastEnd && s.q.inFlight != [] && 0 < cfg.memoryCommitLimit
    ensures var (s', c') := CommitIter(cfg, s, CTL0, true, false, EndingEnv(s)(0));
      c'.completed || (s' == s && Live(s.q, s.q.inFlight[0]) && !AtEndOfUnit(s.u, s.q.inFlight[0]))
  {
    var e := EndingEnv(s)(0);
    assert e == AnswerTo(s.q.inFlight[0]);
    HeadPicked(cfg, s, e);
    OldIter(cfg, s, CTL0, true, e);
    assert PickInst(cfg, s, CTL0, true, e) == PickInst(cfg, s, CTL0, false, e);
    hide PickInst, ExInv, MayDiscard, Live, AtEndOfUnit;
  }

  /** The call of commit: an instruction ends, or its end is nearer. */
  lemma EndingCommit(cfg: Config, s: State)
    requires ExInv(s) && ValidConfig(cfg) && s.th.branch == BUBBLE && MayDiscard(s, true) && EndAhead(s)
    requires 0 < cfg.memoryCommitLimit
    ensures var s' := Commit(cfg, s, true, false, EndingEnv(s)).0;
      || s'.lastEnd
      || (&& s.q.inFlight != [] && EndAhead(s')
          && (Work(s') < Work(s)
              || (s' == s && Live(s.q, s.q.inFlight[0]) && !AtEndOfUnit(s.u, s.q.inFlight[0]))))
  {
    var env := EndingEnv(s);
    assert CommitUpTo(cfg, s, true, false, env, 0) == (s, CTL0);
    if s.q.inFlight == [] || s.lastEnd {
      EndingStands(cfg, s);
    } else {
      assert CommitGuard(cfg, s, CTL0);
      FirstEnding(cfg, s);
      MayKeep(s);
      IterShrinks(cfg, s, CTL0, true, false, env(0));
      var (s1, c1) := CommitUpTo(cfg, s, true, false, env, 1);
      assert (s1, c1) == CommitIter(cfg, s, CTL0, true, false, env(0));
      hide ExInv, CommitIter, EndAhead, Live, AtEndOfUnit, MayDiscard, EndingEnv, CommitUpTo, Work;
      EndingCall(cfg, s, CommitBound(s));
      if c1.completed {
        CallWork(cfg, s, true, false, env, 1, CommitBound(s));
      } else {
        NotCompleted(cfg, s1, c1);
        CommitSettled(cfg, s, true, false, env, 1, CommitBound(s));
      }
    }
  }

  lemma NotCompleted(cfg: Config, s: State, c: Ctl)
    requires !c.completed
    ensures !CommitGuard(cfg, s, c)
  {
  }

  lemma EndingStands(cfg: Config, s: State)
    requires ValidConfig(cfg) && s.th.branch == BUBBLE && EndAhead(s) && (s.q.inFlight == [] || s.lastEnd)
    ensures Commit(cfg, s, true, false, EndingEnv(s)).0.lastEnd
  {
    var env := EndingEnv(s);
    EndingAt(s, 0);
    assert CommitUpTo(cfg, s, true, false, env, 0) == (s, CTL0);
    if s.q.inFlight != [] { EndStops(cfg, s, CTL0, env(0)); }
    var (s1, c1) := CommitUpTo(cfg, s, true, false, env, 1);
    hide CommitIter;
    assert s1 == s && !CommitGuard(cfg, s1, c1);
    CommitSettled(cfg, s, true, false, env, 1, CommitBound(s));
  }

  lemma EndingStep(cfg: Config, sys: System, k: nat)
    requires Lost(sys) && ValidConfig(cfg) && EndAhead(sys.ex) && 0 < cfg.memoryCommitLimit
    requires InSlot(sys.ex.q, sys.ex.u, k)
    ensures Possible(cfg, sys, Cycle(EndingCycle(sys.ex)))
    ensures var s' := Apply(cfg, sys, Cycle(EndingCycle(sys.ex))).ex;
      || s'.drain != DrainCurrentInst
      || (EndAhead(s') && (Work(s') < Work(sys.ex) || (0 < k && s'.q == sys.ex.q && InSlot(s'.q, s'.u, k - 1))))
  {
    var s, e := sys.ex, EndingCycle(sys.ex);
    var s0 := Begin(s, e);
    assert Possible(cfg, sys, Cycle(e));
    OldArrives(cfg, sys, e);
    BeginDrain(s, e);
    EndSame(s, s0);
    assert EndingEnv(s0) == EndingEnv(s);
    CommittedOld(cfg, sys, e);
    CycleIs(cfg, s, e);
    StageEx(sys);
    hide StageInv, Begin, FullInv, MayDiscard, Evaluate, EndAhead, AllOld, Issue, AdvanceUnits, InSlot, EndingEnv;
    CallReady(s0);
    hide ExInv;
    EndingCommit(cfg, s0);
    var s1 := Committed(cfg, s, e);
    if InbetweenInsts(s1, false) {
      HaltedIssue(cfg, s1, e.issue);
    } else {
      OldIssued(cfg, DropBranch(s1), e.issue);
      EndSame(s1, Evaluate(cfg, s, e));
      if Work(s1) >= Work(s0) {
        UnitParts(s);
        SlotMoves(s.q, s.u, s.th.stream, k);
      }
    }
  }

  lemma LostSlot(sys: System) returns (k: nat)
    requires Lost(sys)
    ensures InSlot(sys.ex.q, sys.ex.u, k)
  {
    k := HeadInSlot(sys.ex.q, sys.ex.u, sys.ex.th.stream);
  }

  lemma {:induction false} EndsWithin(cfg: Config, sys: System, k: nat) returns (evs: seq<Event>)
    requires Lost(sys) && ValidConfig(cfg) && EndAhead(sys.ex) && 0 < cfg.memoryCommitLimit
    requires InSlot(sys.ex.q, sys.ex.u, k)
    ensures PossibleRun(cfg, sys, evs) && Run(cfg, sys, evs).ex.drain != DrainCurrentInst
    decreases Work(sys.ex), k
  {
    hide Lost, EndAhead, InSlot, Possible, Apply, Run, PossibleRun, Work;
    var ev := Cycle(EndingCycle(sys.ex));
    EndingStep(cfg, sys, k);
    CycleLost(cfg, sys, ev.env);
    var sys' := Apply(cfg, sys, ev);
    if sys'.ex.drain != DrainCurrentInst {
      evs := [];
      NoEvents(cfg, sys');
    } else if Work(sys'.ex) < Work(sys.ex) {
      var k' := LostSlot(sys');
      evs := EndsWithin(cfg, sys', k');
    } else {
      SameWork(sys.ex, sys'.ex);
      evs := EndsWithin(cfg, sys', k - 1);
    }
    RunCons(cfg, sys, ev, evs);
    evs := [ev] + evs;
  }

  ghost predicate Ending(cfg: Config, sys: System, evs: seq<Event>) {
    PossibleRun(cfg, sys, evs) && Run(cfg, sys, evs).ex.drain != DrainCurrentInst
  }

  /** A drain of the current instruction that fetch has lost can end exactly if an
      instruction has just ended or its end is in flight. */
  lemma EndsExactly(cfg: Config, sys: System)
    requires Lost(sys) && ValidConfig(cfg) && 0 < cfg.memoryCommitLimit
    ensures (exists evs: seq<Event> :: Ending(cfg, sys, evs)) <==> EndAhead(sys.ex)
  {
    if EndAhead(sys.ex) {
      hide Lost, EndAhead, InSlot, Run, PossibleRun;
      var k := LostSlot(sys);
      var evs := EndsWithin(cfg, sys, k);
      assert Ending(cfg, sys, evs);
    } else {
      hide StageInv, AllOld, EndAhead, Run, PossibleRun;
      forall evs: seq<Event> ensures !Ending(cfg, sys, evs) {
        if Ending(cfg, sys, evs) { NeverEnds(cfg, sys, evs); }
      }
    }
  }

  // ---------- How it comes about ----------

  lemma IssueThread(cfg: Config, s: State, env: nat -> IssueEnv)
    requires FullInv(s) && ValidConfig(cfg)
    ensures Issue(cfg, s, env).0.th == s.th
  {
    hide FullInv, Issue, IssueInv;
    var n := IssueLoopEnds(cfg, s, env);
    IssueSameThread(cfg, s, env, n);
  }

  /** A call of commit that changes the stream leaves only what is old. */
  lemma MovedOn(cfg: Config, s: State, env: nat -> IterEnv)
    requires FullInv(s) && s.th.branch == BUBBLE && Commit(cfg, s, true, false, env).0.inp == s.inp
    requires s.th.stream < Commit(cfg, s, true, false, env).0.th.stream
    ensures AllOld(Commit(cfg, s, true, false, env).0)
  {
    ExInvNoneLater(s);
    CallReady(s);
    MayKeep(s);
    hide FullInv, ExInv, Commit, Pending, AllRightly, MayDiscard;
    var n, _ := CommitCall(cfg, s, true, false, env);
  }

  /** A change of stream whose signal is dropped: fetch is lost. */
  lemma SignalDropped(cfg: Config, sys: System, e: CycleEnv)
    requires StageInv(sys) && ValidConfig(cfg) && Possible(cfg, sys, Cycle(e)) && sys.ex.drain == DrainCurrentInst
    requires sys.fr.state == Running && sys.fr.signals == []
    requires var s' := Apply(cfg, sys, Cycle(e)).ex; s'.drain == DrainCurrentInst && s'.th.stream != sys.ex.th.stream
    ensures Lost(Apply(cfg, sys, Cycle(e)))
  {
    hide StageInv, FullInv, Evaluate, Forward, Delivers, AllOld;
    EventStage(cfg, sys, Cycle(e));
    BeginCurrent(cfg, sys, e);
    DroppedOld(cfg, sys.ex, e);
  }

  lemma BeginCurrent(cfg: Config, sys: System, e: CycleEnv)
    requires StageInv(sys) && Possible(cfg, sys, Cycle(e)) && sys.ex.drain == DrainCurrentInst
    ensures FullInv(Begin(sys.ex, e)) && sys.fr.stream <= sys.ex.th.stream
  {
    hide FullInv, HistInv, LineOK, BubbleLine;
    StageParts(cfg, sys, e);
    BeginKeeps(sys.ex, e);
    BeginDrain(sys.ex, e);
  }

  lemma DroppedOld(cfg: Config, s: State, e: CycleEnv)
    requires FullInv(Begin(s, e)) && ValidConfig(cfg) && s.drain == DrainCurrentInst
    requires Evaluate(cfg, s, e).drain == DrainCurrentInst && Evaluate(cfg, s, e).th.stream != s.th.stream
    ensures var s' := Evaluate(cfg, s, e); AllOld(s') && s.th.stream < s'.th.stream && s'.th.branch == BUBBLE
  {
    var s0, s1 := Begin(s, e), Committed(cfg, s, e);
    BeginDrain(s, e);
    hide Begin, FullInv, Commit, Evaluate, AllOld, Issue, AdvanceUnits;
    CommitKeeps(cfg, s0, true, false, e.commit);
    CycleIs(cfg, s, e);
    LaterStream(s1, s1.th.(branch := BUBBLE), s1.drain);
    if InbetweenInsts(s1, e.accessesAfter) {
      HaltedIssue(cfg, s1, e.issue);
    } else {
      IssueThread(cfg, DropBranch(s1), e.issue);
      MovedOn(cfg, s0, e.commit);
      OldFrame(s1, DropBranch(s1));
      OldIssued(cfg, DropBranch(s1), e.issue);
      OldFrame(Issue(cfg, DropBranch(s1), e.issue).0, Evaluate(cfg, s, e));
    }
  }
}
