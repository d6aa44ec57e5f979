/**
  Every clock cycle and every drain request keeps the invariants of Execute, and
  the drain protocol runs forward: fetch is halted once, between instructions,
  and nothing commits from then on until the stage resumes.
 */
module CycleTheorems {
  import opened Options
  import opened MinorTypes
  import opened QueueLemmas
  import opened QueueInvariants
  import opened UnitInvariants
  import opened DependencyInvariants
  import opened CommitSpec
  import opened CommitTheorems
  import opened IssueSpec
  import opened IssueTheorems
  import opened CycleSpec

  /** What Decode promises of a line it hands over: fresh, increasing execute
      numbers, and only streams Execute has asked for. */
  ghost predicate LineOK(s: State, line: seq<Option<Inst>>) {
    && Increasing((s.q.issued + Pending(s.inp)) + Reals(line))
    && (forall i | i in Reals(line) :: WellFormed(i) && i.stream <= s.th.stream)
  }

  // ---------- Beginning of a cycle ----------

  lemma {:induction false} FlattenAppend(lines: seq<seq<Option<Inst>>>, l: seq<Option<Inst>>)
    ensures Flatten(lines + [l]) == Flatten(lines) + l
  {
    if lines == [] {
      assert lines + [l] == [l];
      assert Flatten([l]) == l + Flatten([]);
    } else {
      assert (lines + [l])[1..] == lines[1..] + [l];
      FlattenAppend(lines[1..], l);
      Assoc(lines[0], Flatten(lines[1..]), l);
    }
  }

  lemma ArriveRemaining(inp: Input, line: seq<Option<Inst>>)
    requires LinesInv(inp) && !BubbleLine(line)
    ensures LinesInv(Arrive(inp, line))
    ensures Remaining(Arrive(inp, line)) == Remaining(inp) + line
  {
    var lines := inp.lines + [line];
    if inp.lines == [] {
      assert lines == [line];
      assert Flatten(lines[1..]) == [] && line[0..] == line;
    } else {
      assert lines[1..] == inp.lines[1..] + [line];
      FlattenAppend(inp.lines[1..], line);
      Assoc(inp.lines[0][inp.index..], Flatten(inp.lines[1..]), line);
    }
  }

  lemma {:induction false} RealsAppend(a: seq<Option<Inst>>, b: seq<Option<Inst>>)
    ensures Reals(a + b) == Reals(a) + Reals(b)
  {
    if a == [] {
      assert a + b == b;
    } else {
      assert a == [a[0]] + a[1..] && a + b == [a[0]] + (a[1..] + b);
      RealsAppend(a[1..], b);
      RealsCons(a[0], a[1..]);
      RealsCons(a[0], a[1..] + b);
    }
  }

  lemma ArriveKeeps(s: State, line: seq<Option<Inst>>)
    requires InputInv(s) && (BubbleLine(line) || LineOK(s, line))
    ensures LinesInv(Arrive(s.inp, line)) && (s.drain != DrainAllInsts ==> InputInv(s.(inp := Arrive(s.inp, line))))
    ensures Pending(Arrive(s.inp, line)) == if BubbleLine(line) then Pending(s.inp) else Pending(s.inp) + Reals(line)
  {
    if !BubbleLine(line) {
      ArriveRemaining(s.inp, line);
      RealsAppend(Remaining(s.inp), line);
      Assoc(s.q.issued, Pending(s.inp), Reals(line));
    }
  }

  lemma {:induction false} StepLSQKeeps(q: Queues, bar: Barriers, cleared: seq<SeqNum>)
    requires BarrierInv(q, bar)
    ensures BarrierInv(q, StepLSQ(bar, cleared))
    decreases cleared
  {
    if cleared != [] {
      BarrierDrop(q, bar, cleared[0]);
      StepLSQKeeps(q, DropBarrier(bar, cleared[0]), cleared[1..]);
    }
  }

  lemma {:induction false} DumpIsEmpty(inp: Input)
    requires LinesInv(inp)
    ensures DumpInput(inp) == Input([], 0)
    decreases |inp.lines|
  {
    HasInputIff(inp);
    if inp.lines != [] {
      assert LinesInv(PopInput(inp)) by {
        if inp.lines[1..] != [] { assert inp.lines[1..][0] in inp.lines; }
      }
      DumpIsEmpty(PopInput(inp));
    }
  }

  lemma {:induction false} DumpTwice(inp: Input)
    ensures DumpInput(DumpInput(inp)) == DumpInput(inp)
    decreases |inp.lines|
  {
    if HasInput(inp) { DumpTwice(PopInput(inp)); }
  }

  /** Whatever the input holds, dropping it leaves every invariant in place. */
  lemma DumpKeeps(s: State)
    requires ExInv(s) && LinesInv(s.inp)
    ensures FullInv(s.(inp := DumpInput(s.inp)))
    ensures Pending(DumpInput(s.inp)) == []
  {
    DumpIsEmpty(s.inp);
    ExInvFrame(s, s.(inp := DumpInput(s.inp)));
    assert s.q.issued + [] == s.q.issued;
    hide UnitInv, ScoreInv, BarrierInv, WaitInv, FilterInv, SentInv, StreamInv;
  }

  lemma DumpedKeeps(s: State)
    requires FullInv(s)
    ensures FullInv(Dumped(s))
  {
    DumpKeeps(s);
    hide FullInv;
  }

  /** Commit drops the input itself while everything is drained. */
  lemma DumpFirst(cfg: Config, s: State, e: CycleEnv)
    ensures CommitPhase(cfg, s, e) == CommitPhase(cfg, Dumped(s), e)
    ensures CommitAndIssue(cfg, s, e) == CommitAndIssue(cfg, Dumped(s), e)
  {
    DumpTwice(s.inp);
    hide Commit, Issue, DumpInput;
  }

  lemma BeginKeeps(s: State, e: CycleEnv)
    requires FullInv(s) && (BubbleLine(e.line) || LineOK(s, e.line))
    ensures FullInv(Dumped(Begin(s, e))) && Begin(s, e).th.branch == BUBBLE
  {
    ArriveKeeps(s, e.line);
    StepLSQKeeps(s.q, s.bar, e.cleared);
    hide QueueInv, UnitInv, ScoreInv, BarrierInv, WaitInv, LinesInv, Arrive, StepLSQ, Pending, DumpInput, LineOK;
    assert ExInv(Begin(s, e));
    if s.drain == DrainAllInsts { DumpKeeps(Begin(s, e)); }
  }

  // ---------- Signals ----------

  /** A later stream number harms nothing; with a strictly later one the stage
      may start to drain everything. */
  lemma LaterStream(s: State, th: Thread, drain: DrainState)
    requires FullInv(s) && s.th.stream <= th.stream
    requires drain == DrainAllInsts && s.drain != DrainAllInsts ==> s.th.stream < th.stream
    ensures FullInv(s.(th := th, drain := drain))
  {
    UnitFrame(s.q, s.q, s.u, s.u, s.th.stream, th.stream);
    hide QueueInv, UnitInv, ScoreInv, BarrierInv, WaitInv, LinesInv, Pending;
  }

  // ---------- Commit within a cycle ----------

  lemma DrainedMayDiscard(s: State)
    requires FullInv(s) && s.drain == DrainAllInsts
    ensures MayDiscard(s, true)
  {
  }

  /** Commit may be called. */
  lemma CallReady(s: State)
    requires FullInv(s)
    ensures ExInv(s) && MayDiscard(s, s.drain == DrainAllInsts)
  {
  }

  lemma CommitKeeps(cfg: Config, s: State, onlyMicroops: bool, discard: bool, env: nat -> IterEnv)
    requires FullInv(s) && s.th.branch == BUBBLE && (discard ==> s.drain == DrainAllInsts)
    ensures var s' := Commit(cfg, s, onlyMicroops, discard, env).0;
      && FullInv(s') && OneChangeSince(s.th, s'.th)
      && s'.inp == s.inp && s'.drain == s.drain && s'.q.issued == s.q.issued
  {
    if discard { DrainedMayDiscard(s); }
    CommitLoopEnds(cfg, s, onlyMicroops, discard, env);
    hide ExInv, LinesInv, Commit, Pending;
  }

  /** The thread's stream number never falls in a cycle, and any stream change
      on the wire carries the number the thread ends the cycle with. */
  ghost predicate WireAgrees(th0: Thread, th: Thread) {
    th0.stream <= th.stream && (IsStreamChange(th.branch.reason) ==> th.branch.newStream == th.stream)
  }

  lemma CommitPhaseKeeps(cfg: Config, s: State, e: CycleEnv)
    requires FullInv(s) && s.th.branch == BUBBLE
    ensures var s' := CommitPhase(cfg, s, e);
      FullInv(s') && WireAgrees(s.th, s'.th) && s'.q.issued == s.q.issued
  {
    hide FullInv, Commit;
    match s.drain
    case NotDraining => CommitKeeps(cfg, s, e.interrupted, false, e.commit);
    case DrainCurrentInst =>
      CommitKeeps(cfg, s, true, false, e.commit);
      var s1 := Commit(cfg, s, true, false, e.commit).0;
      LaterStream(s1, s1.th.(branch := BUBBLE), s1.drain);
      LaterStream(s1, s1.th.(branch := BUBBLE), DrainHaltFetch);
    case DrainHaltFetch =>
    case DrainAllInsts =>
      DumpedKeeps(s);
      CommitKeeps(cfg, s.(inp := DumpInput(s.inp)), false, true, e.commit);
  }

  lemma HaltPhaseKeeps(s: State)
    requires FullInv(s)
    ensures FullInv(HaltPhase(s))
  {
    LaterStream(s, UpdateBranch(s.th, HaltFetch, 0), DrainAllInsts);
    hide FullInv;
  }

  lemma AdvanceKeeps(s: State)
    requires FullInv(s)
    ensures FullInv(s.(u := AdvanceUnits(s.u)))
  {
    hide UnitInv, ScoreInv, BarrierInv, WaitInv, LinesInv, Pending, OrderInv, FilterInv, SentInv;
    UnitAdvance(s.q, s.u, s.th.stream);
    WaitFrame(s.q, s.q, s.u, AdvanceUnits(s.u));
  }

  lemma CommitAndIssueKeeps(cfg: Config, s: State, e: CycleEnv)
    requires FullInv(s) && ValidConfig(cfg) && s.th.branch == BUBBLE
    ensures FullInv(CommitAndIssue(cfg, s, e))
    ensures WireAgrees(s.th, CommitAndIssue(cfg, s, e).th)
  {
    hide FullInv, CommitPhase, Issue, IssueInv;
    if InterruptTaken(s, e) {
      LaterStream(s, TakeInterrupt(s.th, e.handler.value), s.drain);
    } else {
      CommitPhaseKeeps(cfg, s, e);
      var s1 := CommitPhase(cfg, s, e);
      HaltPhaseKeeps(s1);
      var n := IssueLoopEnds(cfg, HaltPhase(s1), e.issue);
      IssueSameThread(cfg, HaltPhase(s1), e.issue, n);
    }
  }

  /** Every cycle keeps every invariant of the stage. */
  lemma EvaluateKeeps(cfg: Config, s: State, e: CycleEnv)
    requires FullInv(s) && ValidConfig(cfg) && (BubbleLine(e.line) || LineOK(s, e.line))
    ensures FullInv(Evaluate(cfg, s, e))
    ensures WireAgrees(s.th, Evaluate(cfg, s, e).th)
  {
    BeginKeeps(s, e);
    var s0 := Dumped(Begin(s, e));
    assert s0.th.stream == s.th.stream && s0.th.branch == BUBBLE;
    DumpFirst(cfg, Begin(s, e), e);
    hide FullInv, CommitAndIssue, AdvanceUnits, Begin, LineOK, Dumped;
    CommitAndIssueKeeps(cfg, s0, e);
    AdvanceKeeps(CommitAndIssue(cfg, s0, e));
  }

  lemma IssueSameThread(cfg: Config, s: State, env: nat -> IssueEnv, n: nat)
    requires IssueInv(cfg, s, Issue(cfg, s, env).0, Issue(cfg, s, env).1, n)
    ensures var s' := Issue(cfg, s, env).0; s'.th == s.th && s'.drain == s.drain && s'.lastEnd == s.lastEnd
    ensures Issue(cfg, s, env).0.q.completed == s.q.completed && Issue(cfg, s, env).0.q.sent == s.q.sent
  {
  }

  lemma DrainKeeps(s: State, accesses: bool)
    requires FullInv(s)
    ensures FullInv(Drain(s, accesses)) && FullInv(DrainResume(s))
  {
    LaterStream(s, s.th, DrainHaltFetch);
    LaterStream(s, s.th, DrainCurrentInst);
    LaterStream(s, s.th, NotDraining);
    hide FullInv;
  }

  lemma AwakeKeeps(s: State)
    requires FullInv(s)
    ensures FullInv(s.(th := s.th.(suspended := false)))
  {
    LaterStream(s, s.th.(suspended := false), s.drain);
  }
}
