/**
  Conditions on the instructions that put their thread to sleep: if each of them
  changes the stream, or leaves nothing of its stream to execute, the stage never
  panics; if each changes the stream, every run is legal.
 */
module ResteerTheorems {
  import opened Options
  import opened MinorTypes
  import opened QueueLemmas
  import opened QueueInvariants
  import opened UnitInvariants
  import opened DependencyInvariants
  import opened CommitSpec
  import opened CommitTheorems
  import opened IssueSpec
  import opened IssueTheorems
  import opened CycleSpec
  import opened CycleTheorems
  import opened Pipeline
  import opened StageRuns
  import opened SequentialTheorems

  // ---------- The panic ----------

  /** A sleeping thread with something left to execute has an interrupt pending. */
  ghost predicate Pends(s: State, e: IterEnv) { s.th.suspended && Unfinished(s) ==> e.interrupted }

  lemma TryPanics(cfg: Config, th: Thread, last: SeqNum, p: Pick, discard: bool, e: IterEnv)
    requires !p.NoPick?
    ensures TryInst(cfg, th, last, p, discard, e).0.panicked ==>
      th.panicked || (th.suspended && !e.interrupted && p.inst.stream == th.stream && !p.Response?)
  {
  }

  lemma IterPanics(cfg: Config, s: State, c: Ctl, onlyMicroops: bool, discard: bool, e: IterEnv)
    requires ExInv(s) && s.q.inFlight != [] && MayDiscard(s, discard) && Pends(s, e)
    ensures CommitIter(cfg, s, c, onlyMicroops, discard, e).0.th.panicked ==> s.th.panicked
  {
    hide ExInv, MayDiscard;
    var p := PickInst(cfg, s, c, onlyMicroops, e);
    if !HasPCEvent(s, e) && !p.NoPick? {
      IterCase(cfg, s, c, onlyMicroops, discard, e);
      TryPanics(cfg, s.th, s.bar.last, p, discard, e);
      hide PickInst, TryInst, FinishU, LeaveQ, SendQ, ClearDests, CompleteBarrier;
    }
  }

  /** The same throughout a commit call. */
  ghost predicate CallPends(cfg: Config, s: State, onlyMicroops: bool, discard: bool, env: nat -> IterEnv) {
    forall k: nat ::
      var (s1, c1) := CommitUpTo(cfg, s, onlyMicroops, discard, env, k);
      CommitGuard(cfg, s1, c1) ==> Pends(s1, env(k))
  }

  lemma CallPendsAt(cfg: Config, s: State, onlyMicroops: bool, discard: bool, env: nat -> IterEnv, k: nat)
    requires CallPends(cfg, s, onlyMicroops, discard, env)
    ensures var (s1, c1) := CommitUpTo(cfg, s, onlyMicroops, discard, env, k);
      CommitGuard(cfg, s1, c1) ==> Pends(s1, env(k))
  {
  }

  lemma {:induction false} CallPanics(cfg: Config, s: State, onlyMicroops: bool, discard: bool, env: nat -> IterEnv,
                                      k: nat)
    requires ExInv(s) && MayDiscard(s, discard) && s.th.branch == BUBBLE
    requires CallPends(cfg, s, onlyMicroops, discard, env)
    ensures CommitUpTo(cfg, s, onlyMicroops, discard, env, k).0.th.panicked ==> s.th.panicked
  {
    hide ExInv, MayDiscard, CommitIter, CommitGuard, LoopInv, Pends, CallPends, Work;
    if k > 0 {
      CallPanics(cfg, s, onlyMicroops, discard, env, k - 1);
      CommitUpToKeeps(cfg, s, onlyMicroops, discard, env, k - 1);
      CallPendsAt(cfg, s, onlyMicroops, discard, env, k - 1);
      var (s1, c1) := CommitUpTo(cfg, s, onlyMicroops, discard, env, k - 1);
      if CommitGuard(cfg, s1, c1) {
        LoopParts(cfg, s, s1, c1, discard);
        GuardFacts(cfg, s1, c1);
        IterPanics(cfg, s1, c1, onlyMicroops, discard, env(k - 1));
      }
    }
  }

  ghost predicate CyclePends(cfg: Config, s: State, e: CycleEnv) {
    var (s1, onlyMicroops, discard) := CommitArgs(s, e);
    CallsCommit(s, e) ==> CallPends(cfg, s1, onlyMicroops, discard, e.commit)
  }

  lemma PhasePanics(cfg: Config, s: State, e: CycleEnv)
    requires FullInv(s) && s.th.branch == BUBBLE && s == Dumped(s) && CyclePends(cfg, s, e) && !InterruptTaken(s, e)
    ensures HaltPhase(CommitPhase(cfg, s, e)).th.panicked ==> s.th.panicked
  {
    if s.drain != DrainHaltFetch {
      assert ExInv(s);
      if s.drain == DrainAllInsts { DrainedMayDiscard(s); }
      hide FullInv, ExInv, CommitUpTo, CallPends, MayDiscard;
      var (_, onlyMicroops, discard) := CommitArgs(s, e);
      CallPanics(cfg, s, onlyMicroops, discard, e.commit, CommitBound(s));
    }
  }

  lemma WorkPanics(cfg: Config, s: State, e: CycleEnv)
    requires FullInv(s) && ValidConfig(cfg) && s.th.branch == BUBBLE && s == Dumped(s) && CyclePends(cfg, s, e)
    ensures CommitAndIssue(cfg, s, e).th.panicked ==> s.th.panicked
  {
    hide FullInv, Issue, IssueInv, CommitPhase, HaltPhase, CyclePends;
    if !InterruptTaken(s, e) {
      PhasePanics(cfg, s, e);
      CommitPhaseKeeps(cfg, s, e);
      HaltPhaseKeeps(CommitPhase(cfg, s, e));
      var s1 := HaltPhase(CommitPhase(cfg, s, e));
      var n := IssueLoopEnds(cfg, s1, e.issue);
      IssueSameThread(cfg, s1, e.issue, n);
    }
  }

  lemma CyclePanics(cfg: Config, s: State, e: CycleEnv)
    requires FullInv(s) && (BubbleLine(e.line) || LineOK(s, e.line)) && ValidConfig(cfg)
    requires CyclePends(cfg, Begin(s, e), e)
    ensures Evaluate(cfg, s, e).th.panicked ==> s.th.panicked
  {
    var s0, s1 := Begin(s, e), Dumped(Begin(s, e));
    BeginKeeps(s, e);
    BeginSame(s, e);
    DumpFirst(cfg, s0, e);
    DumpedArgs(s0, e);
    hide Begin, Dumped, FullInv, CommitAndIssue, AdvanceUnits, CallPends, CommitArgs, CallsCommit, LineOK, BubbleLine;
    WorkPanics(cfg, s1, e);
  }

  ghost predicate PendingRun(cfg: Config, sys: System, evs: seq<Event>)
    requires PossibleRun(cfg, sys, evs)
    decreases |evs|
  {
    evs != [] ==>
      && (evs[0].Cycle? ==> CyclePends(cfg, Begin(sys.ex, evs[0].env), evs[0].env))
      && PendingRun(cfg, Apply(cfg, sys, evs[0]), evs[1..])
  }

  /** If an interrupt is pending whenever a sleeping thread has something left to
      execute, the stage does not panic. */
  lemma {:induction false} PendingNeverPanics(cfg: Config, sys: System, evs: seq<Event>)
    requires StageInv(sys) && ValidConfig(cfg) && PossibleRun(cfg, sys, evs) && PendingRun(cfg, sys, evs)
    ensures Run(cfg, sys, evs).ex.th.panicked ==> sys.ex.th.panicked
    decreases |evs|
  {
    hide StageInv, Delivers, Forward, CyclePends, Evaluate, LineOK, BubbleLine;
    if evs != [] {
      EventStage(cfg, sys, evs[0]);
      if evs[0].Cycle? {
        StageParts(cfg, sys, evs[0].env);
        CyclePanics(cfg, sys.ex, evs[0].env);
      }
      PendingNeverPanics(cfg, Apply(cfg, sys, evs[0]), evs[1..]);
    }
  }

  // ---------- Sleepers ----------

  /** If the head puts its thread to sleep, it changes the stream or, unless
      `strict`, leaves nothing of it behind. */
  ghost predicate Careful(cfg: Config, s: State, c: Ctl, onlyMicroops: bool, discard: bool, e: IterEnv, strict: bool)
    requires s.q.inFlight != []
  {
    PutsToSleep(cfg, s, c, onlyMicroops, discard, e) ==> HeadResteers(cfg, s, e) || (!strict && NoneBehind(s))
  }

  ghost predicate CallCareful(cfg: Config, s: State, onlyMicroops: bool, discard: bool, env: nat -> IterEnv,
                              strict: bool) {
    forall k: nat ::
      var (s1, c1) := CommitUpTo(cfg, s, onlyMicroops, discard, env, k);
      CommitGuard(cfg, s1, c1) ==> Careful(cfg, s1, c1, onlyMicroops, discard, env(k), strict)
  }

  ghost predicate CycleCareful(cfg: Config, s: State, e: CycleEnv, strict: bool) {
    var (s1, onlyMicroops, discard) := CommitArgs(s, e);
    CallsCommit(s, e) ==> CallCareful(cfg, s1, onlyMicroops, discard, e.commit, strict)
  }

  ghost predicate CarefulRun(cfg: Config, sys: System, evs: seq<Event>, strict: bool)
    requires PossibleRun(cfg, sys, evs)
    decreases |evs|
  {
    evs != [] ==>
      && (evs[0].Cycle? ==> CycleCareful(cfg, Begin(sys.ex, evs[0].env), evs[0].env, strict))
      && CarefulRun(cfg, Apply(cfg, sys, evs[0]), evs[1..], strict)
  }

  /** A sleeping thread has nothing left to execute. */
  ghost predicate NothingLeft(s: State) { s.th.suspended ==> !Unfinished(s) }

  /** If the thread sleeps in s', nothing is left; and, if strict, it fell asleep only
      with a change of stream. */
  ghost predicate SleepsSafely(s: State, s': State, strict: bool) {
    NothingLeft(s') && (strict && s'.th.suspended ==> s.th.suspended || s.th.stream < s'.th.stream)
  }

  lemma StreamGone(s: State, s': State)
    requires StreamInv(s) && s.th.stream < s'.th.stream && forall i | i in s'.q.inFlight :: i in s.q.inFlight
    ensures !Unfinished(s')
  {
  }

  /** The head took effect. */
  lemma TookSafely(cfg: Config, s: State, s': State, p: Pick, discard: bool, e: IterEnv, strict: bool)
    requires StreamInv(s) && NothingLeft(s) && s.q.inFlight != []
    requires e.suspends ==> HeadResteers(cfg, s, e) || (!strict && NoneBehind(s))
    requires !p.NoPick? && p.inst == s.q.inFlight[0] && (p.inst.fault ==> !p.inst.memRef)
    requires p.Response? <==> s.q.inFlight[0].id in s.q.inLSQ
    requires s'.th == TryInst(cfg, s.th, s.bar.last, p, discard, e).0 && s'.th.log != s.th.log
    requires s.q.inFlight[0].stream == s.th.stream && s'.q.inFlight == s.q.inFlight[1..] && s.q.inLSQ <= s'.q.inLSQ
    ensures SleepsSafely(s, s', strict)
  {
    TryInstThread(cfg, s.th, s.bar.last, p, discard, e);
    TryInstChanges(cfg, s.th, s.bar.last, p, discard, e);
    WhoSleeps(cfg, s.th, s.bar.last, p, discard, e);
    if e.suspends { ResteersExactly(cfg, s.th, s.bar.last, p, discard, e); }
    hide TryInst, Resteers;
    if s'.th.suspended && s.th.stream < s'.th.stream { StreamGone(s, s'); }
  }

  lemma WhoSleeps(cfg: Config, th: Thread, last: SeqNum, p: Pick, discard: bool, e: IterEnv)
    requires !p.NoPick?
    ensures TryInst(cfg, th, last, p, discard, e).0.suspended ==> th.suspended || e.suspends
  {
  }

  lemma TryQuiet(cfg: Config, th: Thread, last: SeqNum, p: Pick, discard: bool, e: IterEnv)
    requires !p.NoPick?
    ensures var th' := TryInst(cfg, th, last, p, discard, e).0;
      th'.log == th.log ==> th'.suspended == th.suspended && th'.stream == th.stream
  {
  }

  lemma InLSQGrows(cfg: Config, s: State, c: Ctl, onlyMicroops: bool, discard: bool, e: IterEnv)
    requires s.q.inFlight != []
    ensures s.q.inLSQ <= CommitIter(cfg, s, c, onlyMicroops, discard, e).0.q.inLSQ
  {
    hide PickInst, TryInst, FinishU, ClearDests, CompleteBarrier;
  }

  lemma FewerLeft(s: State, s': State)
    requires NothingLeft(s) && s'.th.suspended == s.th.suspended && s'.th.stream == s.th.stream
    requires (forall i | i in s'.q.inFlight :: i in s.q.inFlight) && s.q.inLSQ <= s'.q.inLSQ
    ensures SleepsSafely(s, s', true)
  {
  }

  lemma IterSafely(cfg: Config, s: State, c: Ctl, onlyMicroops: bool, discard: bool, e: IterEnv, strict: bool)
    requires ExInv(s) && s.q.inFlight != [] && MayDiscard(s, discard) && NothingLeft(s)
    requires Careful(cfg, s, c, onlyMicroops, discard, e, strict)
    ensures SleepsSafely(s, CommitIter(cfg, s, c, onlyMicroops, discard, e).0, strict)
  {
    hide QueueInv, UnitInv, ScoreInv, BarrierInv, WaitInv, MayDiscard, HeadResteers, NoneBehind, Unfinished;
    var s' := CommitIter(cfg, s, c, onlyMicroops, discard, e).0;
    var p := PickInst(cfg, s, c, onlyMicroops, e);
    InLSQGrows(cfg, s, c, onlyMicroops, discard, e);
    if HasPCEvent(s, e) {
      StreamGone(s, s');
    } else if p.NoPick? {
      FewerLeft(s, s');
    } else {
      IterCase(cfg, s, c, onlyMicroops, discard, e);
      IterEffects(cfg, s, c, onlyMicroops, discard, e);
      assert s'.th == TryInst(cfg, s.th, s.bar.last, p, discard, e).0;
      TryQuiet(cfg, s.th, s.bar.last, p, discard, e);
      hide CommitIter, TryInst, PickInst;
      if s'.th.log == s.th.log {
        FewerLeft(s, s');
      } else {
        PickedWho(s, p, discard, TryInst(cfg, s.th, s.bar.last, p, discard, e).1);
        TookSame(cfg, s, s', p, discard, e);
        TookSafely(cfg, s, s', p, discard, e, strict);
      }
    }
  }

  lemma SafelyOn(s: State, s1: State, s2: State, strict: bool)
    requires SleepsSafely(s, s1, strict) && s1.th.stream == s.th.stream && SleepsSafely(s1, s2, strict)
    ensures SleepsSafely(s, s2, strict)
  {
    hide Unfinished;
  }

  lemma SafelyAtOnce(s: State, strict: bool)
    requires NothingLeft(s)
    ensures SleepsSafely(s, s, strict)
  {
  }

  lemma SafelyLeft(s: State, s': State, strict: bool)
    requires SleepsSafely(s, s', strict)
    ensures NothingLeft(s')
  {
  }

  lemma CallCarefulAt(cfg: Config, s: State, onlyMicroops: bool, discard: bool, env: nat -> IterEnv, strict: bool,
                      k: nat)
    requires CallCareful(cfg, s, onlyMicroops, discard, env, strict)
    ensures var (s1, c1) := CommitUpTo(cfg, s, onlyMicroops, discard, env, k);
      CommitGuard(cfg, s1, c1) ==> Careful(cfg, s1, c1, onlyMicroops, discard, env(k), strict)
  {
  }

  lemma {:induction false} CallSafely(cfg: Config, s: State, onlyMicroops: bool, discard: bool, env: nat -> IterEnv,
                                      strict: bool, k: nat)
    requires ExInv(s) && MayDiscard(s, discard) && s.th.branch == BUBBLE
    requires NothingLeft(s) && CallCareful(cfg, s, onlyMicroops, discard, env, strict)
    ensures SleepsSafely(s, CommitUpTo(cfg, s, onlyMicroops, discard, env, k).0, strict)
  {
    hide ExInv, MayDiscard, CommitIter, CommitGuard, SleepsSafely, NothingLeft, LoopInv, Careful, CallCareful, Work;
    if k == 0 {
      SafelyAtOnce(s, strict);
    } else {
      CallSafely(cfg, s, onlyMicroops, discard, env, strict, k - 1);
      CommitUpToKeeps(cfg, s, onlyMicroops, discard, env, k - 1);
      CallCarefulAt(cfg, s, onlyMicroops, discard, env, strict, k - 1);
      var (s1, c1) := CommitUpTo(cfg, s, onlyMicroops, discard, env, k - 1);
      if CommitGuard(cfg, s1, c1) {
        GuardFacts(cfg, s1, c1);
        StepSafely(cfg, s, s1, c1, onlyMicroops, discard, env(k - 1), strict);
      }
    }
  }

  lemma StepSafely(cfg: Config, s0: State, s: State, c: Ctl, onlyMicroops: bool, discard: bool, e: IterEnv,
                   strict: bool)
    requires LoopInv(cfg, s0, s, c, discard) && CommitGuard(cfg, s, c) && SleepsSafely(s0, s, strict)
    requires s.q.inFlight != [] && Careful(cfg, s, c, onlyMicroops, discard, e, strict)
    ensures SleepsSafely(s0, CommitIter(cfg, s, c, onlyMicroops, discard, e).0, strict)
  {
    hide ExInv, MayDiscard, CommitIter, CommitGuard, SleepsSafely, NothingLeft, LoopInv, Careful;
    LoopParts(cfg, s0, s, c, discard);
    GuardFacts(cfg, s, c);
    LoopSameStream(cfg, s0, s, c, discard);
    SafelyLeft(s0, s, strict);
    IterSafely(cfg, s, c, onlyMicroops, discard, e, strict);
    SafelyOn(s0, s, CommitIter(cfg, s, c, onlyMicroops, discard, e).0, strict);
  }

  /** So no interrupt is needed. */
  lemma CallIsPending(cfg: Config, s: State, onlyMicroops: bool, discard: bool, env: nat -> IterEnv, strict: bool)
    requires ExInv(s) && MayDiscard(s, discard) && s.th.branch == BUBBLE
    requires NothingLeft(s) && CallCareful(cfg, s, onlyMicroops, discard, env, strict)
    ensures CallPends(cfg, s, onlyMicroops, discard, env)
  {
    hide ExInv, MayDiscard, CommitUpTo, Unfinished, CallCareful, CommitGuard;
    forall k: nat ensures Pends(CommitUpTo(cfg, s, onlyMicroops, discard, env, k).0, env(k)) {
      CallSafely(cfg, s, onlyMicroops, discard, env, strict, k);
    }
  }

  // ---------- A cycle ----------

  lemma CallOfCycle(cfg: Config, s: State, e: CycleEnv, strict: bool)
    requires FullInv(s) && s.th.branch == BUBBLE && s == Dumped(s) && NothingLeft(s) && CycleCareful(cfg, s, e, strict)
    ensures CyclePends(cfg, s, e)
    ensures var (s1, onlyMicroops, discard) := CommitArgs(s, e);
      s1 == s && (CallsCommit(s, e) ==> SleepsSafely(s, Commit(cfg, s, onlyMicroops, discard, e.commit).0, strict))
  {
    assert ExInv(s);
    if s.drain == DrainAllInsts { DrainedMayDiscard(s); }
    hide FullInv, ExInv, NothingLeft, SleepsSafely, CallCareful, CallPends, CommitUpTo;
    var (_, onlyMicroops, discard) := CommitArgs(s, e);
    if CallsCommit(s, e) {
      CallIsPending(cfg, s, onlyMicroops, discard, e.commit, strict);
      CallSafely(cfg, s, onlyMicroops, discard, e.commit, strict, CommitBound(s));
    }
  }

  lemma PhaseSafely(cfg: Config, s: State, e: CycleEnv, strict: bool)
    requires FullInv(s) && s.th.branch == BUBBLE && s == Dumped(s) && NothingLeft(s) && CycleCareful(cfg, s, e, strict)
    requires !InterruptTaken(s, e)
    ensures SleepsSafely(s, HaltPhase(CommitPhase(cfg, s, e)), strict)
  {
    hide FullInv, Commit, CycleCareful, CyclePends;
    CallOfCycle(cfg, s, e, strict);
    var s1 := CommitPhase(cfg, s, e);
    CommitPhaseKeeps(cfg, s, e);
    if s1.drain == DrainHaltFetch { HaltSafely(s, s1, strict); }
  }

  lemma HaltSafely(s: State, s1: State, strict: bool)
    requires FullInv(s1) && s1.drain == DrainHaltFetch && s.th.stream <= s1.th.stream
    ensures SleepsSafely(s, HaltPhase(s1), strict)
  {
    assert StreamInv(s1);
    hide FullInv, StreamInv;
    StreamGone(s1, HaltPhase(s1));
  }

  lemma InterruptSafely(s: State, handler: PC, strict: bool)
    requires FullInv(s)
    ensures SleepsSafely(s, s.(th := TakeInterrupt(s.th, handler)), strict)
  {
    assert StreamInv(s);
    hide FullInv, StreamInv;
    StreamGone(s, s.(th := TakeInterrupt(s.th, handler)));
  }

  lemma IssueSafely(cfg: Config, s: State, env: nat -> IssueEnv)
    requires FullInv(s) && ValidConfig(cfg) && NothingLeft(s)
    ensures var s' := Issue(cfg, s, env).0; NothingLeft(s') && s'.th == s.th
  {
    var n := IssueLoopEnds(cfg, s, env);
    IssueSameThread(cfg, s, env, n);
    if s.th.suspended { IssueAsleep(cfg, s, env, |Remaining(s.inp)| + 1); }
    hide FullInv, IssueInv, IssueUpTo;
  }

  lemma WorkSafely(cfg: Config, s: State, e: CycleEnv, strict: bool)
    requires FullInv(s) && s.th.branch == BUBBLE && s == Dumped(s) && NothingLeft(s) && CycleCareful(cfg, s, e, strict)
    requires ValidConfig(cfg)
    ensures SleepsSafely(s, CommitAndIssue(cfg, s, e), strict) && CyclePends(cfg, s, e)
  {
    hide FullInv, Commit, CommitPhase, HaltPhase, Issue, CycleCareful, CyclePends, Unfinished;
    CallOfCycle(cfg, s, e, strict);
    if InterruptTaken(s, e) {
      InterruptSafely(s, e.handler.value, strict);
    } else {
      PhaseSafely(cfg, s, e, strict);
      CommitPhaseKeeps(cfg, s, e);
      HaltPhaseKeeps(CommitPhase(cfg, s, e));
      IssueSafely(cfg, HaltPhase(CommitPhase(cfg, s, e)), e.issue);
    }
  }

  lemma CycleSafely(cfg: Config, s: State, e: CycleEnv, strict: bool)
    requires FullInv(s) && (BubbleLine(e.line) || LineOK(s, e.line)) && ValidConfig(cfg)
    requires NothingLeft(s) && CycleCareful(cfg, Begin(s, e), e, strict)
    ensures SleepsSafely(s, Evaluate(cfg, s, e), strict) && CyclePends(cfg, Begin(s, e), e)
  {
    var s0, s1 := Begin(s, e), Dumped(Begin(s, e));
    BeginKeeps(s, e);
    BeginSame(s, e);
    DumpFirst(cfg, s0, e);
    DumpedArgs(s0, e);
    hide Begin, Dumped, FullInv, CommitAndIssue, AdvanceUnits, CallCareful, CallPends, CommitArgs, CallsCommit, LineOK,
        BubbleLine;
    WorkSafely(cfg, s1, e, strict);
  }

  // ---------- Runs ----------

  lemma EventSafely(cfg: Config, sys: System, ev: Event, strict: bool)
    requires StageInv(sys) && ValidConfig(cfg) && Possible(cfg, sys, ev) && NothingLeft(sys.ex)
    requires ev.Cycle? ==> CycleCareful(cfg, Begin(sys.ex, ev.env), ev.env, strict)
    ensures ev.Cycle? ==> CyclePends(cfg, Begin(sys.ex, ev.env), ev.env)
    ensures var sys' := Apply(cfg, sys, ev);
      NothingLeft(sys'.ex) && (strict ==> !DozesOn(false, sys.ex.th, sys'.ex.th))
  {
    if ev.Cycle? {
      hide StageInv, Delivers, CycleCareful, CyclePends, Evaluate, LineOK, BubbleLine, Unfinished;
      StageParts(cfg, sys, ev.env);
      CycleSafely(cfg, sys.ex, ev.env, strict);
    }
  }

  lemma {:induction false} CarefulIsPending(cfg: Config, sys: System, evs: seq<Event>)
    requires StageInv(sys) && ValidConfig(cfg) && PossibleRun(cfg, sys, evs)
    requires NothingLeft(sys.ex) && CarefulRun(cfg, sys, evs, false)
    ensures PendingRun(cfg, sys, evs)
    decreases |evs|
  {
    hide StageInv, Delivers, Apply, NothingLeft, CycleCareful, CyclePends, Forward;
    if evs != [] {
      EventStage(cfg, sys, evs[0]);
      EventSafely(cfg, sys, evs[0], false);
      CarefulIsPending(cfg, Apply(cfg, sys, evs[0]), evs[1..]);
    }
  }

  /** From a fresh system the stage never panics, if each instruction that puts its
      thread to sleep changes the stream or leaves nothing of it to execute. */
  lemma NeverPanics(cfg: Config, sys: System, evs: seq<Event>)
    requires Initial(sys) && ValidConfig(cfg) && PossibleRun(cfg, sys, evs) && CarefulRun(cfg, sys, evs, false)
    ensures !Run(cfg, sys, evs).ex.th.panicked
  {
    InitialStage(sys);
    assert NothingLeft(sys.ex) && !sys.ex.th.panicked;
    hide Initial, StageInv, CarefulRun, PendingRun, PossibleRun, Run, NothingLeft;
    CarefulIsPending(cfg, sys, evs);
    PendingNeverPanics(cfg, sys, evs);
  }

  /** Nothing is fetched for a sleeping thread. */
  ghost predicate QuietRun(cfg: Config, sys: System, evs: seq<Event>)
    requires PossibleRun(cfg, sys, evs)
    decreases |evs|
  {
    evs != [] ==>
      (evs[0].Cycle? ==> Quiet(sys, false, evs[0].env.line)) && QuietRun(cfg, Apply(cfg, sys, evs[0]), evs[1..])
  }

  /** Every run in which each instruction that puts its thread to sleep changes the
      stream, and nothing is fetched for a sleeping thread, is legal. */
  lemma {:induction false} ResteeringIsLegal(cfg: Config, sys: System, evs: seq<Event>)
    requires StageInv(sys) && ValidConfig(cfg) && PossibleRun(cfg, sys, evs)
    requires NothingLeft(sys.ex) && CarefulRun(cfg, sys, evs, true) && QuietRun(cfg, sys, evs)
    ensures LegalRun(cfg, sys, evs)
    decreases |evs|
  {
    hide StageInv, Delivers, Apply, NothingLeft, CycleCareful, CyclePends, Quiet, DozesOn, Forward;
    if evs != [] {
      EventStage(cfg, sys, evs[0]);
      EventSafely(cfg, sys, evs[0], true);
      ResteeringIsLegal(cfg, Apply(cfg, sys, evs[0]), evs[1..]);
    }
  }
}
