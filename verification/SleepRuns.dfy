/**
  What becomes of a sleeping thread once no interrupt is pending: if an
  instruction of its stream is in flight outside the LSQ, and only then, the
  stage can come to panic before the thread is woken.
 */
module SleepRuns {
  import opened Options
  import opened MinorTypes
  import opened QueueLemmas
  import opened QueueInvariants
  import opened UnitInvariants
  import opened DependencyInvariants
  import opened CommitSpec
  import opened CommitTheorems
  import opened IssueSpec
  import opened IssueTheorems
  import opened CycleSpec
  import opened CycleTheorems
  import opened Pipeline
  import opened StageRuns
  import opened DrainTheorems
  import opened SequentialTheorems
  import opened ResteerTheorems

  // ---------- A sleeping thread with something left to do ----------

  /** Asleep, with something left to execute. */
  ghost predicate Doomed(s: State) {
    FullInv(s) && s.drain == NotDraining && s.th.suspended && Unfinished(s) && !s.th.panicked
  }

  /** Asleep, and just panicked or with something left to execute. */
  ghost predicate Restless(s: State, c: Ctl) {
    s.th.suspended && if s.th.panicked then !c.completed else Unfinished(s)
  }

  /** Responses are taken, or none is to come. */
  ghost predicate Answered(cfg: Config, s: State) {
    0 < cfg.memoryCommitLimit || forall i | i in s.q.inFlight :: i.id !in s.q.inLSQ
  }

  /** Nothing arrives, no access can start and no interrupt is pending. */
  const STILL := IterEnv(true, None, false, false, false, false, true, false, 0, false, false, true)

  /** The same, but for a response to h that changes no stream. */
  function AnswerTo(h: Inst): IterEnv {
    STILL.(response := true, fault := h.predictedTaken, pcAfter := if h.predictedTaken then h.predictedTarget else h.pc)
  }

  function Calm(h: Inst): nat -> IterEnv { k => if k == 0 then AnswerTo(h) else STILL }

  function CalmCycle(h: Inst, id: SeqNum): CycleEnv {
    CycleEnv([], [id], false, None, true, true, Calm(h), _ => IssueEnv(_ => true))
  }

  ghost predicate IsCalm(s: State, e: IterEnv) {
    e == STILL || (s.q.inFlight != [] && e == AnswerTo(s.q.inFlight[0]))
  }

  /** Once the store buffer has let go of the barrier remembered, none older than the
      head is. */
  lemma GateOpen(s: State)
    requires ExInv(s) && s.q.inFlight != []
    ensures var last := StepLSQ(s.bar, [s.bar.last]).last; last == 0 || s.q.inFlight[0].id <= last
  {
    var bar := s.bar;
    assert [bar.last][1..] == [];
    assert StepLSQ(bar, [bar.last]) == DropBarrier(bar, bar.last);
    InFlightIncreasing(s.q);
    if bar.last !in bar.waiting && bar.last != 0 {
      var b :| b in s.q.inFlight && b.barrier && b.id == bar.last;
      HeadIsOldest(s.q.inFlight, b);
    }
  }

  /** What an iteration without interrupts, accesses and PC events can pick. */
  lemma CalmPick(cfg: Config, s: State, c: Ctl, onlyMicroops: bool, e: IterEnv)
    requires ExInv(s) && s.q.inFlight != [] && IsCalm(s, e)
    ensures var p := PickInst(cfg, s, c, onlyMicroops, e);
      p.NoPick? || (p.inst == s.q.inFlight[0] && !p.Early? && (p.Response? <==> p.inst.id in s.q.inLSQ))
  {
    assert EarlyInst(s.q, s.u, s.th.stream, e).None?;
    var p := PickInst(cfg, s, c, onlyMicroops, e);
    if !p.NoPick? { PickIsSound(cfg, s, c, onlyMicroops, e); }
    hide PickInst, ExInv;
  }

  /** What becomes of it: it leaves, without a change of stream, or it is held, and a
      current one that is not held by a barrier panics. */
  lemma CalmTry(cfg: Config, th: Thread, last: SeqNum, p: Pick, e: IterEnv)
    requires !p.NoPick? && !p.Early? && th.suspended && (e == STILL || e == AnswerTo(p.inst))
    requires p.Response? ==> e == AnswerTo(p.inst)
    ensures var (th', o) := TryInst(cfg, th, last, p, false, e);
      && th'.suspended && th'.stream == th.stream
      && (if p.Response? || p.inst.stream != th.stream then o.Done? && !th'.panicked == !th.panicked
          else o == Hold && (th' == th || th'.panicked)
               && ((p.inst.memRef && 0 < last < p.inst.id) || th'.panicked))
  {
  }

  ghost predicate FewerThan(s': State, s: State) {
    s'.q.inLSQ == s.q.inLSQ && forall i | i in s'.q.inFlight :: i in s.q.inFlight
  }

  /** The head leaves, and what was left to execute still is. */
  lemma LeftBehind(s: State, s': State)
    requires Unfinished(s) && s.q.inFlight != [] && s'.q.inFlight == s.q.inFlight[1..] && s'.q.inLSQ == s.q.inLSQ
    requires s.q.inFlight[0].stream != s.th.stream || s.q.inFlight[0].id in s.q.inLSQ
    requires s'.th.stream == s.th.stream
    ensures Unfinished(s')
  {
    var i :| i in s.q.inFlight && i.stream == s.th.stream && i.id !in s.q.inLSQ;
    assert i in s'.q.inFlight;
  }

  lemma CalmIter(cfg: Config, s: State, c: Ctl, onlyMicroops: bool, e: IterEnv)
    requires ExInv(s) && s.q.inFlight != [] && IsCalm(s, e) && s.th.suspended && Unfinished(s)
    requires !s.th.panicked
    ensures var (s', c') := CommitIter(cfg, s, c, onlyMicroops, false, e);
      && Restless(s', c') && FewerThan(s', s) && (!c'.completed && !s'.th.panicked ==> s' == s)
  {
    hide ExInv, Unfinished;
    var (s', c') := CommitIter(cfg, s, c, onlyMicroops, false, e);
    var p := PickInst(cfg, s, c, onlyMicroops, e);
    CalmPick(cfg, s, c, onlyMicroops, e);
    if !p.NoPick? {
      CalmTry(cfg, s.th, s.bar.last, p, e);
      PickIsSound(cfg, s, c, onlyMicroops, e);
      hide PickInst, TryInst, FinishU, ClearDests, CompleteBarrier, IsCalm;
      if s'.q.inFlight != s.q.inFlight { LeftBehind(s, s'); }
    }
  }

  /** The iterations from the m-th on are calm. */
  ghost predicate CalmFrom(cfg: Config, s: State, onlyMicroops: bool, env: nat -> IterEnv, m: nat) {
    IsCalm(CommitUpTo(cfg, s, onlyMicroops, false, env, m).0, env(m)) && forall j: nat | j > m :: env(j) == STILL
  }

  lemma CalmAt(cfg: Config, s: State, onlyMicroops: bool, env: nat -> IterEnv, m: nat, k: nat)
    requires CalmFrom(cfg, s, onlyMicroops, env, m) && m <= k
    ensures IsCalm(CommitUpTo(cfg, s, onlyMicroops, false, env, k).0, env(k))
  {
    if k > m { assert env(k) == STILL; }
  }

  lemma {:induction false} CalmCall(cfg: Config, s: State, onlyMicroops: bool, env: nat -> IterEnv, m: nat, k: nat)
    requires ExInv(s) && s.th.branch == BUBBLE && m <= k && CalmFrom(cfg, s, onlyMicroops, env, m)
    requires var (s1, c1) := CommitUpTo(cfg, s, onlyMicroops, false, env, m); Restless(s1, c1)
    ensures var (s1, c1) := CommitUpTo(cfg, s, onlyMicroops, false, env, m);
      var (s2, c2) := CommitUpTo(cfg, s, onlyMicroops, false, env, k);
      Restless(s2, c2) && FewerThan(s2, s1)
  {
    hide ExInv, CommitIter, Unfinished, LoopInv, Work, IsCalm, CalmFrom, MayDiscard;
    if k > m {
      CalmCall(cfg, s, onlyMicroops, env, m, k - 1);
      MayKeep(s);
      CommitUpToKeeps(cfg, s, onlyMicroops, false, env, k - 1);
      CalmAt(cfg, s, onlyMicroops, env, m, k - 1);
      var (s1, c1) := CommitUpTo(cfg, s, onlyMicroops, false, env, k - 1);
      if CommitGuard(cfg, s1, c1) {
        LoopParts(cfg, s, s1, c1, false);
        CalmIter(cfg, s1, c1, onlyMicroops, env(k - 1));
      }
    }
  }

  /** The rest of a cycle after commit, for a sleeping thread. */
  lemma AfterCall(cfg: Config, s: State, e: CycleEnv, s1: State)
    requires s.drain == NotDraining && !InterruptTaken(Begin(s, e), e)
    requires Commit(cfg, Begin(s, e), e.interrupted, false, e.commit).0 == s1
    requires s1.drain == NotDraining && s1.th.suspended
    ensures var s' := Evaluate(cfg, s, e); s' == s1.(inp := s'.inp, u := AdvanceUnits(s1.u))
  {
    IssueAsleep(cfg, s1, e.issue, |Remaining(s1.inp)| + 1);
    hide Commit, IssueUpTo, AdvanceUnits, Remaining;
  }

  // ---------- A calm cycle ----------

  /** In its first iteration the head leaves or panics, unless it is on its way through
      its unit. */
  lemma FirstCalm(cfg: Config, s: State)
    requires ExInv(s) && s.q.inFlight != [] && s.th.suspended && Unfinished(s) && !s.th.panicked && Answered(cfg, s)
    requires s.bar.last == 0 || s.q.inFlight[0].id <= s.bar.last
    ensures var (s', c') := CommitIter(cfg, s, CTL0, false, false, AnswerTo(s.q.inFlight[0]));
      || c'.completed || s'.th.panicked
      || (s' == s && Live(s.q, s.q.inFlight[0]) && !AtEndOfUnit(s.u, s.q.inFlight[0]))
  {
    hide ExInv, Unfinished, PickInst, TryInst, FinishU, LeaveQ, SendQ, ClearDests, CompleteBarrier, Live, AtEndOfUnit;
    var e := AnswerTo(s.q.inFlight[0]);
    var p := PickInst(cfg, s, CTL0, false, e);
    CalmPick(cfg, s, CTL0, false, e);
    if p.NoPick? { CalmPicksNone(cfg, s); } else { CalmTry(cfg, s.th, s.bar.last, p, e); }
  }

  lemma CalmPicksNone(cfg: Config, s: State)
    requires ExInv(s) && s.q.inFlight != [] && Answered(cfg, s)
    requires PickInst(cfg, s, CTL0, false, AnswerTo(s.q.inFlight[0])).NoPick?
    ensures Live(s.q, s.q.inFlight[0]) && !AtEndOfUnit(s.u, s.q.inFlight[0])
  {
    assert s.q.inFlight[0] in s.q.inFlight;
    if s.q.inFlight[0].id in s.q.inLSQ { HeldHead(s.q); }
    hide ExInv;
  }

  lemma CalmCommit(cfg: Config, s: State)
    requires ExInv(s) && ValidConfig(cfg) && s.th.branch == BUBBLE && s.q.inFlight != []
    requires s.th.suspended && Unfinished(s) && !s.th.panicked && Answered(cfg, s)
    requires s.bar.last == 0 || s.q.inFlight[0].id <= s.bar.last
    ensures var s' := Commit(cfg, s, false, false, Calm(s.q.inFlight[0])).0;
      && s'.th.suspended && s'.drain == s.drain && FewerThan(s', s) && (s'.th.panicked || Unfinished(s'))
      && (|| s'.th.panicked || Work(s') < Work(s)
          || (s' == s && Live(s.q, s.q.inFlight[0]) && !AtEndOfUnit(s.u, s.q.inFlight[0])))
  {
    var env := Calm(s.q.inFlight[0]);
    assert CommitUpTo(cfg, s, false, false, env, 0) == (s, CTL0) && CommitGuard(cfg, s, CTL0);
    assert CalmFrom(cfg, s, false, env, 0);
    FirstCalm(cfg, s);
    MayKeep(s);
    IterShrinks(cfg, s, CTL0, false, false, env(0));
    var (s1, c1) := CommitUpTo(cfg, s, false, false, env, 1);
    assert (s1, c1) == CommitIter(cfg, s, CTL0, false, false, env(0));
    hide ExInv, CommitIter, CalmFrom, Unfinished, Live, AtEndOfUnit, MayDiscard, LoopInv;
    CalmCall(cfg, s, false, env, 0, CommitBound(s));
    CommitLoopEnds(cfg, s, false, false, env);
    LoopDrain(cfg, s, Commit(cfg, s, false, false, env).0, Commit(cfg, s, false, false, env).1);
    if c1.completed {
      CallWork(cfg, s, false, false, env, 1, CommitBound(s));
    } else {
      StopsAt(cfg, s, env, 1);
    }
  }

  lemma LoopDrain(cfg: Config, s0: State, s: State, c: Ctl)
    requires LoopInv(cfg, s0, s, c, false)
    ensures s.drain == s0.drain
  {
  }

  lemma StopsAt(cfg: Config, s: State, env: nat -> IterEnv, n: nat)
    requires n <= CommitBound(s) && !CommitUpTo(cfg, s, false, false, env, n).1.completed
    ensures Commit(cfg, s, false, false, env) == CommitUpTo(cfg, s, false, false, env, n)
  {
    var (s1, c1) := CommitUpTo(cfg, s, false, false, env, n);
    assert !CommitGuard(cfg, s1, c1);
    hide CommitUpTo;
    CommitSettled(cfg, s, false, false, env, n, CommitBound(s));
  }

  /** A calm cycle panics, lets the head leave, or moves it on. */
  lemma AsleepCycle(cfg: Config, s: State, k: nat)
    requires Doomed(s) && InSlot(s.q, s.u, k) && ValidConfig(cfg) && Answered(cfg, s) && s.q.inFlight != []
    ensures var s' := Evaluate(cfg, s, CalmCycle(s.q.inFlight[0], s.bar.last));
      || s'.th.panicked
      || (Doomed(s') && Answered(cfg, s')
          && (Work(s') < Work(s) || (0 < k && s'.q == s.q && InSlot(s'.q, s'.u, k - 1))))
  {
    var e := CalmCycle(s.q.inFlight[0], s.bar.last);
    var s0 := Begin(s, e);
    GateOpen(s);
    BeginAwake(s, e);
    assert s0.bar == StepLSQ(s.bar, [s.bar.last]) && s0.q == s.q && s0.u == s.u;
    LeftAt(s, s0);
    EvaluateKeeps(cfg, s, e);
    UnitParts(s);
    hide FullInv, ExInv, Unfinished, StepLSQ, AdvanceUnits, InSlot, Live, AtEndOfUnit, Begin, UnitInv, OrderInv;
    CalmCommit(cfg, s0);
    var s1 := Commit(cfg, s0, false, false, e.commit).0;
    hide Commit;
    AfterCall(cfg, s, e, s1);
    var s' := Evaluate(cfg, s, e);
    hide Evaluate;
    if !s'.th.panicked {
      LeftAt(s1, s');
      if Work(s1) >= Work(s0) { SlotMoves(s.q, s.u, s.th.stream, k); }
    }
  }

  lemma LeftAt(s: State, s': State)
    requires s'.q == s.q && s'.th.stream == s.th.stream
    ensures Unfinished(s') == Unfinished(s)
  {
  }

  /** No interrupt is pending in this cycle. */
  ghost predicate Uninterrupted(ev: Event) {
    ev.Cycle? && !ev.env.interrupted && forall k: nat :: !ev.env.commit(k).interrupted
  }

  lemma AsleepStep(cfg: Config, sys: System, k: nat)
    requires Doomed(sys.ex) && InSlot(sys.ex.q, sys.ex.u, k) && ValidConfig(cfg) && Answered(cfg, sys.ex)
    requires sys.ex.q.inFlight != []
    ensures var ev := Cycle(CalmCycle(sys.ex.q.inFlight[0], sys.ex.bar.last));
      && Possible(cfg, sys, ev) && Uninterrupted(ev)
      && var s' := Apply(cfg, sys, ev).ex;
         || s'.th.panicked
         || (Doomed(s') && Answered(cfg, s')
             && (Work(s') < Work(sys.ex) || (0 < k && s'.q == sys.ex.q && InSlot(s'.q, s'.u, k - 1))))
  {
    hide Doomed, InSlot, Evaluate, Answered, Work;
    AsleepCycle(cfg, sys.ex, k);
  }

  lemma NoEvents(cfg: Config, sys: System)
    ensures PossibleRun(cfg, sys, []) && Run(cfg, sys, []) == sys
  {
  }

  lemma DoomedSlot(s: State) returns (k: nat)
    requires Doomed(s)
    ensures s.q.inFlight != [] && InSlot(s.q, s.u, k)
  {
    k := HeadInSlot(s.q, s.u, s.th.stream);
  }

  lemma {:induction false} PanicsWithin(cfg: Config, sys: System, k: nat) returns (evs: seq<Event>)
    requires Doomed(sys.ex) && InSlot(sys.ex.q, sys.ex.u, k) && ValidConfig(cfg) && Answered(cfg, sys.ex)
    ensures PossibleRun(cfg, sys, evs) && Run(cfg, sys, evs).ex.th.panicked
    ensures forall ev | ev in evs :: Uninterrupted(ev)
    decreases Work(sys.ex), k
  {
    hide Doomed, InSlot, Uninterrupted, Possible, Apply, Run, PossibleRun, Answered, Work;
    var _ := DoomedSlot(sys.ex);
    var ev := Cycle(CalmCycle(sys.ex.q.inFlight[0], sys.ex.bar.last));
    AsleepStep(cfg, sys, k);
    var sys' := Apply(cfg, sys, ev);
    if sys'.ex.th.panicked {
      evs := [];
      NoEvents(cfg, sys');
    } else if Work(sys'.ex) < Work(sys.ex) {
      var k' := DoomedSlot(sys'.ex);
      evs := PanicsWithin(cfg, sys', k');
    } else {
      SameWork(sys.ex, sys'.ex);
      evs := PanicsWithin(cfg, sys', k - 1);
    }
    RunCons(cfg, sys, ev, evs);
    evs := [ev] + evs;
  }

  lemma SameWork(s: State, s': State)
    requires s'.q == s.q
    ensures Work(s') == Work(s)
  {
  }

  /** A thread that sleeps while an instruction of its stream is in flight outside the
      LSQ: if no interrupt is pending, the panic can follow. */
  lemma AsleepPanics(cfg: Config, sys: System) returns (evs: seq<Event>)
    requires StageInv(sys) && ValidConfig(cfg) && sys.ex.drain == NotDraining && Answered(cfg, sys.ex)
    requires sys.ex.th.suspended && Unfinished(sys.ex)
    ensures PossibleRun(cfg, sys, evs) && Run(cfg, sys, evs).ex.th.panicked
    ensures forall ev | ev in evs :: Uninterrupted(ev)
  {
    if sys.ex.th.panicked {
      evs := [];
    } else {
      assert Doomed(sys.ex);
      hide StageInv, Doomed, InSlot, Answered, Unfinished, Run, PossibleRun, Uninterrupted;
      var k := DoomedSlot(sys.ex);
      evs := PanicsWithin(cfg, sys, k);
    }
  }

  // ---------- Falling asleep ----------

  /** In this iteration the head takes effect and puts the thread to sleep without a
      change of stream, leaving something of it to execute. */
  ghost predicate Sleeps(cfg: Config, s: State, c: Ctl, onlyMicroops: bool, e: IterEnv)
    requires s.q.inFlight != []
  {
    PutsToSleep(cfg, s, c, onlyMicroops, false, e) && !HeadResteers(cfg, s, e) && !NoneBehind(s)
  }

  lemma SleepIter(cfg: Config, s: State, c: Ctl, onlyMicroops: bool, e: IterEnv)
    requires ExInv(s) && s.q.inFlight != [] && Sleeps(cfg, s, c, onlyMicroops, e)
    ensures var s' := CommitIter(cfg, s, c, onlyMicroops, false, e).0;
      && s'.th.suspended && Unfinished(s') && s'.th.panicked == s.th.panicked && s'.drain == s.drain
      && (Answered(cfg, s) ==> Answered(cfg, s'))
  {
    MayKeep(s);
    var s' := CommitIter(cfg, s, c, onlyMicroops, false, e).0;
    IterEffects(cfg, s, c, onlyMicroops, false, e);
    IterShrinks(cfg, s, c, onlyMicroops, false, e);
    SleepTakes(cfg, s, c, onlyMicroops, e);
    HeadIsOther(s);
    hide CommitIter, ExInv, HeadResteers, MayDiscard, Answered, Unfinished;
    assert s'.q.inFlight == s.q.inFlight[1..];
    SomeBehind(s, s');
    if Answered(cfg, s) { AnsweredBehind(cfg, s, s'); }
  }

  lemma SomeBehind(s: State, s': State)
    requires s.q.inFlight != [] && !NoneBehind(s) && s'.th.stream == s.th.stream && s'.q.inFlight == s.q.inFlight[1..]
    requires s'.q.inLSQ <= s.q.inLSQ + {s.q.inFlight[0].id}
    requires forall i | i in s.q.inFlight[1..] :: s.q.inFlight[0].id < i.id
    ensures Unfinished(s')
  {
  }

  lemma AnsweredBehind(cfg: Config, s: State, s': State)
    requires s.q.inFlight != [] && Answered(cfg, s) && s'.q.inFlight == s.q.inFlight[1..]
    requires s'.q.inLSQ <= s.q.inLSQ + {s.q.inFlight[0].id}
    requires forall i | i in s.q.inFlight[1..] :: s.q.inFlight[0].id < i.id
    ensures Answered(cfg, s')
  {
  }

  lemma AnsweredFewer(cfg: Config, s: State, s': State)
    requires Answered(cfg, s) && FewerThan(s', s)
    ensures Answered(cfg, s')
  {
  }

  lemma HeadIsOther(s: State)
    requires ExInv(s) && s.q.inFlight != []
    ensures forall i | i in s.q.inFlight[1..] :: s.q.inFlight[0].id < i.id
  {
    InFlightIncreasing(s.q);
    TailIsYounger(s.q.inFlight);
  }

  /** It was the head that took effect. */
  lemma SleepTakes(cfg: Config, s: State, c: Ctl, onlyMicroops: bool, e: IterEnv)
    requires ExInv(s) && s.q.inFlight != [] && Sleeps(cfg, s, c, onlyMicroops, e)
    ensures var s' := CommitIter(cfg, s, c, onlyMicroops, false, e).0;
      && s'.th.suspended && s'.th.stream == s.th.stream && s'.th.panicked == s.th.panicked
      && s'.q.inLSQ <= s.q.inLSQ + {s.q.inFlight[0].id}
  {
    hide ExInv, Considers, Resteers, TryInst, FinishU, LeaveQ, SendQ, NoneBehind;
    var p := PickInst(cfg, s, c, onlyMicroops, e);
    IterCase(cfg, s, c, onlyMicroops, false, e);
    SentTo(cfg, s, c, onlyMicroops, e);
    hide PickInst;
    TakesHead(cfg, s, p, e);
    ResteersExactly(cfg, s.th, s.bar.last, p, false, e);
    TryInstThread(cfg, s.th, s.bar.last, p, false, e);
  }

  lemma TakesHead(cfg: Config, s: State, p: Pick, e: IterEnv)
    requires !p.NoPick? && Considers(s, p, false, TryInst(cfg, s.th, s.bar.last, p, false, e).1)
    requires TryInst(cfg, s.th, s.bar.last, p, false, e).0.log != s.th.log
    ensures s.q.inFlight != [] && p.inst == s.q.inFlight[0] && (p.inst.fault ==> !p.inst.memRef)
    ensures p.Response? <==> s.q.inFlight[0].id in s.q.inLSQ
  {
    TryInstEffects(cfg, s.th, s.bar.last, p, false, e);
    hide TryInst;
  }

  /** An iteration puts none but the picked instruction into the LSQ. */
  lemma SentTo(cfg: Config, s: State, c: Ctl, onlyMicroops: bool, e: IterEnv)
    requires s.q.inFlight != [] && !PickInst(cfg, s, c, onlyMicroops, e).NoPick?
    ensures CommitIter(cfg, s, c, onlyMicroops, false, e).0.q.inLSQ <=
      s.q.inLSQ + {PickInst(cfg, s, c, onlyMicroops, e).inst.id}
  {
    hide PickInst, TryInst, FinishU, ClearDests, CompleteBarrier;
  }

  /** The cycle as it was up to its n-th iteration, and still from then on. */
  function StoppedAfter(e: CycleEnv, n: nat): CycleEnv {
    e.(commit := (k: nat) => if k <= n then e.commit(k) else STILL)
  }

  lemma {:induction false} SameUpTo(cfg: Config, s: State, onlyMicroops: bool, e: CycleEnv, n: nat, k: nat)
    requires k <= n + 1
    ensures CommitUpTo(cfg, s, onlyMicroops, false, StoppedAfter(e, n).commit, k) ==
      CommitUpTo(cfg, s, onlyMicroops, false, e.commit, k)
  {
    hide CommitIter, CommitGuard;
    if k > 0 { SameUpTo(cfg, s, onlyMicroops, e, n, k - 1); }
  }

  lemma SomethingLeft(cfg: Config, s0: State, s: State, c: Ctl)
    requires LoopInv(cfg, s0, s, c, false) && CommitGuard(cfg, s, c)
    ensures ExInv(s) && s.q.inFlight != [] && 0 < Work(s)
  {
  }

  /** The commit call that is calm after the sleeper. */
  lemma SleepCall(cfg: Config, s0: State, onlyMicroops: bool, e: CycleEnv, n: nat)
    requires ExInv(s0) && s0.th.branch == BUBBLE
    requires var (s, c) := CommitUpTo(cfg, s0, onlyMicroops, false, e.commit, n);
      && CommitGuard(cfg, s, c) && Sleeps(cfg, s, c, onlyMicroops, e.commit(n))
      && !s.th.panicked && Answered(cfg, s)
    ensures var s' := Commit(cfg, s0, onlyMicroops, false, StoppedAfter(e, n).commit).0;
      && s'.th.suspended && (s'.th.panicked || Unfinished(s')) && Answered(cfg, s')
      && s'.drain == s0.drain
  {
    hide ExInv, CommitGuard, Unfinished, Sleeps, Answered, Commit;
    var env := StoppedAfter(e, n).commit;
    SleepAt(cfg, s0, onlyMicroops, e, n);
    assert CalmFrom(cfg, s0, onlyMicroops, env, n + 1) by { StillAfter(cfg, s0, onlyMicroops, e, n); }
    hide CalmFrom, CommitUpTo, StoppedAfter;
    CalmToEnd(cfg, s0, onlyMicroops, env, n + 1);
  }

  lemma StillAfter(cfg: Config, s: State, onlyMicroops: bool, e: CycleEnv, n: nat)
    ensures CalmFrom(cfg, s, onlyMicroops, StoppedAfter(e, n).commit, n + 1)
  {
    hide CommitUpTo;
  }

  lemma SleepAt(cfg: Config, s0: State, onlyMicroops: bool, e: CycleEnv, n: nat)
    requires ExInv(s0) && s0.th.branch == BUBBLE
    requires var (s, c) := CommitUpTo(cfg, s0, onlyMicroops, false, e.commit, n);
      && CommitGuard(cfg, s, c) && Sleeps(cfg, s, c, onlyMicroops, e.commit(n))
      && !s.th.panicked && Answered(cfg, s)
    ensures var (s1, c1) := CommitUpTo(cfg, s0, onlyMicroops, false, StoppedAfter(e, n).commit, n + 1);
      Restless(s1, c1) && Answered(cfg, s1) && n < CommitBound(s0)
  {
    assert CommitBound(s0) == Work(s0) + 1;
    hide ExInv, CommitIter, CommitGuard, Unfinished, Sleeps, LoopInv, Work, MayDiscard, Answered;
    var (s, c) := CommitUpTo(cfg, s0, onlyMicroops, false, e.commit, n);
    MayKeep(s0);
    SameUpTo(cfg, s0, onlyMicroops, e, n, n);
    CommitUpToKeeps(cfg, s0, onlyMicroops, false, e.commit, n);
    SomethingLeft(cfg, s0, s, c);
    SleepIter(cfg, s, c, onlyMicroops, e.commit(n));
  }

  /** A call that is calm from the m-th iteration on. */
  lemma CalmToEnd(cfg: Config, s: State, onlyMicroops: bool, env: nat -> IterEnv, m: nat)
    requires ExInv(s) && s.th.branch == BUBBLE && m <= CommitBound(s) && CalmFrom(cfg, s, onlyMicroops, env, m)
    requires var (s1, c1) := CommitUpTo(cfg, s, onlyMicroops, false, env, m); Restless(s1, c1) && Answered(cfg, s1)
    ensures var s' := Commit(cfg, s, onlyMicroops, false, env).0;
      s'.th.suspended && (s'.th.panicked || Unfinished(s')) && Answered(cfg, s') && s'.drain == s.drain
  {
    hide ExInv, CommitUpTo, CommitGuard, Unfinished, LoopInv, MayDiscard, Answered, CalmFrom, FewerThan;
    MayKeep(s);
    CalmCall(cfg, s, onlyMicroops, env, m, CommitBound(s));
    AnsweredFewer(cfg, CommitUpTo(cfg, s, onlyMicroops, false, env, m).0, Commit(cfg, s, onlyMicroops, false, env).0);
    CommitLoopEnds(cfg, s, onlyMicroops, false, env);
    LoopDrain(cfg, s, Commit(cfg, s, onlyMicroops, false, env).0, Commit(cfg, s, onlyMicroops, false, env).1);
  }

  lemma BeginAwake(s: State, e: CycleEnv)
    requires FullInv(s) && (BubbleLine(e.line) || LineOK(s, e.line)) && s.drain == NotDraining
    ensures ExInv(Begin(s, e)) && Begin(s, e).th.branch == BUBBLE && Begin(s, e).drain == NotDraining
  {
    BeginKeeps(s, e);
    hide ExInv;
  }

  /** From every state of every run: if an instruction puts its thread to sleep
      without a change of stream and leaves something of it to execute, the panic can
      follow, once no interrupt is pending. */
  lemma SleeperPanics(cfg: Config, sys: System, e: CycleEnv, n: nat) returns (evs: seq<Event>)
    requires StageInv(sys) && ValidConfig(cfg) && Possible(cfg, sys, Cycle(e))
    requires sys.ex.drain == NotDraining && !InterruptTaken(Begin(sys.ex, e), e)
    requires var (s, c) := CommitUpTo(cfg, Begin(sys.ex, e), e.interrupted, false, e.commit, n);
      && CommitGuard(cfg, s, c) && Sleeps(cfg, s, c, e.interrupted, e.commit(n))
      && !s.th.panicked && Answered(cfg, s)
    ensures var all := [Cycle(StoppedAfter(e, n))] + evs;
      PossibleRun(cfg, sys, all) && Run(cfg, sys, all).ex.th.panicked
    ensures forall ev | ev in evs :: Uninterrupted(ev)
  {
    var ev := Cycle(StoppedAfter(e, n));
    SleepStep(cfg, sys, e, n);
    hide StageInv, Begin, CommitUpTo, CommitGuard, Sleeps, Answered, Unfinished, Evaluate, Delivers, Uninterrupted;
    EventStage(cfg, sys, ev);
    var sys' := Apply(cfg, sys, ev);
    hide Apply, Run, PossibleRun;
    if sys'.ex.th.panicked {
      evs := [];
      NoEvents(cfg, sys');
    } else {
      evs := AsleepPanics(cfg, sys');
    }
    RunCons(cfg, sys, ev, evs);
  }

  lemma SleepStep(cfg: Config, sys: System, e: CycleEnv, n: nat)
    requires StageInv(sys) && ValidConfig(cfg) && Possible(cfg, sys, Cycle(e))
    requires sys.ex.drain == NotDraining && !InterruptTaken(Begin(sys.ex, e), e)
    requires var (s, c) := CommitUpTo(cfg, Begin(sys.ex, e), e.interrupted, false, e.commit, n);
      && CommitGuard(cfg, s, c) && Sleeps(cfg, s, c, e.interrupted, e.commit(n))
      && !s.th.panicked && Answered(cfg, s)
    ensures Possible(cfg, sys, Cycle(StoppedAfter(e, n)))
    ensures var s' := Apply(cfg, sys, Cycle(StoppedAfter(e, n))).ex;
      && s'.th.suspended && s'.drain == NotDraining
      && (s'.th.panicked || Unfinished(s')) && Answered(cfg, s')
  {
    var e', s0 := StoppedAfter(e, n), Begin(sys.ex, e);
    assert Begin(sys.ex, e') == s0;
    StageParts(cfg, sys, e);
    BeginAwake(sys.ex, e);
    SleepCall(cfg, s0, e.interrupted, e, n);
    var s1 := Commit(cfg, s0, e'.interrupted, false, e'.commit).0;
    hide StageInv, FullInv, ExInv, Begin, Commit, CommitUpTo, Sleeps, LineOK, AdvanceUnits, Delivers, Unfinished;
    AfterCall(cfg, sys.ex, e', s1);
    LeftAt(s1, Evaluate(cfg, sys.ex, e'));
    hide Evaluate;
  }

  // ---------- A sleeping thread with nothing left to do ----------

  lemma IterSleeps(cfg: Config, s: State, c: Ctl, onlyMicroops: bool, discard: bool, e: IterEnv)
    requires s.q.inFlight != [] && s.th.suspended
    ensures CommitIter(cfg, s, c, onlyMicroops, discard, e).0.th.suspended
  {
    var p := PickInst(cfg, s, c, onlyMicroops, e);
    if !p.NoPick? { TrySleeps(cfg, s.th, s.bar.last, p, discard, e); }
    hide PickInst, TryInst, LeaveQ, SendQ, FinishU, ClearDests, CompleteBarrier;
  }

  lemma TrySleeps(cfg: Config, th: Thread, last: SeqNum, p: Pick, discard: bool, e: IterEnv)
    requires !p.NoPick? && th.suspended
    ensures TryInst(cfg, th, last, p, discard, e).0.suspended
  {
  }

  /** It stays so throughout a commit call. */
  lemma {:induction false} CallSleeps(cfg: Config, s: State, onlyMicroops: bool, discard: bool, env: nat -> IterEnv,
                                      k: nat)
    requires ExInv(s) && MayDiscard(s, discard) && s.th.branch == BUBBLE && s.th.suspended && NothingLeft(s)
    ensures var s' := CommitUpTo(cfg, s, onlyMicroops, discard, env, k).0; s'.th.suspended && NothingLeft(s')
  {
    hide ExInv, MayDiscard, CommitIter, LoopInv, Unfinished, Work;
    if k > 0 {
      CallSleeps(cfg, s, onlyMicroops, discard, env, k - 1);
      CommitUpToKeeps(cfg, s, onlyMicroops, discard, env, k - 1);
      var (s1, c1) := CommitUpTo(cfg, s, onlyMicroops, discard, env, k - 1);
      if CommitGuard(cfg, s1, c1) {
        LoopParts(cfg, s, s1, c1, discard);
        NoneBehindLeft(s1);
        IterSafely(cfg, s1, c1, onlyMicroops, discard, env(k - 1), false);
        IterSleeps(cfg, s1, c1, onlyMicroops, discard, env(k - 1));
      }
    }
  }

  lemma NoneBehindLeft(s: State)
    requires s.q.inFlight != [] && !Unfinished(s)
    ensures NoneBehind(s)
  {
  }

  /** So every instruction is careful in what it leaves. */
  lemma CallIsCareful(cfg: Config, s: State, onlyMicroops: bool, discard: bool, env: nat -> IterEnv)
    requires ExInv(s) && MayDiscard(s, discard) && s.th.branch == BUBBLE && s.th.suspended && NothingLeft(s)
    ensures CallCareful(cfg, s, onlyMicroops, discard, env, false)
  {
    hide ExInv, MayDiscard, CommitUpTo, Unfinished, NoneBehind, HeadResteers, PutsToSleep;
    forall k: nat | var (s1, c1) := CommitUpTo(cfg, s, onlyMicroops, discard, env, k); CommitGuard(cfg, s1, c1)
      ensures var (s1, c1) := CommitUpTo(cfg, s, onlyMicroops, discard, env, k);
        Careful(cfg, s1, c1, onlyMicroops, discard, env(k), false)
    {
      CallSleeps(cfg, s, onlyMicroops, discard, env, k);
      NoneBehindLeft(CommitUpTo(cfg, s, onlyMicroops, discard, env, k).0);
    }
  }

  lemma CycleIsCareful(cfg: Config, s: State, e: CycleEnv)
    requires FullInv(s) && (BubbleLine(e.line) || LineOK(s, e.line)) && s.th.suspended && NothingLeft(s)
    ensures CycleCareful(cfg, Begin(s, e), e, false)
  {
    var s0, s1 := Begin(s, e), Dumped(Begin(s, e));
    BeginKeeps(s, e);
    BeginSame(s, e);
    DumpedArgs(s0, e);
    assert ExInv(s1) && s1.drain == s.drain;
    if s.drain == DrainAllInsts { DrainedMayDiscard(s1); }
    LeftAt(s, s1);
    assert CommitArgs(s0, e).0 == s1;
    var (_, onlyMicroops, discard) := CommitArgs(s0, e);
    hide FullInv, ExInv, CallCareful, Unfinished, Begin, Dumped, LineOK, BubbleLine;
    CallIsCareful(cfg, s1, onlyMicroops, discard, e.commit);
  }

  lemma EvaluateSleeps(cfg: Config, s: State, e: CycleEnv)
    requires FullInv(s) && (BubbleLine(e.line) || LineOK(s, e.line)) && ValidConfig(cfg)
    requires s.th.suspended && NothingLeft(s)
    ensures Evaluate(cfg, s, e).th.suspended
  {
    var s1 := Dumped(Begin(s, e));
    BeginKeeps(s, e);
    BeginSame(s, e);
    DumpFirst(cfg, Begin(s, e), e);
    DumpedArgs(Begin(s, e), e);
    LeftAt(s, s1);
    hide Begin, Dumped, FullInv, CommitAndIssue, AdvanceUnits, LineOK, BubbleLine, Unfinished;
    WorkSleeps(cfg, s1, e);
  }

  lemma WorkSleeps(cfg: Config, s: State, e: CycleEnv)
    requires FullInv(s) && ValidConfig(cfg) && s.th.branch == BUBBLE && s.th.suspended && NothingLeft(s)
    requires s == Dumped(s)
    ensures CommitAndIssue(cfg, s, e).th.suspended
  {
    hide FullInv, Issue, IssueInv, CommitPhase, HaltPhase, Unfinished;
    if !InterruptTaken(s, e) {
      PhaseSleeps(cfg, s, e);
      CommitPhaseKeeps(cfg, s, e);
      HaltPhaseKeeps(CommitPhase(cfg, s, e));
      var s1 := HaltPhase(CommitPhase(cfg, s, e));
      var n := IssueLoopEnds(cfg, s1, e.issue);
      IssueSameThread(cfg, s1, e.issue, n);
    }
  }

  lemma PhaseSleeps(cfg: Config, s: State, e: CycleEnv)
    requires FullInv(s) && s.th.branch == BUBBLE && s.th.suspended && NothingLeft(s) && s == Dumped(s)
    ensures HaltPhase(CommitPhase(cfg, s, e)).th.suspended
  {
    hide FullInv, ExInv, CommitUpTo, MayDiscard, NothingLeft;
    CallReady(s);
    if s.drain != DrainHaltFetch {
      var (_, onlyMicroops, discard) := CommitArgs(s, e);
      CallSleeps(cfg, s, onlyMicroops, discard, e.commit, CommitBound(s));
    }
  }

  /** Asleep, with nothing left to execute, and not panicked. */
  ghost predicate AtRest(sys: System) {
    StageInv(sys) && sys.ex.th.suspended && NothingLeft(sys.ex) && !sys.ex.th.panicked
  }

  lemma CycleRests(cfg: Config, sys: System, e: CycleEnv)
    requires AtRest(sys) && ValidConfig(cfg) && Possible(cfg, sys, Cycle(e))
    ensures AtRest(Apply(cfg, sys, Cycle(e)))
  {
    hide StageInv, Delivers, Evaluate, LineOK, BubbleLine, Unfinished, CycleCareful, CyclePends, Forward;
    EventStage(cfg, sys, Cycle(e));
    StageParts(cfg, sys, e);
    CycleIsCareful(cfg, sys.ex, e);
    CycleSafely(cfg, sys.ex, e, false);
    CyclePanics(cfg, sys.ex, e);
    EvaluateSleeps(cfg, sys.ex, e);
  }

  lemma {:induction false} RunRests(cfg: Config, sys: System, evs: seq<Event>)
    requires AtRest(sys) && ValidConfig(cfg) && PossibleRun(cfg, sys, evs) && forall ev | ev in evs :: ev.Cycle?
    ensures AtRest(Run(cfg, sys, evs))
    decreases |evs|
  {
    hide AtRest, Delivers, Apply;
    if evs != [] {
      CycleRests(cfg, sys, evs[0].env);
      assert evs[0] == Cycle(evs[0].env);
      RunRests(cfg, Apply(cfg, sys, evs[0]), evs[1..]);
    }
  }

  ghost predicate Panicking(cfg: Config, sys: System, evs: seq<Event>) {
    PossibleRun(cfg, sys, evs) && (forall ev | ev in evs :: ev.Cycle?) && Run(cfg, sys, evs).ex.th.panicked
  }

  /** A sleeping thread can come to panic before it is woken exactly if an instruction
      of its stream is in flight outside the LSQ. */
  lemma PanicsExactly(cfg: Config, sys: System)
    requires StageInv(sys) && ValidConfig(cfg) && sys.ex.drain == NotDraining && Answered(cfg, sys.ex)
    requires sys.ex.th.suspended && !sys.ex.th.panicked
    ensures (exists evs: seq<Event> :: Panicking(cfg, sys, evs)) <==> Unfinished(sys.ex)
  {
    hide StageInv, Answered, Unfinished, Run, PossibleRun;
    if Unfinished(sys.ex) {
      var evs := AsleepPanics(cfg, sys);
      assert Panicking(cfg, sys, evs);
    } else {
      forall evs: seq<Event> ensures !Panicking(cfg, sys, evs) {
        if Panicking(cfg, sys, evs) { RunRests(cfg, sys, evs); }
      }
    }
  }
}
