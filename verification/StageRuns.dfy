/**
  What holds in every run the surroundings can produce, whatever its
  instructions do to their thread: the queues, the history and the drain
  protocol.
 */
module StageRuns {
  import opened Options
  import opened MinorTypes
  import opened QueueLemmas
  import opened QueueInvariants
  import opened UnitInvariants
  import opened DependencyInvariants
  import opened CommitSpec
  import opened CommitTheorems
  import opened IssueSpec
  import opened IssueTheorems
  import opened CycleSpec
  import opened CycleTheorems
  import opened Pipeline

  // ---------- Instructions that took effect are completed ones, in order ----------

  /** The instructions that took effect, in order. */
  ghost function TookOf(log: seq<Effect>): seq<Inst> {
    if log == [] then []
    else TookOf(log[..|log| - 1]) + (if log[|log| - 1].Took? then [log[|log| - 1].inst] else [])
  }

  /** The last to complete ended a macro-op, or none has completed. */
  ghost predicate AtEnd(completed: seq<Inst>) { completed == [] || Ends(completed[|completed| - 1]) }

  ghost predicate HistInv(s: State) {
    && Increasing(TookOf(s.th.log)) && (forall i | i in TookOf(s.th.log) :: i in s.q.completed)
    && (s.lastEnd <==> AtEnd(s.q.completed))
  }

  lemma TookAppend(log: seq<Effect>, x: Effect)
    ensures TookOf(log + [x]) == TookOf(log) + (if x.Took? then [x.inst] else [])
  {
    assert (log + [x])[..|log|] == log;
  }

  lemma CompletedIsOlder(q: Queues, i: Inst)
    requires OrderInv(q) && q.inFlight != [] && i in q.completed
    ensures i.id < q.inFlight[0].id
  {
    var k :| 0 <= k < |q.completed| && q.completed[k] == i;
    assert q.issued[k] == i && q.issued[|q.completed|] == q.inFlight[0];
  }

  lemma HistTook(s: State, s': State)
    requires OrderInv(s.q) && HistInv(s) && s.q.inFlight != []
    requires s'.th.log == s.th.log + [Took(s.q.inFlight[0], s'.th.pc)]
    requires s'.q.completed == s.q.completed + [s.q.inFlight[0]] && s'.lastEnd == Ends(s.q.inFlight[0])
    ensures HistInv(s')
  {
    var took, x := TookOf(s.th.log), s.q.inFlight[0];
    TookAppend(s.th.log, Took(x, s'.th.pc));
    forall j | 0 <= j < |took| ensures took[j].id < x.id {
      assert took[j] in took;
      CompletedIsOlder(s.q, took[j]);
    }
  }

  lemma HistDrop(s: State, s': State)
    requires HistInv(s) && s.q.inFlight != [] && s'.th.log == s.th.log
    requires s'.q.completed == s.q.completed + [s.q.inFlight[0]] && s'.lastEnd == Ends(s.q.inFlight[0])
    ensures HistInv(s')
  {
  }

  lemma HistFrame(s: State, s': State)
    requires HistInv(s) && s'.th.log == s.th.log && s'.q.completed == s.q.completed && s'.lastEnd == s.lastEnd
    ensures HistInv(s')
  {
  }

  lemma HistRedirect(s: State, s': State, pc: PC)
    requires HistInv(s) && s'.th.log == s.th.log + [Redirect(s.th.pc, pc)]
    requires s'.q.completed == s.q.completed && s'.lastEnd == s.lastEnd
    ensures HistInv(s') && TookOf(s'.th.log) == TookOf(s.th.log)
  {
    TookAppend(s.th.log, Redirect(s.th.pc, pc));
  }

  lemma IterHist(cfg: Config, s: State, c: Ctl, onlyMicroops: bool, discard: bool, e: IterEnv)
    requires ExInv(s) && s.q.inFlight != [] && MayDiscard(s, discard) && HistInv(s)
    ensures var s' := CommitIter(cfg, s, c, onlyMicroops, discard, e).0;
      HistInv(s') && (discard ==> TookOf(s'.th.log) == TookOf(s.th.log))
  {
    var s' := CommitIter(cfg, s, c, onlyMicroops, discard, e).0;
    hide CommitIter, HistInv, FilterInv, SentInv, UnitInv, ScoreInv, BarrierInv, WaitInv, TookOf, MayDiscard;
    IterEffects(cfg, s, c, onlyMicroops, discard, e);
    if s'.th.log == s.th.log {
      if s'.q.completed == s.q.completed { HistFrame(s, s'); } else { HistDrop(s, s'); }
    } else if s'.th.log[|s.th.log|].Took? {
      HistTook(s, s');
    } else {
      HistRedirect(s, s', s'.th.pc);
    }
  }

  lemma {:induction false} CommitUpToHist(cfg: Config, s: State, onlyMicroops: bool, discard: bool,
                                          env: nat -> IterEnv, k: nat)
    requires ExInv(s) && MayDiscard(s, discard) && s.th.branch == BUBBLE && HistInv(s)
    ensures var s' := CommitUpTo(cfg, s, onlyMicroops, discard, env, k).0;
      HistInv(s') && (discard ==> TookOf(s'.th.log) == TookOf(s.th.log))
  {
    hide ExInv, MayDiscard, HistInv, TookOf, CommitIter, CommitGuard, OneChangeSince, WithinLimits;
    if k > 0 {
      CommitUpToHist(cfg, s, onlyMicroops, discard, env, k - 1);
      CommitUpToKeeps(cfg, s, onlyMicroops, discard, env, k - 1);
      var (s1, c1) := CommitUpTo(cfg, s, onlyMicroops, discard, env, k - 1);
      if CommitGuard(cfg, s1, c1) {
        GuardFacts(cfg, s1, c1);
        IterHist(cfg, s1, c1, onlyMicroops, discard, env(k - 1));
      }
    }
  }

  lemma CommitHist(cfg: Config, s: State, onlyMicroops: bool, discard: bool, env: nat -> IterEnv)
    requires FullInv(s) && s.th.branch == BUBBLE && (discard ==> s.drain == DrainAllInsts) && HistInv(s)
    ensures var s' := Commit(cfg, s, onlyMicroops, discard, env).0;
      && HistInv(s') && (discard ==> TookOf(s'.th.log) == TookOf(s.th.log))
      && s'.drain == s.drain && s'.th.branch.reason != HaltFetch
  {
    if discard { DrainedMayDiscard(s); }
    CommitUpToHist(cfg, s, onlyMicroops, discard, env, CommitBound(s));
    CommitKeeps(cfg, s, onlyMicroops, discard, env);
    CommitNoHalt(cfg, s, onlyMicroops, discard, env, CommitBound(s));
  }

  lemma {:induction false} CommitNoHalt(cfg: Config, s: State, onlyMicroops: bool, discard: bool,
                                        env: nat -> IterEnv, k: nat)
    requires s.th.branch == BUBBLE
    ensures CommitUpTo(cfg, s, onlyMicroops, discard, env, k).0.th.branch.reason != HaltFetch
  {
    if k > 0 {
      CommitNoHalt(cfg, s, onlyMicroops, discard, env, k - 1);
      var (s1, c1) := CommitUpTo(cfg, s, onlyMicroops, discard, env, k - 1);
      hide CommitIter;
      if CommitGuard(cfg, s1, c1) {
        IterNoHalt(cfg, s1, c1, onlyMicroops, discard, env(k - 1));
      }
    }
  }

  lemma IterNoHalt(cfg: Config, s: State, c: Ctl, onlyMicroops: bool, discard: bool, e: IterEnv)
    requires s.q.inFlight != [] && s.th.branch.reason != HaltFetch
    ensures CommitIter(cfg, s, c, onlyMicroops, discard, e).0.th.branch.reason != HaltFetch
  {
    var p := PickInst(cfg, s, c, onlyMicroops, e);
    if !HasPCEvent(s, e) && !p.NoPick? {
      TryInstChanges(cfg, s.th, s.bar.last, p, discard, e);
      hide TryInst, FinishU, LeaveQ, SendQ;
    }
  }

  // ---------- The drain protocol ----------

  function Rank(d: DrainState): nat {
    match d case NotDraining => 0 case DrainCurrentInst => 1 case DrainHaltFetch => 2 case DrainAllInsts => 3
  }

  /** A drain that has got as far as halting fetch did so between instructions. */
  ghost predicate HaltInv(s: State) { s.drain == DrainHaltFetch ==> s.lastEnd }

  /** One cycle of the drain protocol. */
  ghost predicate DrainStep(s: State, s': State) {
    && Rank(s.drain) <= Rank(s'.drain) && (s.drain == NotDraining <==> s'.drain == NotDraining)
    && s'.drain != DrainHaltFetch
    && (s'.th.branch.reason == HaltFetch <==> s.drain != DrainAllInsts && s'.drain == DrainAllInsts)
    && (s'.th.branch.reason == HaltFetch ==> s'.lastEnd)
    && (s.drain == DrainHaltFetch || s.drain == DrainAllInsts ==> TookOf(s'.th.log) == TookOf(s.th.log))
  }

  lemma CommitPhaseDrain(cfg: Config, s: State, e: CycleEnv)
    requires FullInv(s) && s.th.branch == BUBBLE && HistInv(s) && HaltInv(s)
    ensures DrainStep(s, HaltPhase(CommitPhase(cfg, s, e))) && HistInv(HaltPhase(CommitPhase(cfg, s, e)))
  {
    hide FullInv, HistInv, Commit, TookOf;
    match s.drain
    case NotDraining => CommitHist(cfg, s, e.interrupted, false, e.commit);
    case DrainCurrentInst =>
      CommitHist(cfg, s, true, false, e.commit);
      var s1 := Commit(cfg, s, true, false, e.commit).0;
      HistFrame(s1, HaltPhase(CommitPhase(cfg, s, e)));
    case DrainHaltFetch => HistFrame(s, HaltPhase(s));
    case DrainAllInsts =>
      DumpedKeeps(s);
      HistFrame(s, s.(inp := DumpInput(s.inp)));
      CommitHist(cfg, s.(inp := DumpInput(s.inp)), false, true, e.commit);
  }

  lemma CommitAndIssueDrain(cfg: Config, s: State, e: CycleEnv)
    requires FullInv(s) && ValidConfig(cfg) && s.th.branch == BUBBLE && HistInv(s) && HaltInv(s)
    ensures DrainStep(s, CommitAndIssue(cfg, s, e)) && HistInv(CommitAndIssue(cfg, s, e))
  {
    hide FullInv, HistInv, CommitPhase, HaltPhase, Issue, IssueInv;
    if InterruptTaken(s, e) {
      var s' := CommitAndIssue(cfg, s, e);
      HistRedirect(s, s', e.handler.value);
    } else {
      CommitPhaseDrain(cfg, s, e);
      CommitPhaseKeeps(cfg, s, e);
      HaltPhaseKeeps(CommitPhase(cfg, s, e));
      var s1 := HaltPhase(CommitPhase(cfg, s, e));
      var n := IssueLoopEnds(cfg, s1, e.issue);
      IssueSameThread(cfg, s1, e.issue, n);
      HistFrame(s1, Issue(cfg, s1, e.issue).0);
    }
  }

  /** Each cycle takes the drain protocol forward, halts fetch exactly when it
      starts to discard, only between instructions, and from the halt on lets
      nothing take effect. */
  lemma EvaluateDrain(cfg: Config, s: State, e: CycleEnv)
    requires FullInv(s) && ValidConfig(cfg) && (BubbleLine(e.line) || LineOK(s, e.line)) && HistInv(s) && HaltInv(s)
    ensures DrainStep(s, Evaluate(cfg, s, e)) && HistInv(Evaluate(cfg, s, e)) && HaltInv(Evaluate(cfg, s, e))
  {
    hide FullInv, HistInv, CommitAndIssue, AdvanceUnits, LineOK, BubbleLine, TookOf;
    var s0 := Dumped(Begin(s, e));
    BeginKeeps(s, e);
    BeginSame(s, e);
    HistFrame(s, s0);
    DumpFirst(cfg, Begin(s, e), e);
    hide Begin, Dumped;
    CommitAndIssueDrain(cfg, s0, e);
    HistFrame(CommitAndIssue(cfg, s0, e), Evaluate(cfg, s, e));
  }

  lemma BeginSame(s: State, e: CycleEnv)
    ensures var s0 := Dumped(Begin(s, e));
      && s0.drain == s.drain && s0.lastEnd == s.lastEnd && s0.q == s.q && s0.u == s.u
      && s0.th == s.th.(branch := BUBBLE)
  {
  }

  // ---------- Runs ----------

  /** No stream is fetched, or announced, that the thread has not come to. */
  ghost predicate Behind(sys: System) {
    sys.fr.stream <= sys.ex.th.stream && forall b | b in sys.fr.signals :: b.newStream <= sys.ex.th.stream
  }

  ghost predicate StageInv(sys: System) {
    FullInv(sys.ex) && HistInv(sys.ex) && HaltInv(sys.ex) && Behind(sys)
  }

  /** A freshly built stage. */
  ghost predicate Fresh(s: State) {
    && s.inp == Input([], 0)
    && s.q == Queues([], [], {}, [], [], [], [])
    && s.u == Units(s.u.fus, map[], {}, map[])
    && (forall f | f in s.u.fus :: !f.stalled && |f.pipe| >= 2 && forall k | 0 <= k < |f.pipe| :: f.pipe[k].None?)
    && s.sb == Scoreboard(multiset{}, map[]) && s.bar == Barriers(0, {})
    && s.th == Thread(1, s.th.pc, false, false, BUBBLE, [])
    && s.lastEnd && s.drain == NotDraining
  }

  lemma FreshUnits(s: State)
    requires Fresh(s)
    ensures UnitInv(s.q, s.u, 1)
  {
    forall f, k | 0 <= f < |s.u.fus| && 0 <= k < |s.u.fus[f].pipe| ensures SlotInv(s.q, s.u, 1, f, k) {
      assert s.u.fus[f] in s.u.fus;
    }
  }

  lemma FreshStage(s: State)
    requires Fresh(s)
    ensures FullInv(s)
  {
    FreshUnits(s);
    FreshQueues(s);
    FreshInput(s);
    hide UnitInv, QueueInv, ScoreInv, BarrierInv, WaitInv, InputInv, StreamInv;
  }

  lemma FreshInput(s: State)
    requires Fresh(s)
    ensures InputInv(s) && StreamInv(s)
  {
    assert Pending(s.inp) == [];
  }

  lemma FreshQueues(s: State)
    requires Fresh(s)
    ensures QueueInv(s.q) && ScoreInv(s.q.inFlight, s.sb) && BarrierInv(s.q, s.bar) && WaitInv(s.q, s.u)
  {
  }

  /** A freshly built stage and front end. */
  ghost predicate Initial(sys: System) {
    Fresh(sys.ex) && sys.fr == Front(1, sys.ex.th.pc, Running, [])
  }

  lemma FreshHist(s: State)
    requires Fresh(s)
    ensures HistInv(s) && HaltInv(s)
  {
    assert TookOf(s.th.log) == [];
  }

  lemma InitialStage(sys: System)
    requires Initial(sys)
    ensures StageInv(sys)
  {
    FreshStage(sys.ex);
    FreshHist(sys.ex);
    hide FullInv, HistInv, HaltInv;
  }

  lemma StageParts(cfg: Config, sys: System, e: CycleEnv)
    requires StageInv(sys) && Possible(cfg, sys, Cycle(e))
    ensures FullInv(sys.ex) && (BubbleLine(e.line) || LineOK(sys.ex, e.line))
  {
    hide FullInv, HistInv, LineOK, BubbleLine, Delivers;
    PossibleLine(cfg, sys, e.line);
  }

  ghost predicate Halts(cfg: Config, sys: System, ev: Event)
    requires ev.TakeSignal? ==> sys.fr.signals != []
  {
    ev.Cycle? && Apply(cfg, sys, ev).ex.th.branch.reason == HaltFetch
  }

  /** What any event other than a resume does to the drain protocol. */
  ghost predicate Forward(cfg: Config, sys: System, ev: Event, sys': System)
    requires ev.TakeSignal? ==> sys.fr.signals != []
  {
    && Rank(sys.ex.drain) <= Rank(sys'.ex.drain)
    && (Halts(cfg, sys, ev) ==> sys.ex.drain != DrainAllInsts && sys'.ex.drain == DrainAllInsts && sys'.ex.lastEnd)
    && (sys.ex.drain == DrainAllInsts ==> TookOf(sys'.ex.th.log) == TookOf(sys.ex.th.log))
  }

  lemma SignalsBehind(sys: System, th: Thread)
    requires Behind(sys) && WireAgrees(sys.ex.th, th)
    ensures forall b | b in sys.fr.signals + Wire(th.branch) :: b.newStream <= th.stream
  {
  }

  /** Every event keeps the invariant, and every one but a resume takes the drain
      protocol forward. */
  lemma EventStage(cfg: Config, sys: System, ev: Event)
    requires StageInv(sys) && ValidConfig(cfg) && Possible(cfg, sys, ev)
    ensures StageInv(Apply(cfg, sys, ev))
    ensures !ev.Resume? ==> Forward(cfg, sys, ev, Apply(cfg, sys, ev))
  {
    hide FullInv, Delivers, HistInv, LineOK, BubbleLine, Evaluate, Drain, DrainStep;
    match ev
    case Cycle(e) =>
      CycleStage(cfg, sys, e);
    case TakeSignal(_) =>
      assert sys.fr.signals[0] in sys.fr.signals;
    case RequestDrain(accesses) =>
      DrainKeeps(sys.ex, accesses);
      DrainStage(sys, accesses);
    case _ =>
      AwakeKeeps(sys.ex);
      DrainKeeps(sys.ex.(th := sys.ex.th.(suspended := false)), false);
      HistFrame(sys.ex, Apply(cfg, sys, ev).ex);
  }

  lemma CycleStage(cfg: Config, sys: System, e: CycleEnv)
    requires StageInv(sys) && ValidConfig(cfg) && Possible(cfg, sys, Cycle(e))
    ensures StageInv(Apply(cfg, sys, Cycle(e)))
    ensures Forward(cfg, sys, Cycle(e), Apply(cfg, sys, Cycle(e)))
  {
    hide FullInv, Delivers, HistInv, LineOK, Evaluate, TookOf, WireAgrees;
    PossibleLine(cfg, sys, e.line);
    EvaluateKeeps(cfg, sys.ex, e);
    EvaluateDrain(cfg, sys.ex, e);
    SignalsBehind(sys, Evaluate(cfg, sys.ex, e).th);
    NotBehind(sys, Evaluate(cfg, sys.ex, e).th);
  }

  lemma NotBehind(sys: System, th: Thread)
    requires WireAgrees(sys.ex.th, th)
    ensures sys.ex.th.stream <= th.stream
  {
  }

  lemma DrainStage(sys: System, accesses: bool)
    requires StageInv(sys) && FullInv(Drain(sys.ex, accesses))
    ensures StageInv(System(Drain(sys.ex, accesses), sys.fr))
    ensures Rank(sys.ex.drain) <= Rank(Drain(sys.ex, accesses).drain)
    ensures Drain(sys.ex, accesses).th == sys.ex.th
  {
    hide FullInv, HistInv;
    HistFrame(sys.ex, Drain(sys.ex, accesses));
  }

  lemma {:induction false} RunStage(cfg: Config, sys: System, evs: seq<Event>)
    requires StageInv(sys) && ValidConfig(cfg) && PossibleRun(cfg, sys, evs)
    ensures StageInv(Run(cfg, sys, evs))
    decreases |evs|
  {
    hide StageInv, Apply, Delivers, Forward;
    if evs != [] {
      EventStage(cfg, sys, evs[0]);
      RunStage(cfg, Apply(cfg, sys, evs[0]), evs[1..]);
    }
  }

  /** In every run, whatever the ISA, the predictor, its degradation, all latencies
      and sleeping threads do: instructions complete once and in issue order, and
      take effect in that order; memory references enter the LSQ in issue order;
      and the queues, the LSQ and the scoreboard hold what is in flight. */
  lemma InOrder(cfg: Config, sys: System, evs: seq<Event>)
    requires Initial(sys) && ValidConfig(cfg) && PossibleRun(cfg, sys, evs)
    ensures var s := Run(cfg, sys, evs).ex;
      && Increasing(TookOf(s.th.log)) && (forall i | i in TookOf(s.th.log) :: i in s.q.completed)
      && s.q.issued == s.q.completed + s.q.inFlight && Increasing(s.q.issued)
      && s.q.inFUMem == Unsent(s.q.inFlight, s.q.inLSQ) && s.q.lsq == Held(s.q.inFlight, s.q.inLSQ)
      && Increasing(s.q.sent)
      && s.sb.numResults == Dests(s.q.inFlight)
  {
    InitialStage(sys);
    RunStage(cfg, sys, evs);
    hide Run, PossibleRun, Initial, TookOf, UnitInv, BarrierInv, WaitInv, StreamInv, InputInv;
  }

  ghost function HaltCount(cfg: Config, sys: System, evs: seq<Event>): nat
    requires PossibleRun(cfg, sys, evs)
    decreases |evs|
  {
    if evs == [] then 0
    else (if Halts(cfg, sys, evs[0]) then 1 else 0) + HaltCount(cfg, Apply(cfg, sys, evs[0]), evs[1..])
  }

  /** Between resumes the drain state only moves forward, fetch is halted at
      most once, and once it has been nothing takes effect. */
  lemma {:induction false} DrainOnce(cfg: Config, sys: System, evs: seq<Event>)
    requires StageInv(sys) && ValidConfig(cfg) && PossibleRun(cfg, sys, evs)
    requires forall ev | ev in evs :: !ev.Resume?
    ensures var s := Run(cfg, sys, evs).ex;
      && Rank(sys.ex.drain) <= Rank(s.drain)
      && HaltCount(cfg, sys, evs) <= (if sys.ex.drain == DrainAllInsts then 0 else 1)
      && (HaltCount(cfg, sys, evs) == 1 ==> s.drain == DrainAllInsts)
      && (sys.ex.drain == DrainAllInsts ==> TookOf(s.th.log) == TookOf(sys.ex.th.log))
    decreases |evs|
  {
    hide StageInv, Apply, Delivers, TookOf, Halts;
    if evs != [] {
      EventStage(cfg, sys, evs[0]);
      var sys' := Apply(cfg, sys, evs[0]);
      DrainOnce(cfg, sys', evs[1..]);
    }
  }
}
