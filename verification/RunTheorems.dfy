/**
  The theorems about whole runs of the pipeline: from a freshly built stage,
  through any legal sequence of cycles, signals, drains and resumes.
 */
module RunTheorems {
  import opened Options
  import opened MinorTypes
  import opened QueueLemmas
  import opened QueueInvariants
  import opened UnitInvariants
  import opened DependencyInvariants
  import opened CommitSpec
  import opened CommitTheorems
  import opened CommitCalls
  import opened IssueSpec
  import opened IssueTheorems
  import opened CycleSpec
  import opened CycleTheorems
  import opened Pipeline
  import opened SequentialTheorems
  import opened StageRuns

  // ---------- Legal runs ----------

  ghost predicate RunInv(cfg: Config, pc0: PC, sys: System, dozing: bool) {
    SysInv(cfg, pc0, sys, dozing) && StageInv(sys)
  }

  lemma InitialInv(cfg: Config, sys: System)
    requires Initial(sys)
    ensures RunInv(cfg, sys.ex.th.pc, sys, false)
  {
    InitialStage(sys);
    FreshPath(cfg, sys);
    hide FullInv, Initial, SeqInv, HistInv, HaltInv, Behind;
  }

  lemma FreshPath(cfg: Config, sys: System)
    requires Initial(sys)
    ensures SeqInv(cfg, sys.ex.th.pc, sys.ex, false, sys.fr, sys.fr.signals)
  {
    var s := sys.ex;
    assert Current(s, false) == [] by {
      assert Pending(s.inp) == [];
    }
    hide Current;
  }

  /** Every legal sequence of events keeps every invariant of stage, front end and
      history; the thread dozes at its end or not. */
  lemma {:induction false} RunKeeps(cfg: Config, pc0: PC, sys: System, dozing: bool, evs: seq<Event>)
    returns (dozing': bool)
    requires RunInv(cfg, pc0, sys, dozing) && ValidConfig(cfg) && LegalFrom(cfg, sys, dozing, evs)
    ensures RunInv(cfg, pc0, Run(cfg, sys, evs), dozing')
    decreases |evs|
  {
    hide SysInv, StageInv, Apply, Delivers, Forward, DozesOn, Quiet;
    dozing' := dozing;
    if evs != [] {
      EventSys(cfg, pc0, sys, dozing, evs[0]);
      EventStage(cfg, sys, evs[0]);
      var sys' := Apply(cfg, sys, evs[0]);
      dozing' := RunKeeps(cfg, pc0, sys', DozesOn(dozing, sys.ex.th, sys'.ex.th), evs[1..]);
    }
  }

  lemma RunSequential(cfg: Config, pc0: PC, sys: System, dozing: bool)
    requires RunInv(cfg, pc0, sys, dozing)
    ensures Sequential(pc0, sys.ex.th.log, sys.ex.th.pc)
  {
    hide FullInv, FrontInv, SigsInv, Sequential, StageInv;
  }

  /** In every legal run, whatever the ISA, the predictor, its degradation and
      all latencies do: the instructions that took effect were each at the
      thread's PC, in order, and are among the completed; every completed
      instruction completed once and in issue order; memory references entered
      the LSQ in issue order. */
  lemma SequentialCommit(cfg: Config, sys: System, evs: seq<Event>)
    requires Initial(sys) && ValidConfig(cfg) && LegalRun(cfg, sys, evs)
    ensures var s := Run(cfg, sys, evs).ex;
      && Sequential(sys.ex.th.pc, s.th.log, s.th.pc)
      && Increasing(TookOf(s.th.log)) && (forall i | i in TookOf(s.th.log) :: i in s.q.completed)
      && s.q.issued == s.q.completed + s.q.inFlight && Increasing(s.q.issued)
      && s.q.inFUMem == Unsent(s.q.inFlight, s.q.inLSQ) && s.q.lsq == Held(s.q.inFlight, s.q.inLSQ)
      && Increasing(s.q.sent)
      && s.sb.numResults == Dests(s.q.inFlight)
  {
    hide Run, Initial, PossibleRun, RunInv, Sequential, TookOf;
    InitialInv(cfg, sys);
    InOrder(cfg, sys, evs);
    var dozing := RunKeeps(cfg, sys.ex.th.pc, sys, false, evs);
    RunSequential(cfg, sys.ex.th.pc, Run(cfg, sys, evs), dozing);
  }

  // ---------- Runs without interrupts and PC events ----------

  ghost predicate OnlyTook(log: seq<Effect>) { forall x | x in log :: x.Took? }

  ghost predicate NoPCEvents(env: nat -> IterEnv) { forall k: nat :: env(k).pcEvent.None? }

  /** No interrupt is taken and no PC event strikes. */
  ghost predicate Plain(ev: Event) {
    ev.Cycle? ==> ev.env.handler.None? && NoPCEvents(ev.env.commit)
  }

  lemma TryInstPlain(cfg: Config, th: Thread, last: SeqNum, p: Pick, discard: bool, e: IterEnv)
    requires !p.NoPick? && OnlyTook(th.log)
    ensures OnlyTook(TryInst(cfg, th, last, p, discard, e).0.log)
  {
    TryLog(cfg, th, last, p, discard, e);
    hide TryInst;
  }

  lemma {:induction false} CommitPlain(cfg: Config, s: State, onlyMicroops: bool, discard: bool, env: nat -> IterEnv,
                                       k: nat)
    requires OnlyTook(s.th.log) && NoPCEvents(env)
    ensures OnlyTook(CommitUpTo(cfg, s, onlyMicroops, discard, env, k).0.th.log)
  {
    if k > 0 {
      hide OnlyTook, PickInst, TryInst, LeaveQ, SendQ, FinishU;
      CommitPlain(cfg, s, onlyMicroops, discard, env, k - 1);
      var (s1, c1) := CommitUpTo(cfg, s, onlyMicroops, discard, env, k - 1);
      if CommitGuard(cfg, s1, c1) {
        var p := PickInst(cfg, s1, c1, onlyMicroops, env(k - 1));
        if !p.NoPick? { TryInstPlain(cfg, s1.th, s1.bar.last, p, discard, env(k - 1)); }
      }
    }
  }

  lemma CommitPhasePlain(cfg: Config, s: State, e: CycleEnv)
    requires OnlyTook(s.th.log) && NoPCEvents(e.commit)
    ensures OnlyTook(HaltPhase(CommitPhase(cfg, s, e)).th.log)
  {
    hide OnlyTook, NoPCEvents, CommitUpTo;
    match s.drain
    case NotDraining => CommitPlain(cfg, s, e.interrupted, false, e.commit, CommitBound(s));
    case DrainCurrentInst => CommitPlain(cfg, s, true, false, e.commit, CommitBound(s));
    case DrainHaltFetch =>
    case DrainAllInsts =>
      var dumped := s.(inp := DumpInput(s.inp));
      CommitPlain(cfg, dumped, false, true, e.commit, CommitBound(dumped));
  }

  lemma CommitAndIssuePlain(cfg: Config, s: State, e: CycleEnv)
    requires FullInv(s) && ValidConfig(cfg) && s.th.branch == BUBBLE
    requires OnlyTook(s.th.log) && e.handler.None? && NoPCEvents(e.commit)
    ensures OnlyTook(CommitAndIssue(cfg, s, e).th.log)
  {
    hide FullInv, OnlyTook, NoPCEvents, Issue, IssueInv, CommitPhase, HaltPhase;
    CommitPhaseKeeps(cfg, s, e);
    HaltPhaseKeeps(CommitPhase(cfg, s, e));
    CommitPhasePlain(cfg, s, e);
    var s1 := HaltPhase(CommitPhase(cfg, s, e));
    var n := IssueLoopEnds(cfg, s1, e.issue);
    IssueSameThread(cfg, s1, e.issue, n);
  }

  lemma EvaluatePlain(cfg: Config, s: State, e: CycleEnv)
    requires FullInv(s) && ValidConfig(cfg) && (BubbleLine(e.line) || LineOK(s, e.line))
    requires OnlyTook(s.th.log) && Plain(Cycle(e))
    ensures OnlyTook(Evaluate(cfg, s, e).th.log)
  {
    var s0 := Dumped(Begin(s, e));
    BeginSame(s, e);
    DumpFirst(cfg, Begin(s, e), e);
    hide FullInv, OnlyTook, Begin, LineOK, BubbleLine, NoPCEvents, CommitAndIssue, AdvanceUnits, Dumped;
    BeginKeeps(s, e);
    CommitAndIssuePlain(cfg, s0, e);
  }

  lemma {:induction false} RunPlain(cfg: Config, sys: System, evs: seq<Event>)
    requires StageInv(sys) && ValidConfig(cfg) && PossibleRun(cfg, sys, evs)
    requires OnlyTook(sys.ex.th.log) && forall ev | ev in evs :: Plain(ev)
    ensures OnlyTook(Run(cfg, sys, evs).ex.th.log)
    decreases |evs|
  {
    hide StageInv, Delivers, OnlyTook, Plain, LineOK, BubbleLine, Evaluate, Forward;
    if evs != [] {
      EventStage(cfg, sys, evs[0]);
      assert Plain(evs[0]);
      if evs[0].Cycle? {
        StageParts(cfg, sys, evs[0].env);
        EvaluatePlain(cfg, sys.ex, evs[0].env);
      }
      RunPlain(cfg, Apply(cfg, sys, evs[0]), evs[1..]);
    }
  }

  /** Each entry is an instruction at the PC the one before it left. */
  ghost predicate FollowsPC(pc0: PC, log: seq<Effect>, pc: PC) {
    && (forall k | 0 <= k < |log| ::
          log[k].Took? && log[k].inst.pc == if k == 0 then pc0 else log[k - 1].next)
    && pc == if log == [] then pc0 else log[|log| - 1].next
  }

  lemma {:induction false} SequentialAt(pc0: PC, log: seq<Effect>, pc: PC, k: nat)
    requires Sequential(pc0, log, pc) && k < |log|
    ensures (if log[k].Took? then log[k].inst.pc else log[k].from) == (if k == 0 then pc0 else log[k - 1].next)
    ensures log[|log| - 1].next == pc
  {
    var init, last := log[..|log| - 1], log[|log| - 1];
    if k < |log| - 1 {
      SequentialAt(pc0, init, if last.Took? then last.inst.pc else last.from, k);
    } else if k > 0 {
      SequentialAt(pc0, init, if last.Took? then last.inst.pc else last.from, k - 1);
    }
  }

  /** Without interrupts and PC events the instructions that took effect are
      exactly the next-PC run of the program: the first one is at the PC the
      thread started with, each later one where its predecessor sent the thread,
      and the thread stands where the last one sent it. */
  lemma NextPCRun(cfg: Config, sys: System, evs: seq<Event>)
    requires Initial(sys) && ValidConfig(cfg) && LegalRun(cfg, sys, evs)
    requires forall ev | ev in evs :: Plain(ev)
    ensures var s := Run(cfg, sys, evs).ex;
      FollowsPC(sys.ex.th.pc, s.th.log, s.th.pc)
  {
    var pc0, s := sys.ex.th.pc, Run(cfg, sys, evs).ex;
    assert OnlyTook(sys.ex.th.log);
    hide Run, PossibleRun, Plain, OnlyTook, FollowsPC, Initial, RunInv, StageInv, Sequential, TookOf;
    InitialStage(sys);
    SequentialCommit(cfg, sys, evs);
    RunPlain(cfg, sys, evs);
    PlainFollows(pc0, s.th.log, s.th.pc);
  }

  lemma PlainFollows(pc0: PC, log: seq<Effect>, pc: PC)
    requires Sequential(pc0, log, pc) && OnlyTook(log)
    ensures FollowsPC(pc0, log, pc)
  {
    forall k | 0 <= k < |log| ensures log[k].Took? && log[k].inst.pc == if k == 0 then pc0 else log[k - 1].next {
      SequentialAt(pc0, log, pc, k);
    }
  }
}
