/**
  Memory references ahead of their turn.  At issue a reference is marked with one
  instruction to wait for; these lemmas show that in every run the mark stands for
  exactly what it should: the reference is held back by it if and only if something
  that must precede it is still in flight.
 */
module EarlyTheorems {
  import opened Options
  import opened MinorTypes
  import opened QueueLemmas
  import opened QueueInvariants
  import opened UnitInvariants
  import opened DependencyInvariants
  import opened CommitSpec
  import opened CommitTheorems
  import opened CommitLaws
  import opened IssueSpec
  import opened IssueTheorems
  import opened CycleSpec
  import opened CycleTheorems
  import opened Pipeline
  import opened StageRuns
  import opened BarrierTheorems

  /** w, m's mark, is past or is something in flight that must precede m. */
  ghost predicate Tight(fl: seq<Inst>, m: Inst, w: SeqNum) {
    (forall y | y in fl :: w < y.id) || exists y | y in fl :: y.id == w && MustPrecede(y, m)
  }

  /** No reference waits for longer than it must; and none is marked unless the
      configuration allows it. */
  ghost predicate TightInv(cfg: Config, q: Queues, u: Units) {
    && (forall m | m in q.inFUMem && m.id in u.canEarly :: Tight(q.inFlight, m, WaitFor(u, m)))
    && (!cfg.allowEarlyMemIssue ==> u.canEarly == {})
  }

  // ---------- Commit ----------

  lemma TightPop(fl: seq<Inst>, m: Inst, w: SeqNum)
    requires Increasing(fl) && fl != [] && Tight(fl, m, w)
    ensures Tight(fl[1..], m, w)
  {
    TailIsYounger(fl);
    if y :| y in fl && y.id == w && MustPrecede(y, m) {
      assert y == fl[0] || y in fl[1..];
    }
  }

  lemma TightFrame(cfg: Config, q: Queues, q': Queues, u: Units, u': Units)
    requires TightInv(cfg, q, u) && Increasing(q.inFlight) && u'.waitFor == u.waitFor && u'.canEarly <= u.canEarly
    requires q'.inFlight == q.inFlight || (q.inFlight != [] && q'.inFlight == q.inFlight[1..])
    requires forall m | m in q'.inFUMem :: m in q.inFUMem
    ensures TightInv(cfg, q', u')
  {
    hide Increasing, Tight;
    forall m | m in q'.inFUMem && m.id in u'.canEarly ensures Tight(q'.inFlight, m, WaitFor(u', m)) {
      if q'.inFlight != q.inFlight { TightPop(q.inFlight, m, WaitFor(u, m)); }
    }
  }

  /** What the bookkeeping does to the marks. */
  lemma FinishMarks(s: State, p: Pick, th: Thread, o: Outcome)
    requires s.q.inFlight != [] && !p.NoPick? && (p.Response? ==> s.q.lsq != [])
    ensures var s' := Finish(s, p, th, o);
      && s'.u.waitFor == s.u.waitFor
      && s'.u.canEarly == s.u.canEarly - (if o.HoldFault? && !p.Response? then {p.inst.id} else {})
      && (s'.q.inFUMem == s.q.inFUMem || (s.q.inFUMem != [] && s'.q.inFUMem == s.q.inFUMem[1..]))
      && (s'.q.inFlight == s.q.inFlight || s'.q.inFlight == s.q.inFlight[1..])
  {
    hide ClearDests, CompleteBarrier;
  }

  /** The access of a reference ahead of its turn is tried and refused. */
  ghost predicate Refused(cfg: Config, s: State, c: Ctl, onlyMicroops: bool, e: IterEnv)
    requires s.q.inFlight != []
  {
    var p := PickInst(cfg, s, c, onlyMicroops, e);
    && Undisturbed(s, e) && p.Early? && e.initFault && !(0 < s.bar.last < p.inst.id) && !e.delayed
    && (s.th.suspended ==> e.interrupted)
  }

  lemma TryRefuses(cfg: Config, th: Thread, last: SeqNum, p: Pick, discard: bool, e: IterEnv)
    requires !p.NoPick?
    requires p.Early? ==> p.inst.memRef && p.inst.stream == th.stream && !discard && !p.inst.fault && e.canRequest
    ensures TryInst(cfg, th, last, p, discard, e).1.HoldFault? <==>
      && p.Early? && e.initFault && !(0 < last < p.inst.id) && !e.delayed && (th.suspended ==> e.interrupted)
  {
  }

  lemma EarlyRoom(cfg: Config, s: State, c: Ctl, onlyMicroops: bool, e: IterEnv)
    requires s.q.inFlight != [] && PickInst(cfg, s, c, onlyMicroops, e).Early?
    ensures e.canRequest
  {
  }

  lemma MarksAfter(cfg: Config, s: State, c: Ctl, onlyMicroops: bool, discard: bool, e: IterEnv)
    requires ExInv(s) && s.q.inFlight != [] && MayDiscard(s, discard)
    ensures var s' := CommitIter(cfg, s, c, onlyMicroops, discard, e).0;
      && s'.u.waitFor == s.u.waitFor
      && s'.u.canEarly == s.u.canEarly
           - (if Refused(cfg, s, c, onlyMicroops, e) && s.q.inFUMem != [] then {s.q.inFUMem[0].id} else {})
      && (s'.q.inFUMem == s.q.inFUMem || (s.q.inFUMem != [] && s'.q.inFUMem == s.q.inFUMem[1..]))
      && (s'.q.inFlight == s.q.inFlight || s'.q.inFlight == s.q.inFlight[1..])
  {
    hide ExInv, MayDiscard, PickInst, TryInst, Finish;
    var p := PickInst(cfg, s, c, onlyMicroops, e);
    if Undisturbed(s, e) && !p.NoPick? {
      var (th, o) := TryInst(cfg, s.th, s.bar.last, p, discard, e);
      IterCase(cfg, s, c, onlyMicroops, discard, e);
      if p.Early? { EarlyRoom(cfg, s, c, onlyMicroops, e); }
      TryRefuses(cfg, s.th, s.bar.last, p, discard, e);
      FinishMarks(s, p, th, o);
    }
  }

  lemma IterTight(cfg: Config, s: State, c: Ctl, onlyMicroops: bool, discard: bool, e: IterEnv)
    requires ExInv(s) && s.q.inFlight != [] && MayDiscard(s, discard) && TightInv(cfg, s.q, s.u)
    ensures var s' := CommitIter(cfg, s, c, onlyMicroops, discard, e).0; TightInv(cfg, s'.q, s'.u)
  {
    hide CommitIter, ExInv, MayDiscard, TightInv, Refused;
    var s' := CommitIter(cfg, s, c, onlyMicroops, discard, e).0;
    MarksAfter(cfg, s, c, onlyMicroops, discard, e);
    Ordering(s);
    TightFrame(cfg, s.q, s'.q, s.u, s'.u);
  }

  lemma Ordering(s: State)
    requires ExInv(s)
    ensures OrderInv(s.q) && Increasing(s.q.inFlight)
  {
    InFlightIncreasing(s.q);
  }

  lemma {:induction false} CallTight(cfg: Config, s: State, onlyMicroops: bool, discard: bool, env: nat -> IterEnv,
                                     k: nat)
    requires ExInv(s) && MayDiscard(s, discard) && s.th.branch == BUBBLE && TightInv(cfg, s.q, s.u)
    ensures var s' := CommitUpTo(cfg, s, onlyMicroops, discard, env, k).0; TightInv(cfg, s'.q, s'.u)
  {
    hide ExInv, MayDiscard, CommitIter, CommitGuard, LoopInv, Work, TightInv;
    if k > 0 {
      CallTight(cfg, s, onlyMicroops, discard, env, k - 1);
      CommitUpToKeeps(cfg, s, onlyMicroops, discard, env, k - 1);
      var (s1, c1) := CommitUpTo(cfg, s, onlyMicroops, discard, env, k - 1);
      if CommitGuard(cfg, s1, c1) {
        LoopParts(cfg, s, s1, c1, discard);
        GuardFacts(cfg, s1, c1);
        IterTight(cfg, s1, c1, onlyMicroops, discard, env(k - 1));
      }
    }
  }

  // ---------- Issue ----------

  /** The youngest writer in flight is one. */
  lemma {:induction false} YoungestWrites(fl: seq<Inst>, r: Reg) returns (y: Inst)
    requires r in Dests(fl)
    ensures y in fl && r in y.dests && y.id == Youngest(fl, r)
    decreases fl
  {
    var n := |fl| - 1;
    DestsMember(fl, r);
    y := fl[n];
    if r !in fl[n].dests {
      var z :| z in fl && r in z.dests;
      assert z in fl[..n];
      DestsMember(fl[..n], r);
      y := YoungestWrites(fl[..n], r);
    }
  }

  lemma {:induction false} LastWriterWrites(fl: seq<Inst>, sb: Scoreboard, srcs: seq<Reg>) returns (y: Option<Inst>)
    requires ScoreInv(fl, sb)
    ensures y.None? ==> LastWriter(sb, srcs) == 0
    ensures y.Some? ==>
      && y.value in fl && y.value.id == LastWriter(sb, srcs)
      && exists r :: r in y.value.dests && r in srcs
  {
    y := None;
    if srcs != [] {
      y := LastWriterWrites(fl, sb, srcs[1..]);
      if srcs[0] in sb.writing && sb.writing[srcs[0]] > LastWriter(sb, srcs[1..]) {
        var z := YoungestWrites(fl, srcs[0]);
        y := Some(z);
      }
    }
  }

  /** The mark issue computes is tight. */
  lemma MarkTight(q: Queues, sb: Scoreboard, bar: Barriers, x: Inst)
    requires OrderInv(q) && ScoreInv(q.inFlight, sb) && BarrierInv(q, bar) && LastId(q.issued) < x.id && 0 < x.id
    requires forall y | y in q.inFlight :: 0 < y.id
    ensures Tight(q.inFlight + [x], x, InstToWaitFor(sb, bar, x))
  {
    InFlightIncreasing(q);
    WaitMark(q, sb, bar, x);
    var fl, w := q.inFlight + [x], InstToWaitFor(sb, bar, x);
    var y := LastWriterWrites(q.inFlight, sb, x.srcs);
    if w == 0 {
    } else if w == bar.last {
      if bar.last !in bar.waiting {
        var b :| b in q.inFlight && b.barrier && b.id == bar.last;
        assert b in fl && MustPrecede(b, x);
      }
    } else {
      assert y.value in fl && Feeds(y.value, x);
    }
  }

  lemma TightPush(q: Queues, m: Inst, w: SeqNum, x: Inst)
    requires Tight(q.inFlight, m, w) && w < m.id && m.id < x.id
    ensures Tight(q.inFlight + [x], m, w)
  {
    if y :| y in q.inFlight && y.id == w && MustPrecede(y, m) {
      assert y in q.inFlight + [x];
    }
  }

  /** Issue with a unit or without. */
  lemma IssueTight(cfg: Config, s: State, x: Inst, u': Units)
    requires ExInv(s) && TightInv(cfg, s.q, s.u) && LastId(s.q.issued) < x.id && WellFormed(x)
    requires if x.memRef && cfg.allowEarlyMemIssue
             then u'.canEarly == s.u.canEarly + {x.id}
                  && u'.waitFor == s.u.waitFor[x.id := InstToWaitFor(s.sb, s.bar, x)]
             else u'.canEarly == s.u.canEarly && u'.waitFor == s.u.waitFor
    ensures TightInv(cfg, IssueQ(s.q, x), u')
  {
    hide Tight, QueueInv, UnitInv, ScoreInv, BarrierInv;
    var q' := IssueQ(s.q, x);
    EarlyFresh(s, x);
    forall m | m in q'.inFUMem && m.id in u'.canEarly ensures Tight(q'.inFlight, m, WaitFor(u', m)) {
      if m in s.q.inFUMem {
        UnsentOlder(s, m);
        TightPush(s.q, m, WaitFor(s.u, m), x);
      } else {
        QueueParts(s.q);
        PositiveIds(s);
        MarkTight(s.q, s.sb, s.bar, x);
      }
    }
  }

  lemma EarlyFresh(s: State, x: Inst)
    requires ExInv(s) && LastId(s.q.issued) < x.id
    ensures x.id !in s.u.canEarly
  {
  }

  lemma UnsentOlder(s: State, m: Inst)
    requires ExInv(s) && m in s.q.inFUMem
    ensures m.id <= LastId(s.q.issued) && (m.id in s.u.canEarly ==> WaitFor(s.u, m) < m.id)
  {
    MemQueueFacts(s.q);
    InFlightIncreasing(s.q);
  }

  lemma PositiveIds(s: State)
    requires ExInv(s)
    ensures forall y | y in s.q.inFlight :: 0 < y.id
  {
  }

  /** Exactly the references that find a unit are marked, if the configuration allows it,
      with the youngest writer or barrier before them. */
  lemma IterIssueMarks(cfg: Config, s: State, c: IssueCtl, e: IssueEnv)
    requires FullInv(s) && HasInput(s.inp) && s.inp.index < |s.inp.lines[0]|
    ensures var s' := IssueIter(cfg, s, c, e).0;
      var slot := s.inp.lines[0][s.inp.index];
      if s'.q == s.q then s'.u.canEarly == s.u.canEarly && s'.u.waitFor == s.u.waitFor
      else
        && slot.Some? && s'.q == IssueQ(s.q, slot.value)
        && if slot.value.memRef && cfg.allowEarlyMemIssue
           then s'.u.canEarly == s.u.canEarly + {slot.value.id}
                && s'.u.waitFor == s.u.waitFor[slot.value.id := InstToWaitFor(s.sb, s.bar, slot.value)]
           else s'.u.canEarly == s.u.canEarly && s'.u.waitFor == s.u.waitFor
  {
    hide ExInv, PendingInv, LinesInv, FindFU, InstToWaitFor, MarkupDests;
    var slot := s.inp.lines[0][s.inp.index];
    if Accepted(s.th, slot) {
      TakeKeeps(s, s.(q := IssueQ(s.q, slot.value), inp := NextSlot(s.inp)));
      assert |s.q.issued + [slot.value]| > |s.q.issued|;
    }
  }

  lemma IterIssueTight(cfg: Config, s: State, c: IssueCtl, e: IssueEnv)
    requires FullInv(s) && HasInput(s.inp) && s.inp.index < |s.inp.lines[0]| && TightInv(cfg, s.q, s.u)
    ensures var s' := IssueIter(cfg, s, c, e).0; TightInv(cfg, s'.q, s'.u)
  {
    IterIssueMarks(cfg, s, c, e);
    hide IssueIter, ExInv, PendingInv, LinesInv, FindFU, InstToWaitFor, Tight;
    var s' := IssueIter(cfg, s, c, e).0;
    if s'.q != s.q {
      var x := s.inp.lines[0][s.inp.index].value;
      TakeKeeps(s, s.(q := IssueQ(s.q, x), inp := NextSlot(s.inp)));
      IssueTight(cfg, s, x, s'.u);
    } else {
      assert forall m: Inst :: WaitFor(s'.u, m) == WaitFor(s.u, m);
    }
  }

  lemma {:induction false} IssueUpToTight(cfg: Config, s: State, env: nat -> IssueEnv, k: nat)
    requires FullInv(s) && ValidConfig(cfg) && TightInv(cfg, s.q, s.u)
    ensures var s' := IssueUpTo(cfg, s, env, k).0; TightInv(cfg, s'.q, s'.u)
  {
    hide FullInv, TightInv, IssueIter, IssueInv;
    if k > 0 {
      IssueUpToTight(cfg, s, env, k - 1);
      var n := IssueUpToKeeps(cfg, s, env, k - 1);
      var (s1, c1) := IssueUpTo(cfg, s, env, k - 1);
      if c1.going && HasInput(s1.inp) && InRange(s1.inp) {
        IterIssueTight(cfg, s1, c1, env(k - 1));
      }
    }
  }

  // ---------- Runs ----------

  lemma PhaseTight(cfg: Config, s: State, e: CycleEnv)
    requires FullInv(s) && s.th.branch == BUBBLE && s == Dumped(s) && TightInv(cfg, s.q, s.u)
    requires !InterruptTaken(s, e)
    ensures var s' := HaltPhase(CommitPhase(cfg, s, e)); TightInv(cfg, s'.q, s'.u)
  {
    hide FullInv, ExInv, MayDiscard, CommitUpTo, TightInv;
    CallReady(s);
    if s.drain != DrainHaltFetch {
      var (_, onlyMicroops, discard) := CommitArgs(s, e);
      CallTight(cfg, s, onlyMicroops, discard, e.commit, CommitBound(s));
    }
  }

  lemma WorkTight(cfg: Config, s: State, e: CycleEnv)
    requires FullInv(s) && ValidConfig(cfg) && s.th.branch == BUBBLE && s == Dumped(s) && TightInv(cfg, s.q, s.u)
    ensures var s' := CommitAndIssue(cfg, s, e); TightInv(cfg, s'.q, s'.u)
  {
    hide FullInv, Dumped, CommitPhase, HaltPhase, IssueUpTo, TightInv;
    if !InterruptTaken(s, e) {
      PhaseTight(cfg, s, e);
      CommitPhaseKeeps(cfg, s, e);
      HaltPhaseKeeps(CommitPhase(cfg, s, e));
      var s1 := HaltPhase(CommitPhase(cfg, s, e));
      IssueUpToTight(cfg, s1, e.issue, |Remaining(s1.inp)| + 1);
    }
  }

  lemma BeginTight(cfg: Config, s: State, e: CycleEnv)
    requires TightInv(cfg, s.q, s.u)
    ensures var s0 := Dumped(Begin(s, e));
      s0 == Dumped(s0) && s0.th.branch == BUBBLE && s0.q == s.q && s0.u == s.u
  {
    DumpedArgs(Begin(s, e), CycleEnv([], [], false, None, false, false, e.commit, e.issue));
    hide StepLSQ;
  }

  lemma CycleTight(cfg: Config, s: State, e: CycleEnv)
    requires FullInv(s) && ValidConfig(cfg) && (BubbleLine(e.line) || LineOK(s, e.line)) && TightInv(cfg, s.q, s.u)
    ensures var s' := Evaluate(cfg, s, e); TightInv(cfg, s'.q, s'.u)
  {
    hide FullInv, Begin, Dumped, LineOK, BubbleLine, CommitAndIssue, Tight;
    BeginKeeps(s, e);
    BeginTight(cfg, s, e);
    DumpFirst(cfg, Begin(s, e), e);
    WorkTight(cfg, Dumped(Begin(s, e)), e);
    var s1 := CommitAndIssue(cfg, Begin(s, e), e);
    assert forall m: Inst :: WaitFor(AdvanceUnits(s1.u), m) == WaitFor(s1.u, m);
  }

  /** In every run. */
  lemma {:induction false} RunTight(cfg: Config, sys: System, evs: seq<Event>)
    requires StageInv(sys) && ValidConfig(cfg) && PossibleRun(cfg, sys, evs) && TightInv(cfg, sys.ex.q, sys.ex.u)
    ensures var s := Run(cfg, sys, evs).ex; TightInv(cfg, s.q, s.u)
    decreases |evs|
  {
    hide StageInv, Delivers, Forward, TightInv, Evaluate, LineOK, BubbleLine;
    if evs != [] {
      EventStage(cfg, sys, evs[0]);
      if evs[0].Cycle? {
        StageParts(cfg, sys, evs[0].env);
        CycleTight(cfg, sys.ex, evs[0].env);
      }
      RunTight(cfg, Apply(cfg, sys, evs[0]), evs[1..]);
    }
  }

  // ---------- Going early, exactly ----------

  /** m is at the far end of its unit. */
  ghost predicate Arrived(u: Units, m: Inst) { AtFront(u, FUOf(u, m)) == Some(m) }

  /** Nothing in flight must precede m. */
  ghost predicate Unhindered(q: Queues, m: Inst) { forall y | y in q.inFlight :: !MustPrecede(y, m) }

  lemma EarlyExactly(cfg: Config, s: State, e: IterEnv)
    requires ExInv(s) && s.q.inFlight != [] && TightInv(cfg, s.q, s.u)
    ensures EarlyInst(s.q, s.u, s.th.stream, e).Some? <==>
      && s.q.inFUMem != [] && e.canRequest
      && var m := s.q.inFUMem[0];
         Arrived(s.u, m) && m.id in s.u.canEarly && m.stream == s.th.stream && Unhindered(s.q, m)
  {
    if EarlyInst(s.q, s.u, s.th.stream, e).Some? {
      EarlyIsNext(s.q, s.u, s.th.stream, e);
      forall y | y in s.q.inFlight ensures !MustPrecede(y, s.q.inFUMem[0]) { EarlyWaits(s, e, y); }
    } else if s.q.inFUMem != [] && s.q.inFUMem[0].id in s.u.canEarly {
      FirstInLine(s);
      hide ExInv, MustPrecede;
      var m := s.q.inFUMem[0];
      assert m in s.q.inFUMem;
      if Unhindered(s.q, m) { assert WaitFor(s.u, m) < s.q.inFlight[0].id; }
    }
  }

  /** The access of the oldest reference not handed over yet can be tried: it is of the
      thread's stream and has left its unit; there is room, no older barrier is
      remembered, and neither a response, a delay nor a sleeping thread comes first. */
  ghost predicate CanTry(cfg: Config, s: State, c: Ctl, onlyMicroops: bool, discard: bool, e: IterEnv)
    requires s.q.inFlight != []
  {
    var h := s.q.inFlight[0];
    && Undisturbed(s, e) && !discard && s.q.inFUMem != [] && !(onlyMicroops && s.lastEnd)
    && !(h.id in s.q.inLSQ && e.response && c.memRefs < cfg.memoryCommitLimit)
    && e.canRequest && !e.delayed && (s.th.suspended ==> e.interrupted)
    && var m := s.q.inFUMem[0];
       m.stream == s.th.stream && Arrived(s.u, m) && !(0 < s.bar.last < m.id)
  }

  /** It may go early, and nothing in flight must precede it. */
  ghost predicate Ahead(s: State) {
    s.q.inFUMem != [] && s.q.inFUMem[0].id in s.u.canEarly && Unhindered(s.q, s.q.inFUMem[0])
  }

  /** It is handed over if besides it is the head of the queue or may go ahead of it, and
      its access is not refused. */
  ghost predicate CanSend(cfg: Config, s: State, c: Ctl, onlyMicroops: bool, discard: bool, e: IterEnv)
    requires s.q.inFlight != []
  {
    CanTry(cfg, s, c, onlyMicroops, discard, e) && !e.initFault && (s.q.inFUMem[0] == s.q.inFlight[0] || Ahead(s))
  }

  /** Exactly then is a memory reference handed over, and exactly then does it lose its
      mark. */
  lemma HandsOverExactly(cfg: Config, s: State, c: Ctl, onlyMicroops: bool, discard: bool, e: IterEnv)
    requires ExInv(s) && s.q.inFlight != [] && MayDiscard(s, discard) && TightInv(cfg, s.q, s.u)
    ensures var s' := CommitIter(cfg, s, c, onlyMicroops, discard, e).0;
      && (s'.q.sent != s.q.sent <==> CanSend(cfg, s, c, onlyMicroops, discard, e))
      && s'.u.canEarly == s.u.canEarly
           - (if CanTry(cfg, s, c, onlyMicroops, discard, e) && e.initFault && Ahead(s)
              then {s.q.inFUMem[0].id} else {})
  {
    hide CommitIter, ExInv, MayDiscard, TightInv, Undisturbed, EarlyInst, Unhindered, AtEndOfUnit, Arrived, PickInst;
    SendsExactly(cfg, s, c, onlyMicroops, discard, e);
    EarlyExactly(cfg, s, e);
    MarksAfter(cfg, s, c, onlyMicroops, discard, e);
    TriesHead(cfg, s, c, onlyMicroops, discard, e);
    if EarlyInst(s.q, s.u, s.th.stream, e).Some? { EarlyCurrent(s, discard, e); }
    if s.q.inFUMem != [] { AtEndIs(s, e); }
    PickedEarly(cfg, s, c, onlyMicroops, e);
  }

  lemma EarlyCurrent(s: State, discard: bool, e: IterEnv)
    requires ExInv(s) && s.q.inFlight != [] && MayDiscard(s, discard) && EarlyInst(s.q, s.u, s.th.stream, e).Some?
    ensures !discard
  {
    EarlyIsNext(s.q, s.u, s.th.stream, e);
    FirstInLine(s);
  }

  lemma AtEndIs(s: State, e: IterEnv)
    requires ExInv(s) && s.q.inFlight != [] && s.q.inFUMem != []
    ensures s.q.inFlight[0] == s.q.inFUMem[0] ==> (AtEndOfUnit(s.u, s.q.inFlight[0]) <==> Arrived(s.u, s.q.inFlight[0]))
    ensures var early := EarlyInst(s.q, s.u, s.th.stream, e); early.Some? ==> early.value == s.q.inFUMem[0]
  {
    FirstInLine(s);
    if EarlyInst(s.q, s.u, s.th.stream, e).Some? { EarlyIsNext(s.q, s.u, s.th.stream, e); }
    if s.q.inFlight[0] == s.q.inFUMem[0] && AtEndOfUnit(s.u, s.q.inFlight[0]) {
      HeadAtEnd(s.q, s.u, s.th.stream);
    }
  }

  /** In the k-th iteration of any cycle of any run. */
  lemma HandsOverRuns(cfg: Config, sys: System, evs: seq<Event>, e: CycleEnv, k: nat)
    requires Initial(sys) && ValidConfig(cfg) && PossibleRun(cfg, sys, evs)
    requires Possible(cfg, Run(cfg, sys, evs), Cycle(e)) && CallsCommit(Begin(Run(cfg, sys, evs).ex, e), e)
    requires var (s1, c1) := CallAt(cfg, Run(cfg, sys, evs).ex, e, k); CommitGuard(cfg, s1, c1)
    ensures var s := Run(cfg, sys, evs).ex;
      var (_, onlyMicroops, discard) := CommitArgs(Begin(s, e), e);
      var (s1, c1) := CallAt(cfg, s, e, k);
      CommitIter(cfg, s1, c1, onlyMicroops, discard, e.commit(k)).0.q.sent != s1.q.sent <==>
        CanSend(cfg, s1, c1, onlyMicroops, discard, e.commit(k))
  {
    hide Initial, StageInv, Run, PossibleRun, LineOK, BubbleLine, FullInv, TightInv, CallAt, CanSend, CommitIter;
    InitialStage(sys);
    FreshTight(cfg, sys);
    RunStage(cfg, sys, evs);
    RunTight(cfg, sys, evs);
    StageParts(cfg, Run(cfg, sys, evs), e);
    CallHandsOver(cfg, Run(cfg, sys, evs).ex, e, k);
  }

  lemma FreshTight(cfg: Config, sys: System)
    requires Initial(sys)
    ensures TightInv(cfg, sys.ex.q, sys.ex.u)
  {
  }

  lemma CallHandsOver(cfg: Config, s: State, e: CycleEnv, k: nat)
    requires FullInv(s) && (BubbleLine(e.line) || LineOK(s, e.line)) && TightInv(cfg, s.q, s.u)
    requires var (s1, c1) := CallAt(cfg, s, e, k); CommitGuard(cfg, s1, c1)
    ensures var (_, onlyMicroops, discard) := CommitArgs(Begin(s, e), e);
      var (s1, c1) := CallAt(cfg, s, e, k);
      CommitIter(cfg, s1, c1, onlyMicroops, discard, e.commit(k)).0.q.sent != s1.q.sent <==>
        CanSend(cfg, s1, c1, onlyMicroops, discard, e.commit(k))
  {
    var (s0, onlyMicroops, discard) := CommitArgs(Begin(s, e), e);
    var (s1, c1) := CallAt(cfg, s, e, k);
    assert s0 == Dumped(Begin(s, e));
    hide FullInv, ExInv, MayDiscard, Begin, Dumped, LineOK, BubbleLine, CommitUpTo, CommitIter, LoopInv, Work, TightInv,
        CanSend;
    BeginKeeps(s, e);
    BeginTight(cfg, s, e);
    CallReady(s0);
    CallTight(cfg, s0, onlyMicroops, discard, e.commit, k);
    CommitUpToKeeps(cfg, s0, onlyMicroops, discard, e.commit, k);
    LoopParts(cfg, s0, s1, c1, discard);
    GuardFacts(cfg, s1, c1);
    HandsOverExactly(cfg, s1, c1, onlyMicroops, discard, e.commit(k));
  }
}
