/**
  One iteration of the commit loop keeps every invariant of the stage, and the
  loop ends.
 */
module CommitTheorems {
  import opened Options
  import opened MinorTypes
  import opened QueueLemmas
  import opened QueueInvariants
  import opened UnitInvariants
  import opened DependencyInvariants
  import opened CommitSpec

  /** No instruction in flight is from a stream yet to come; while all
      instructions are being drained, none is from the current one. */
  ghost predicate StreamInv(s: State) {
    && (forall i | i in s.q.inFlight :: i.stream <= s.th.stream)
    && (s.drain == DrainAllInsts ==> forall i | i in s.q.inFlight :: i.stream < s.th.stream)
  }

  /** The invariant of the back half of the stage. */
  ghost predicate ExInv(s: State) {
    && QueueInv(s.q)
    && UnitInv(s.q, s.u, s.th.stream)
    && ScoreInv(s.q.inFlight, s.sb)
    && BarrierInv(s.q, s.bar)
    && WaitInv(s.q, s.u)
    && StreamInv(s)
  }

  // ---------- Streams ----------

  /** th' came from th by at most one change of stream, which the wire carries. */
  ghost predicate OneChange(th: Thread, th': Thread) {
    || (th'.stream == th.stream && (th'.branch == th.branch || th'.branch.reason == CorrectlyPredictedBranch))
    || (th'.stream == th.stream + 1 && IsStreamChange(th'.branch.reason) && th'.branch.newStream == th'.stream
        && (th'.branch.reason != HaltFetch && th'.branch.reason != Interrupt) && th'.branch.target == th'.pc)
  }

  lemma TryToBranchChanges(cfg: Config, th: Thread, inst: Inst, fault: bool, e: IterEnv)
    ensures OneChange(th, TryToBranch(cfg, th, inst, fault, e))
    ensures TryToBranch(cfg, th, inst, fault, e).panicked == th.panicked
  {
  }

  /** Whatever becomes of an instruction, the stream changes at most once and
      the signal carries the thread's new stream number and PC. */
  lemma TryInstChanges(cfg: Config, th: Thread, last: SeqNum, p: Pick, discard: bool, e: IterEnv)
    requires !p.NoPick?
    ensures OneChange(th, TryInst(cfg, th, last, p, discard, e).0)
  {
    TryToBranchChanges(cfg, th, p.inst, e.fault, e);
    TryToBranchChanges(cfg, th, p.inst, true, e);
  }

  // ---------- What is picked and what may become of it ----------

  ghost predicate Picked(s: State, p: Pick) {
    && !p.NoPick? && s.q.inFlight != []
    && (p.Early? ==> s.q.inFUMem != [] && p.inst == s.q.inFUMem[0])
    && (!p.Early? ==> p.inst == s.q.inFlight[0])
    && (p.Response? ==> s.q.lsq != [] && s.q.lsq[0] == p.inst && p.inst.id in s.q.inLSQ)
    && (!p.Response? ==> p.inst.id !in s.q.inLSQ)
    && (p.Early? || p.FromFU? ==>
          Live(s.q, p.inst) && FUOf(s.u, p.inst) < |s.u.fus| && AtFront(s.u, FUOf(s.u, p.inst)) == Some(p.inst))
    && (p.Free? ==> p.inst.noCost)
  }

  lemma PickIsSound(cfg: Config, s: State, c: Ctl, onlyMicroops: bool, e: IterEnv)
    requires ExInv(s) && s.q.inFlight != [] && !PickInst(cfg, s, c, onlyMicroops, e).NoPick?
    ensures Picked(s, PickInst(cfg, s, c, onlyMicroops, e))
  {
    var p := PickInst(cfg, s, c, onlyMicroops, e);
    var head := s.q.inFlight[0];
    assert head in s.q.inFlight;
    match p
    case Early(_) => EarlyIsNext(s.q, s.u, s.th.stream, e);
    case FromFU(_) => HeadAtEnd(s.q, s.u, s.th.stream);
    case _ =>
  }

  lemma OutcomeShape(cfg: Config, th: Thread, last: SeqNum, p: Pick, discard: bool, e: IterEnv)
    requires !p.NoPick? && WellFormed(p.inst)
    requires p.Early? ==> p.inst.memRef && p.inst.stream == th.stream && !discard
    ensures var o := TryInst(cfg, th, last, p, discard, e).1;
      && (o.Send? ==> p.inst.memRef && !p.Response?)
      && (o.SendFault? ==> p.inst.memRef && !p.Response? && !p.Early?)
      && (p.Early? ==> !Leaves(o))
      && (p.Response? ==> Leaves(o))
      && (p.inst.stream != th.stream || discard ==> Completes(o))
      && (Leaves(o) && !o.SendFault? && !Commits(o) && !o.fault ==> p.inst.stream != th.stream || discard)
  {
  }

  // ---------- The three kinds of bookkeeping ----------

  /** The units after the picked instruction stopped being live. */
  lemma UnitsRetire(s: State, p: Pick, o: Outcome, q': Queues, stream': SeqNum)
    requires ExInv(s) && Picked(s, p) && !p.Response? && !p.Free? && Completes(o)
    requires Retires(s.q, q', s.th.stream, stream', p.inst) && Stale(q', stream', p.inst)
    ensures UnitInv(q', FinishU(s.u, p, o), stream')
  {
    InFlightIncreasing(s.q);
    assert FinishU(s.u, p, o).fus == Unstall(s.u, FUOf(s.u, p.inst)).fus;
    RetiresSlots(s.q, q', s.u, FinishU(s.u, p, o), s.th.stream, stream', p.inst);
    RetiresPlaces(s.q, q', s.u, FinishU(s.u, p, o), s.th.stream, stream', p.inst);
  }

  lemma PickedIsNext(s: State, p: Pick)
    requires OrderInv(s.q) && FilterInv(s.q) && Picked(s, p) && p.inst.memRef && !p.Response?
    ensures s.q.inFUMem != [] && p.inst == s.q.inFUMem[0]
    ensures p.inst in s.q.inFlight && Live(s.q, p.inst)
  {
    var q := s.q;
    MemQueueFacts(q);
    InFlightIncreasing(q);
    if !p.Early? {
      assert p.inst in q.inFlight;
      HeadIsOldest(q.inFUMem, p.inst);
      HeadIsOldest(q.inFlight, q.inFUMem[0]);
    }
  }

  lemma SendRetires(q: Queues, x: Inst, stream: SeqNum, stream': SeqNum)
    requires OrderInv(q) && x in q.inFlight && stream <= stream'
    ensures Retires(q, SendQ(q, x), stream, stream', x) && Stale(SendQ(q, x), stream', x)
  {
    InFlightIncreasing(q);
  }

  lemma SendKeeps(s: State, p: Pick, th: Thread)
    requires ExInv(s) && Picked(s, p) && p.inst.memRef && !p.Response? && s.th.stream <= th.stream
    ensures s.q.inFUMem != [] && p.inst == s.q.inFUMem[0]
    ensures ExInv(Finish(s, p, th, Send))
  {
    hide QueueInv, UnitInv, WaitInv, BarrierInv, ScoreInv, OrderInv, FilterInv, Picked, Retires;
    PickedFields(s, p);
    var q := s.q;
    var q' := SendQ(q, p.inst);
    QueueParts(q);
    PickedIsNext(s, p);
    QueueSend(q);
    SendRetires(q, p.inst, s.th.stream, th.stream);
    UnitsRetire(s, p, Send, q', th.stream);
    FilterSend(q);
    WaitFrame(q, q', s.u, FinishU(s.u, p, Send));
    BarrierFrame(q, q', s.bar);
  }

  lemma QueueParts(q: Queues)
    requires QueueInv(q)
    ensures OrderInv(q) && FilterInv(q) && SentInv(q)
  {
  }

  lemma PickedFields(s: State, p: Pick)
    requires Picked(s, p)
    ensures !p.NoPick? && s.q.inFlight != [] && (p.Free? ==> p.inst.noCost)
    ensures p.Response? ==> s.q.lsq != []
  {
  }

  lemma BarrierFrame(q: Queues, q': Queues, bar: Barriers)
    requires BarrierInv(q, bar) && q'.inFlight == q.inFlight && q'.issued == q.issued
    ensures BarrierInv(q', bar)
  {
  }

  lemma LeaveRetires(q: Queues, p: Pick, o: Outcome, stream: SeqNum, stream': SeqNum)
    requires OrderInv(q) && PicksHead(q, p, o) && stream <= stream' && Leaves(o)
    requires !p.Response? && p.inst.memRef && o.Done? ==> p.inst.stream != stream'
    ensures !p.Response? ==> Retires(q, LeaveQ(q, p, o), stream, stream', p.inst)
    ensures !p.Response? ==> Stale(LeaveQ(q, p, o), stream', p.inst)
    ensures forall y | y in q.inFlight && y.id != p.inst.id :: y in LeaveQ(q, p, o).inFlight
    ensures forall y | y in LeaveQ(q, p, o).inFlight :: y in q.inFlight
  {
    var q' := LeaveQ(q, p, o);
    LeavesBehind(q, p, o);
    if !p.Response? {
      hide OrderInv, LeaveQ;
      assert Retires(q, q', stream, stream', p.inst);
    }
  }

  /** Everything but the head stays in flight, younger than it. */
  lemma LeavesBehind(q: Queues, p: Pick, o: Outcome)
    requires OrderInv(q) && PicksHead(q, p, o) && Leaves(o)
    ensures var q' := LeaveQ(q, p, o);
      && (forall y | y in q.inFlight && y.id != p.inst.id :: y in q'.inFlight)
      && (forall y | y in q'.inFlight :: y in q.inFlight && p.inst.id < y.id)
      && p.inst !in q'.inFlight && q'.issued == q.issued && q.inLSQ <= q'.inLSQ
      && (forall id | id in q'.inLSQ && id !in q.inLSQ :: id == p.inst.id)
      && (!p.Response? && o.SendFault? ==> p.inst.id in q'.inLSQ)
  {
    InFlightIncreasing(q);
    TailIsYounger(q.inFlight);
    forall y | y in q.inFlight && y.id != p.inst.id ensures y in q.inFlight[1..] { HeadIsOldest(q.inFlight, y); }
  }

  lemma LeaveUnits(s: State, p: Pick, th: Thread, o: Outcome)
    requires ExInv(s) && Picked(s, p) && !p.Early? && PicksHead(s.q, p, o) && Leaves(o) && s.th.stream <= th.stream
    requires !p.Response? && p.inst.memRef && o.Done? ==> p.inst.stream != th.stream
    ensures UnitInv(LeaveQ(s.q, p, o), FinishU(s.u, p, o), th.stream)
  {
    hide FilterInv, SentInv, WaitInv, BarrierInv, ScoreInv, SlotsInv, Retires, Stale;
    var q, q' := s.q, LeaveQ(s.q, p, o);
    LeaveRetires(q, p, o, s.th.stream, th.stream);
    if p.FromFU? {
      UnitsRetire(s, p, o, q', th.stream);
    } else {
      assert p.inst in q.inFlight;
      assert FinishU(s.u, p, o) == s.u;
      InFlightIncreasing(q);
      forall y | y in q.inFlight && Live(q, y) ensures y in q'.inFlight {
        if y.id == p.inst.id { SameInst(q.inFlight, y, p.inst); }
      }
      UnitFrame(q, q', s.u, s.u, s.th.stream, th.stream);
    }
  }

  lemma LeaveKeeps(s: State, p: Pick, th: Thread, o: Outcome)
    requires ExInv(s) && Picked(s, p) && !p.Early? && PicksHead(s.q, p, o) && Leaves(o) && s.th.stream <= th.stream
    requires !p.Response? && p.inst.memRef && o.Done? ==> p.inst.stream != th.stream
    ensures ExInv(Finish(s, p, th, o))
  {
    LeaveUnits(s, p, th, o);
    LeaveMarksKept(s, p, th, o);
    hide QueueInv, UnitInv, WaitInv, BarrierInv, ScoreInv, Picked, LeaveQ, FinishU, CompleteBarrier, ClearDests,
        PicksHead;
  }

  /** Queues, scoreboard, barriers, wait marks and streams when the head leaves. */
  lemma LeaveMarksKept(s: State, p: Pick, th: Thread, o: Outcome)
    requires ExInv(s) && Picked(s, p) && !p.Early? && PicksHead(s.q, p, o) && Leaves(o) && s.th.stream <= th.stream
    ensures var q' := LeaveQ(s.q, p, o);
      && QueueInv(q') && ScoreInv(q'.inFlight, ClearDests(s.sb, p.inst))
      && BarrierInv(q', CompleteBarrier(s.bar, p.inst, Commits(o))) && WaitInv(q', FinishU(s.u, p, o))
      && q'.inFlight == s.q.inFlight[1..] && p.inst == s.q.inFlight[0]
      && StreamInv(Finish(s, p, th, o))
  {
    hide QueueInv, UnitInv, WaitInv, BarrierInv, ScoreInv, OrderInv, FilterInv, Picked;
    var q, q' := s.q, LeaveQ(s.q, p, o);
    QueueParts(q);
    QueueLeave(q, p, o);
    ScoreLeave(q.inFlight, s.sb);
    BarrierLeave(q, q', s.bar, Commits(o));
    WaitLeave(s, p, o);
    StreamLeave(s, p, th, o);
  }

  lemma WaitLeave(s: State, p: Pick, o: Outcome)
    requires ExInv(s) && PicksHead(s.q, p, o) && Leaves(o)
    ensures WaitInv(LeaveQ(s.q, p, o), FinishU(s.u, p, o))
  {
    hide QueueInv, UnitInv, WaitInv, BarrierInv, ScoreInv, StreamInv, OrderInv, FilterInv, SentInv;
    QueueParts(s.q);
    MemQueueLeave(s.q, p, o);
    WaitFrame(s.q, LeaveQ(s.q, p, o), s.u, FinishU(s.u, p, o));
  }

  lemma StreamLeave(s: State, p: Pick, th: Thread, o: Outcome)
    requires StreamInv(s) && PicksHead(s.q, p, o) && Leaves(o) && s.th.stream <= th.stream
    ensures StreamInv(Finish(s, p, th, o))
  {
    hide FinishU, ClearDests, CompleteBarrier;
  }

  lemma HoldKeeps(s: State, p: Pick, th: Thread, o: Outcome)
    requires ExInv(s) && Picked(s, p) && !Completes(o) && s.th.stream <= th.stream
    ensures ExInv(Finish(s, p, th, o))
  {
    UnitFrame(s.q, s.q, s.u, FinishU(s.u, p, o), s.th.stream, th.stream);
    WaitFrame(s.q, s.q, s.u, FinishU(s.u, p, o));
  }

  /** The discard flag is only raised while no current instruction is in flight. */
  ghost predicate MayDiscard(s: State, discard: bool) {
    discard ==> forall i | i in s.q.inFlight :: i.stream < s.th.stream
  }

  lemma MayKeep(s: State)
    ensures MayDiscard(s, false)
  {
  }

  /** Every iteration of the commit loop keeps the invariant. */
  lemma IterKeeps(cfg: Config, s: State, c: Ctl, onlyMicroops: bool, discard: bool, e: IterEnv)
    requires ExInv(s) && s.q.inFlight != [] && MayDiscard(s, discard)
    ensures ExInv(CommitIter(cfg, s, c, onlyMicroops, discard, e).0)
  {
    hide ExInv, MayDiscard;
    var p := PickInst(cfg, s, c, onlyMicroops, e);
    if HasPCEvent(s, e) {
      PCEventKeeps(s, e.pcEvent.value);
    } else if !p.NoPick? {
      var (th, o) := TryInst(cfg, s.th, s.bar.last, p, discard, e);
      IterCase(cfg, s, c, onlyMicroops, discard, e);
      TryInstChanges(cfg, s.th, s.bar.last, p, discard, e);
      hide Picked;
      LeaveStream(cfg, s, p, discard, e);
      hide TryInst, PickInst, Finish;
      FinishKeeps(s, p, discard, th, o);
    }
  }

  lemma PCEventKeeps(s: State, target: PC)
    requires ExInv(s)
    ensures ExInv(s.(th := PCEvent(s.th, target)))
  {
    UnitFrame(s.q, s.q, s.u, s.u, s.th.stream, s.th.stream + 1);
    hide QueueInv, UnitInv, WaitInv, BarrierInv, ScoreInv;
  }

  /** The bookkeeping keeps the invariant whatever became of the instruction. */
  lemma FinishKeeps(s: State, p: Pick, discard: bool, th: Thread, o: Outcome)
    requires ExInv(s) && s.q.inFlight != [] && Considers(s, p, discard, o) && s.th.stream <= th.stream
    requires !p.Response? && p.inst.memRef && o.Done? ==> p.inst.stream != th.stream
    ensures ExInv(Finish(s, p, th, o))
  {
    if o.Send? {
      hide ExInv, Picked, Finish;
      SendKeeps(s, p, th);
    } else if Leaves(o) {
      assert PicksHead(s.q, p, o) && !p.Early?;
      hide ExInv, Picked, Finish, PicksHead;
      LeaveKeeps(s, p, th, o);
    } else {
      hide ExInv, Picked, Finish;
      HoldKeeps(s, p, th, o);
    }
  }

  lemma PickedWellFormed(s: State, p: Pick)
    requires ExInv(s) && Picked(s, p)
    ensures p.inst in s.q.inFlight && WellFormed(p.inst)
    ensures p.Early? ==> p.inst.memRef
  {
    MemQueueFacts(s.q);
    assert p.Early? ==> p.inst in s.q.inFUMem;
  }

  lemma EarlyNotDiscarded(cfg: Config, s: State, c: Ctl, onlyMicroops: bool, discard: bool, e: IterEnv)
    requires ExInv(s) && s.q.inFlight != [] && MayDiscard(s, discard)
    requires PickInst(cfg, s, c, onlyMicroops, e).Early?
    ensures !discard && PickInst(cfg, s, c, onlyMicroops, e).inst.stream == s.th.stream
  {
    PickIsSound(cfg, s, c, onlyMicroops, e);
    PickedWellFormed(s, PickInst(cfg, s, c, onlyMicroops, e));
  }

  lemma LeaveStream(cfg: Config, s: State, p: Pick, discard: bool, e: IterEnv)
    requires ExInv(s) && Picked(s, p) && p.inst in s.q.inFlight && WellFormed(p.inst) && MayDiscard(s, discard)
    ensures var (th, o) := TryInst(cfg, s.th, s.bar.last, p, discard, e);
      !p.Response? && p.inst.memRef && o.Done? ==> p.inst.stream != th.stream
  {
  }

  // ---------- The loop ----------

  ghost function Work(s: State): nat { |s.q.inFlight| + |s.q.inFUMem| }

  lemma FinishShrinks(s: State, p: Pick, th: Thread, o: Outcome)
    requires s.q.inFlight != [] && !p.NoPick? && (p.Response? ==> s.q.lsq != [])
    requires o.Send? ==> p.inst.memRef && s.q.inFUMem != [] && p.inst == s.q.inFUMem[0]
    ensures var s' := Finish(s, p, th, o);
      && (Completes(o) ==> Work(s') < Work(s))
      && s'.inp == s.inp && s'.drain == s.drain && s'.q.issued == s.q.issued
  {
    hide FinishU, ClearDests, CompleteBarrier;
  }

  /** An iteration that completes an instruction shortens the queues; it also
      leaves the input and the drain state alone. */
  lemma IterShrinks(cfg: Config, s: State, c: Ctl, onlyMicroops: bool, discard: bool, e: IterEnv)
    requires ExInv(s) && s.q.inFlight != [] && MayDiscard(s, discard)
    ensures var (s', c') := CommitIter(cfg, s, c, onlyMicroops, discard, e);
      && (c'.completed ==> Work(s') < Work(s))
      && s'.inp == s.inp && s'.drain == s.drain && s'.q.issued == s.q.issued
  {
    var p := PickInst(cfg, s, c, onlyMicroops, e);
    if !HasPCEvent(s, e) && !p.NoPick? {
      var (th, o) := TryInst(cfg, s.th, s.bar.last, p, discard, e);
      IterCase(cfg, s, c, onlyMicroops, discard, e);
      hide ScoreInv, BarrierInv, WaitInv, UnitInv, StreamInv, OrderInv, FilterInv, SentInv, TryInst, PickInst,
          Finish, Work;
      if o.Send? { PickedIsNext(s, p); }
      FinishShrinks(s, p, th, o);
    }
  }

  /** Limits on what one call commits. */
  ghost predicate WithinLimits(cfg: Config, c: Ctl) {
    c.insts <= cfg.commitLimit && c.memRefs <= cfg.memoryCommitLimit
  }

  lemma IterWithinLimits(cfg: Config, s: State, c: Ctl, onlyMicroops: bool, discard: bool, e: IterEnv)
    requires s.q.inFlight != [] && WithinLimits(cfg, c) && c.insts != cfg.commitLimit
    ensures WithinLimits(cfg, CommitIter(cfg, s, c, onlyMicroops, discard, e).1)
  {
  }

  /** The stream changed at most once since th0, and only if the wire says so. */
  ghost predicate OneChangeSince(th0: Thread, th: Thread) {
    if IsStreamChange(th.branch.reason) then
      th.stream == th0.stream + 1 && th.branch.newStream == th.stream && th.branch.target == th.pc
      && th.branch.reason != HaltFetch && th.branch.reason != Interrupt
    else th.stream == th0.stream
  }

  lemma IterStream(cfg: Config, s: State, c: Ctl, onlyMicroops: bool, discard: bool, e: IterEnv, th0: Thread)
    requires s.q.inFlight != [] && OneChangeSince(th0, s.th) && !IsStreamChange(s.th.branch.reason)
    ensures OneChangeSince(th0, CommitIter(cfg, s, c, onlyMicroops, discard, e).0.th)
  {
    var p := PickInst(cfg, s, c, onlyMicroops, e);
    if !HasPCEvent(s, e) && !p.NoPick? {
      TryInstChanges(cfg, s.th, s.bar.last, p, discard, e);
      hide TryInst, FinishU, LeaveQ, SendQ;
    }
  }

  /** What holds after any number of iterations. */
  ghost predicate LoopInv(cfg: Config, s0: State, s: State, c: Ctl, discard: bool) {
    && ExInv(s) && MayDiscard(s, discard)
    && WithinLimits(cfg, c)
    && OneChangeSince(s0.th, s.th)
    && s.inp == s0.inp && s.drain == s0.drain && s.q.issued == s0.q.issued
  }

  lemma MayDiscardStays(cfg: Config, s: State, c: Ctl, onlyMicroops: bool, discard: bool, e: IterEnv)
    requires ExInv(s) && s.q.inFlight != [] && MayDiscard(s, discard)
    ensures MayDiscard(CommitIter(cfg, s, c, onlyMicroops, discard, e).0, discard)
  {
    var p := PickInst(cfg, s, c, onlyMicroops, e);
    if !HasPCEvent(s, e) && !p.NoPick? {
      TryInstChanges(cfg, s.th, s.bar.last, p, discard, e);
      hide ExInv, TryInst, FinishU;
    }
  }

  lemma LoopStep(cfg: Config, s0: State, s: State, c: Ctl, onlyMicroops: bool, discard: bool, e: IterEnv)
    requires LoopInv(cfg, s0, s, c, discard) && CommitGuard(cfg, s, c)
    ensures var (s', c') := CommitIter(cfg, s, c, onlyMicroops, discard, e);
      LoopInv(cfg, s0, s', c', discard) && (c'.completed ==> Work(s') < Work(s))
  {
    hide ExInv, MayDiscard, OneChangeSince, CommitIter, WithinLimits;
    IterKeeps(cfg, s, c, onlyMicroops, discard, e);
    MayDiscardStays(cfg, s, c, onlyMicroops, discard, e);
    IterShrinks(cfg, s, c, onlyMicroops, discard, e);
    IterWithinLimits(cfg, s, c, onlyMicroops, discard, e);
    IterStream(cfg, s, c, onlyMicroops, discard, e, s0.th);
  }

  lemma {:induction false} CommitUpToKeeps(cfg: Config, s: State, onlyMicroops: bool, discard: bool,
                                           env: nat -> IterEnv, k: nat)
    requires ExInv(s) && MayDiscard(s, discard) && s.th.branch == BUBBLE
    ensures var (s', c') := CommitUpTo(cfg, s, onlyMicroops, discard, env, k);
      && LoopInv(cfg, s, s', c', discard)
      && (CommitGuard(cfg, s', c') ==> Work(s') + k <= Work(s))
  {
    hide ExInv, MayDiscard, CommitIter, Work;
    if k > 0 {
      CommitUpToKeeps(cfg, s, onlyMicroops, discard, env, k - 1);
      hide LoopInv, CommitGuard;
      var (s1, c1) := CommitUpTo(cfg, s, onlyMicroops, discard, env, k - 1);
      if CommitGuard(cfg, s1, c1) {
        LoopStep(cfg, s, s1, c1, onlyMicroops, discard, env(k - 1));
        var (s2, c2) := CommitUpTo(cfg, s, onlyMicroops, discard, env, k);
        GuardCompleted(cfg, s2, c2);
      }
    }
  }

  lemma GuardCompleted(cfg: Config, s: State, c: Ctl)
    ensures CommitGuard(cfg, s, c) ==> c.completed
  {
  }

  lemma LoopParts(cfg: Config, s0: State, s: State, c: Ctl, discard: bool)
    requires LoopInv(cfg, s0, s, c, discard)
    ensures ExInv(s) && MayDiscard(s, discard)
  {
  }

  lemma GuardFacts(cfg: Config, s: State, c: Ctl)
    requires CommitGuard(cfg, s, c)
    ensures s.q.inFlight != [] && !IsStreamChange(s.th.branch.reason)
  {
  }

  /** The commit loop ends: within the bound its guard has become false. */
  lemma CommitLoopEnds(cfg: Config, s: State, onlyMicroops: bool, discard: bool, env: nat -> IterEnv)
    requires ExInv(s) && MayDiscard(s, discard) && s.th.branch == BUBBLE
    ensures var (s', c') := Commit(cfg, s, onlyMicroops, discard, env);
      && !CommitGuard(cfg, s', c')
      && LoopInv(cfg, s, s', c', discard)
  {
    CommitUpToKeeps(cfg, s, onlyMicroops, discard, env, CommitBound(s));
  }

  /** Once the guard is false, further iterations change nothing. */
  lemma {:induction false} CommitSettled(cfg: Config, s: State, onlyMicroops: bool, discard: bool,
                                         env: nat -> IterEnv, k: nat, n: nat)
    requires k <= n
    requires var (s1, c1) := CommitUpTo(cfg, s, onlyMicroops, discard, env, k); !CommitGuard(cfg, s1, c1)
    ensures CommitUpTo(cfg, s, onlyMicroops, discard, env, n) == CommitUpTo(cfg, s, onlyMicroops, discard, env, k)
  {
    hide CommitIter, CommitGuard;
    if k < n {
      CommitSettled(cfg, s, onlyMicroops, discard, env, k, n - 1);
    }
  }

  // ---------- Safety of single iterations ----------

  /** What was picked and what became of it. */
  ghost predicate Considers(s: State, p: Pick, discard: bool, o: Outcome) {
    && Picked(s, p) && p.inst in s.q.inFlight && WellFormed(p.inst)
    && (p.Early? ==> p.inst.memRef && p.inst.stream == s.th.stream && !discard && !Leaves(o))
    && (p.Response? ==> Leaves(o))
    && (o.Send? || o.SendFault? ==> p.inst.memRef && !p.Response?)
  }

  lemma IterCase(cfg: Config, s: State, c: Ctl, onlyMicroops: bool, discard: bool, e: IterEnv)
    requires ExInv(s) && s.q.inFlight != [] && MayDiscard(s, discard)
    requires !PickInst(cfg, s, c, onlyMicroops, e).NoPick?
    ensures var p := PickInst(cfg, s, c, onlyMicroops, e);
      Considers(s, p, discard, TryInst(cfg, s.th, s.bar.last, p, discard, e).1)
  {
    hide ExInv, MayDiscard, Picked;
    var p := PickInst(cfg, s, c, onlyMicroops, e);
    PickIsSound(cfg, s, c, onlyMicroops, e);
    PickedWellFormed(s, p);
    if p.Early? { EarlyNotDiscarded(cfg, s, c, onlyMicroops, discard, e); }
    OutcomeShape(cfg, s.th, s.bar.last, p, discard, e);
  }

  /** A reference picked to go early waits for nothing still in flight. */
  lemma EarlyWaits(s: State, e: IterEnv, w: Inst)
    requires ExInv(s) && s.q.inFlight != [] && w in s.q.inFlight
    requires EarlyInst(s.q, s.u, s.th.stream, e).Some?
    ensures !MustPrecede(w, EarlyInst(s.q, s.u, s.th.stream, e).value)
  {
    var x := EarlyInst(s.q, s.u, s.th.stream, e).value;
    EarlyIsNext(s.q, s.u, s.th.stream, e);
    InFlightIncreasing(s.q);
    HeadIsOldest(s.q.inFlight, w);
    assert x in s.q.inFUMem && x.id in s.u.canEarly;
    hide EarlyInst, UnitInv, MustPrecede, FilterInv, OrderInv, SentInv, ScoreInv, BarrierInv;
  }

  /** A memory reference is handed to the LSQ only once every older barrier and
      every older writer of one of its sources has left the in-flight queue. */
  lemma SentSafely(cfg: Config, s: State, c: Ctl, onlyMicroops: bool, discard: bool, e: IterEnv, w: Inst)
    requires ExInv(s) && s.q.inFlight != [] && MayDiscard(s, discard) && w in s.q.inFlight
    requires CommitIter(cfg, s, c, onlyMicroops, discard, e).0.q.sent != s.q.sent
    ensures var x := s.q.inFUMem;
      && x != [] && CommitIter(cfg, s, c, onlyMicroops, discard, e).0.q.sent == s.q.sent + [x[0]]
      && x[0].stream == s.th.stream
      && !MustPrecede(w, x[0])
  {
    hide QueueInv, UnitInv, ScoreInv, BarrierInv, WaitInv, StreamInv, MayDiscard, MustPrecede;
    var p := PickInst(cfg, s, c, onlyMicroops, e);
    IterSends(cfg, s, c, onlyMicroops, discard, e);
    IterCase(cfg, s, c, onlyMicroops, discard, e);
    hide CommitIter, TryInst;
    QueueParts(s.q);
    PickedIsNext(s, p);
    SentWaits(cfg, s, c, onlyMicroops, e, w);
  }

  /** What is handed over is the picked instruction, of the current stream. */
  lemma IterSends(cfg: Config, s: State, c: Ctl, onlyMicroops: bool, discard: bool, e: IterEnv)
    requires s.q.inFlight != [] && CommitIter(cfg, s, c, onlyMicroops, discard, e).0.q.sent != s.q.sent
    ensures var p := PickInst(cfg, s, c, onlyMicroops, e);
      && !p.NoPick? && !p.Response? && TryInst(cfg, s.th, s.bar.last, p, discard, e).1.Send?
      && p.inst.memRef && p.inst.stream == s.th.stream
      && CommitIter(cfg, s, c, onlyMicroops, discard, e).0.q.sent == s.q.sent + [p.inst]
  {
    hide PickInst, FinishU, ClearDests, CompleteBarrier;
  }

  /** Nothing in flight must precede what is picked for the LSQ. */
  lemma SentWaits(cfg: Config, s: State, c: Ctl, onlyMicroops: bool, e: IterEnv, w: Inst)
    requires ExInv(s) && s.q.inFlight != [] && w in s.q.inFlight
    requires var p := PickInst(cfg, s, c, onlyMicroops, e); !p.NoPick? && Picked(s, p)
    ensures !MustPrecede(w, PickInst(cfg, s, c, onlyMicroops, e).inst)
  {
    hide QueueInv, UnitInv, ScoreInv, BarrierInv, WaitInv, StreamInv;
    var p := PickInst(cfg, s, c, onlyMicroops, e);
    if p.Early? {
      EarlyWaits(s, e, w);
    } else {
      HeadFirst(s.q, w);
    }
  }

  lemma HeadFirst(q: Queues, w: Inst)
    requires QueueInv(q) && w in q.inFlight
    ensures q.inFlight[0].id <= w.id
  {
    InFlightIncreasing(q);
    HeadIsOldest(q.inFlight, w);
  }

  /** How trying an instruction extends the history of effects. */
  lemma TryInstEffects(cfg: Config, th: Thread, last: SeqNum, p: Pick, discard: bool, e: IterEnv)
    requires !p.NoPick? && (p.inst.fault ==> !p.inst.memRef)
    ensures var (th', o) := TryInst(cfg, th, last, p, discard, e);
      if th'.log == th.log then
        th'.pc == th.pc && (Leaves(o) ==> p.inst.stream != th.stream || discard)
      else
        th'.log == th.log + [Took(p.inst, th'.pc)] && Leaves(o) && p.inst.stream == th.stream && !discard
  {
  }

  /** How one iteration extends the history of effects: not at all, by a PC
      event, or by the head of the queue, which is of the current stream and
      leaves the queue at that moment. */
  lemma IterEffects(cfg: Config, s: State, c: Ctl, onlyMicroops: bool, discard: bool, e: IterEnv)
    requires ExInv(s) && s.q.inFlight != [] && MayDiscard(s, discard)
    ensures var s' := CommitIter(cfg, s, c, onlyMicroops, discard, e).0;
      || (s'.th.log == s.th.log && s'.th.pc == s.th.pc && s'.lastEnd == s.lastEnd
          && s'.q.completed == s.q.completed && s'.q.inFlight == s.q.inFlight)
      || (s'.th.log == s.th.log && s'.th.pc == s.th.pc && s.q.inFlight[0].stream != s.th.stream
          && s'.lastEnd == Ends(s.q.inFlight[0])
          && s'.q.completed == s.q.completed + [s.q.inFlight[0]] && s'.q.inFlight == s.q.inFlight[1..])
      || (s'.th.log == s.th.log + [Redirect(s.th.pc, s'.th.pc)] && s'.q == s.q && s'.lastEnd == s.lastEnd
          && e.pcEvent == Some(s'.th.pc) && s.lastEnd && !e.accessesInFlight)
      || (s'.th.log == s.th.log + [Took(s.q.inFlight[0], s'.th.pc)] && !discard
          && s.q.inFlight[0].stream == s.th.stream && s'.lastEnd == Ends(s.q.inFlight[0])
          && s'.q.completed == s.q.completed + [s.q.inFlight[0]] && s'.q.inFlight == s.q.inFlight[1..])
  {
    hide ExInv;
    var p := PickInst(cfg, s, c, onlyMicroops, e);
    if !HasPCEvent(s, e) && !p.NoPick? {
      IterCase(cfg, s, c, onlyMicroops, discard, e);
      TryInstEffects(cfg, s.th, s.bar.last, p, discard, e);
      hide TryInst, PickInst, FinishU, ClearDests, CompleteBarrier;
    }
  }
}
