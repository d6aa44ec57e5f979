/**
  What one iteration of the commit loop may do, said in terms of the instruction
  at the head and of what its surroundings offer: exactly when it takes effect and
  where it then sends the thread, when a memory reference is handed over, when a PC
  event strikes, and what the branch predictor is told.
 */
module CommitLaws {
  import opened Options
  import opened MinorTypes
  import opened QueueLemmas
  import opened QueueInvariants
  import opened UnitInvariants
  import opened DependencyInvariants
  import opened CommitSpec
  import opened CommitTheorems

  // ---------- Taking effect ----------

  /** The head is a fault, its access is refused, or its execution or its response
      faulted. */
  ghost predicate FaultsNow(s: State, e: IterEnv)
    requires s.q.inFlight != []
  {
    var h := s.q.inFlight[0];
    h.fault || e.fault || (h.memRef && h.id !in s.q.inLSQ)
  }

  /** No PC event comes first. */
  predicate Undisturbed(s: State, e: IterEnv) { s.lastEnd && !e.accessesInFlight ==> e.pcEvent.None? }

  /** The head, not in the LSQ, has come to the end of its unit or needs none, and
      neither its turn nor a delay nor a sleeping thread holds it back. */
  ghost predicate HeadDue(s: State, onlyMicroops: bool, e: IterEnv)
    requires s.q.inFlight != []
  {
    var h := s.q.inFlight[0];
    && h.id !in s.q.inLSQ && (h.noCost || AtEndOfUnit(s.u, h)) && EarlyInst(s.q, s.u, s.th.stream, e).None?
    && !(onlyMicroops && s.lastEnd) && !e.delayed && (s.th.suspended ==> e.interrupted)
  }

  /** The head can take effect: its response has come; or it is due and, if a memory
      reference, its access is refused with no older barrier remembered; if a barrier,
      there is room in the store buffer; if a quiesce, nothing is signalled yet. */
  ghost predicate CanTakeEffect(cfg: Config, s: State, c: Ctl, onlyMicroops: bool, e: IterEnv)
    requires s.q.inFlight != []
  {
    var h := s.q.inFlight[0];
    if h.id in s.q.inLSQ then e.response && c.memRefs < cfg.memoryCommitLimit
    else
      && HeadDue(s, onlyMicroops, e)
      && (if h.memRef then e.canRequest && e.initFault && !(0 < s.bar.last < h.id)
          else (h.barrier ==> e.storeBufferRoom) && (h.quiesce ==> s.th.branch.reason == NoBranch))
  }

  /** The head takes effect and leaves. */
  ghost predicate TakesEffect(s: State, s': State) {
    s'.th.log != s.th.log && s'.q.completed != s.q.completed
  }

  /** What picking and trying come to for the head. */
  lemma TriesHead(cfg: Config, s: State, c: Ctl, onlyMicroops: bool, discard: bool, e: IterEnv)
    requires ExInv(s) && s.q.inFlight != []
    ensures var h, p := s.q.inFlight[0], PickInst(cfg, s, c, onlyMicroops, e);
      if h.id in s.q.inLSQ && e.response && c.memRefs < cfg.memoryCommitLimit then p == Response(h)
      else if onlyMicroops && s.lastEnd then p.NoPick?
      else if EarlyInst(s.q, s.u, s.th.stream, e).Some? then p.Early?
      else if h.id !in s.q.inLSQ && (h.noCost || AtEndOfUnit(s.u, h)) then p == Free(h) || p == FromFU(h)
      else p.NoPick?
  {
    var h := s.q.inFlight[0];
    assert h in s.q.inFlight;
    if h.id in s.q.inLSQ { HeldHead(s.q); }
    hide EarlyInst, AtEndOfUnit, ExInv;
  }

  /** Trying the head, in the terms above. */
  lemma TryHead(cfg: Config, th: Thread, last: SeqNum, p: Pick, discard: bool, e: IterEnv)
    requires !p.NoPick? && !p.Early? && WellFormed(p.inst) && (p.Response? ==> p.inst.memRef)
    ensures var (th', o) := TryInst(cfg, th, last, p, discard, e);
      var h := p.inst;
      && (th'.log != th.log <==>
            && !discard && h.stream == th.stream
            && (p.Response?
                || (&& !e.delayed && (th.suspended ==> e.interrupted)
                    && (if h.memRef then e.canRequest && e.initFault && !(0 < last < h.id)
                        else (h.barrier ==> e.storeBufferRoom) && (h.quiesce ==> th.branch.reason == NoBranch)))))
      && (th'.log != th.log ==>
            var faults := h.fault || e.fault || (h.memRef && !p.Response?);
            && th'.pc == (if faults then e.pcAfter else cfg.advance(h, e.pcAfter))
            && Completes(o) && Faults(o) == faults)
  {
  }

  lemma TryLonger(cfg: Config, th: Thread, inst: Inst, fault: bool, e: IterEnv)
    ensures TryToBranch(cfg, th, inst, fault, e).log != th.log
  {
    assert |TryToBranch(cfg, th, inst, fault, e).log| == |th.log| + 1;
  }

  lemma EarlyQuiet(cfg: Config, th: Thread, last: SeqNum, p: Pick, discard: bool, e: IterEnv)
    requires p.Early? && p.inst.memRef && !p.inst.fault
    ensures TryInst(cfg, th, last, p, discard, e).0.log == th.log
  {
  }

  /** The thread after an iteration. */
  lemma ThreadAfter(cfg: Config, s: State, c: Ctl, onlyMicroops: bool, discard: bool, e: IterEnv)
    requires s.q.inFlight != []
    ensures var (s', c') := CommitIter(cfg, s, c, onlyMicroops, discard, e);
      var p := PickInst(cfg, s, c, onlyMicroops, e);
      if !Undisturbed(s, e) then e.pcEvent.Some? && s' == s.(th := PCEvent(s.th, e.pcEvent.value)) && !c'.completed
      else if p.NoPick? then s' == s && !c'.completed
      else
        var (th, o) := TryInst(cfg, s.th, s.bar.last, p, discard, e);
        s'.th == th && c'.completed == Completes(o) && c'.fault == Faults(o)
  {
    hide PickInst, TryInst, LeaveQ, SendQ, FinishU, ClearDests, CompleteBarrier;
  }

  /** Whether the log grows is whether the head takes effect, unless a PC event
      strikes. */
  lemma LogGrows(cfg: Config, s: State, c: Ctl, onlyMicroops: bool, discard: bool, e: IterEnv)
    requires ExInv(s) && s.q.inFlight != [] && MayDiscard(s, discard)
    ensures var s' := CommitIter(cfg, s, c, onlyMicroops, discard, e).0;
      TakesEffect(s, s') <==> Undisturbed(s, e) && s'.th.log != s.th.log
  {
    hide CommitIter, ExInv, MayDiscard;
    IterEffects(cfg, s, c, onlyMicroops, discard, e);
    ThreadAfter(cfg, s, c, onlyMicroops, discard, e);
  }

  lemma Tried(s: State, p: Pick, discard: bool, o: Outcome)
    requires ExInv(s) && Considers(s, p, discard, o)
    ensures WellFormed(p.inst) && (p.Response? ==> p.inst.memRef) && (p.Early? ==> p.inst.memRef)
    ensures p.Response? <==> p.inst.id in s.q.inLSQ
  {
  }

  /** Exactly then does the head take effect. */
  lemma TakesEffectExactly(cfg: Config, s: State, c: Ctl, onlyMicroops: bool, discard: bool, e: IterEnv)
    requires ExInv(s) && s.q.inFlight != [] && MayDiscard(s, discard)
    ensures var s' := CommitIter(cfg, s, c, onlyMicroops, discard, e).0;
      TakesEffect(s, s') <==>
        && Undisturbed(s, e) && !discard && s.q.inFlight[0].stream == s.th.stream
        && CanTakeEffect(cfg, s, c, onlyMicroops, e)
  {
    hide CommitIter, ExInv, TryInst, PickInst, MayDiscard, TakesEffect, Undisturbed, EarlyInst, AtEndOfUnit, Considers;
    var p := PickInst(cfg, s, c, onlyMicroops, e);
    LogGrows(cfg, s, c, onlyMicroops, discard, e);
    ThreadAfter(cfg, s, c, onlyMicroops, discard, e);
    TriesHead(cfg, s, c, onlyMicroops, discard, e);
    if Undisturbed(s, e) && !p.NoPick? {
      IterCase(cfg, s, c, onlyMicroops, discard, e);
      Tried(s, p, discard, TryInst(cfg, s.th, s.bar.last, p, discard, e).1);
      if p.Early? {
        EarlyQuiet(cfg, s.th, s.bar.last, p, discard, e);
      } else {
        TryHead(cfg, s.th, s.bar.last, p, discard, e);
      }
    }
  }

  /** Where it then sends the thread, and whether that ends the call. */
  lemma SendsThread(cfg: Config, s: State, c: Ctl, onlyMicroops: bool, discard: bool, e: IterEnv)
    requires ExInv(s) && s.q.inFlight != [] && MayDiscard(s, discard)
    ensures var (s', c') := CommitIter(cfg, s, c, onlyMicroops, discard, e);
      TakesEffect(s, s') ==>
        var h := s.q.inFlight[0];
        && s'.th.log == s.th.log + [Took(h, if FaultsNow(s, e) then e.pcAfter else cfg.advance(h, e.pcAfter))]
        && c'.completed && c'.fault == FaultsNow(s, e)
  {
    hide CommitIter, ExInv, TryInst, PickInst, MayDiscard, TakesEffect, Undisturbed, Considers;
    var p := PickInst(cfg, s, c, onlyMicroops, e);
    LogGrows(cfg, s, c, onlyMicroops, discard, e);
    ThreadAfter(cfg, s, c, onlyMicroops, discard, e);
    TriesHead(cfg, s, c, onlyMicroops, discard, e);
    if Undisturbed(s, e) && !p.NoPick? {
      IterCase(cfg, s, c, onlyMicroops, discard, e);
      Tried(s, p, discard, TryInst(cfg, s.th, s.bar.last, p, discard, e).1);
      if p.Early? {
        EarlyQuiet(cfg, s.th, s.bar.last, p, discard, e);
      } else {
        TryHead(cfg, s.th, s.bar.last, p, discard, e);
        TryInstEffects(cfg, s.th, s.bar.last, p, discard, e);
      }
    }
  }

  // ---------- Serializing instructions ----------

  lemma ForcedBranch(cfg: Config, th: Thread, inst: Inst, fault: bool, e: IterEnv)
    requires inst.serializing && inst.lastOp && !inst.fault
    ensures var th' := TryToBranch(cfg, th, inst, fault, e); !th'.suspended ==> th'.stream == th.stream + 1
  {
  }

  lemma TrySerializes(cfg: Config, th: Thread, last: SeqNum, p: Pick, discard: bool, e: IterEnv)
    requires !p.NoPick? && p.inst.serializing && p.inst.lastOp && !p.inst.fault
    ensures var th' := TryInst(cfg, th, last, p, discard, e).0;
      th'.log != th.log && !th'.suspended ==> th'.stream == th.stream + 1
  {
    ForcedBranch(cfg, th, p.inst, e.fault, e);
    ForcedBranch(cfg, th, p.inst, true, e);
    hide TryToBranch;
  }

  /** An instruction after which the pipeline must be refetched changes the stream,
      unless the thread sleeps: what was fetched behind it is dropped. */
  lemma Serializes(cfg: Config, s: State, c: Ctl, onlyMicroops: bool, discard: bool, e: IterEnv)
    requires ExInv(s) && s.q.inFlight != [] && MayDiscard(s, discard)
    requires var h := s.q.inFlight[0]; h.serializing && h.lastOp && !h.fault
    ensures var s' := CommitIter(cfg, s, c, onlyMicroops, discard, e).0;
      TakesEffect(s, s') && !s'.th.suspended ==> s'.th.stream == s.th.stream + 1
  {
    hide CommitIter, ExInv, TryInst, PickInst, MayDiscard, TakesEffect, Undisturbed, Considers;
    var p := PickInst(cfg, s, c, onlyMicroops, e);
    LogGrows(cfg, s, c, onlyMicroops, discard, e);
    ThreadAfter(cfg, s, c, onlyMicroops, discard, e);
    TriesHead(cfg, s, c, onlyMicroops, discard, e);
    if Undisturbed(s, e) && !p.NoPick? {
      IterCase(cfg, s, c, onlyMicroops, discard, e);
      Tried(s, p, discard, TryInst(cfg, s.th, s.bar.last, p, discard, e).1);
      if p.Early? {
        EarlyQuiet(cfg, s.th, s.bar.last, p, discard, e);
      } else {
        TrySerializes(cfg, s.th, s.bar.last, p, discard, e);
      }
    }
  }

  // ---------- Leaving without effect ----------

  /** Exactly then is the head dropped: it is old or everything is discarded, and its
      response has come or its unit has let go of it; nothing else can hold it. */
  lemma DropsExactly(cfg: Config, s: State, c: Ctl, onlyMicroops: bool, discard: bool, e: IterEnv)
    requires ExInv(s) && s.q.inFlight != [] && MayDiscard(s, discard)
    ensures var s' := CommitIter(cfg, s, c, onlyMicroops, discard, e).0;
      var h := s.q.inFlight[0];
      s'.q.completed != s.q.completed && s'.th.log == s.th.log <==>
        && Undisturbed(s, e) && (discard || h.stream != s.th.stream)
        && (if h.id in s.q.inLSQ && e.response && c.memRefs < cfg.memoryCommitLimit then true
            else
              && !(onlyMicroops && s.lastEnd) && EarlyInst(s.q, s.u, s.th.stream, e).None?
              && h.id !in s.q.inLSQ && (h.noCost || AtEndOfUnit(s.u, h)))
  {
    hide CommitIter, ExInv, TryInst, PickInst, MayDiscard, Undisturbed, EarlyInst, AtEndOfUnit;
    var p := PickInst(cfg, s, c, onlyMicroops, e);
    IterEffects(cfg, s, c, onlyMicroops, discard, e);
    ThreadAfter(cfg, s, c, onlyMicroops, discard, e);
    TriesHead(cfg, s, c, onlyMicroops, discard, e);
    if Undisturbed(s, e) && !p.NoPick? {
      IterCase(cfg, s, c, onlyMicroops, discard, e);
      Leaving(cfg, s, c, onlyMicroops, discard, e);
      TryDrops(cfg, s.th, s.bar.last, p, discard, e);
    }
  }

  /** The queue shortens exactly if the instruction tried leaves. */
  lemma Leaving(cfg: Config, s: State, c: Ctl, onlyMicroops: bool, discard: bool, e: IterEnv)
    requires s.q.inFlight != [] && Undisturbed(s, e) && !PickInst(cfg, s, c, onlyMicroops, e).NoPick?
    ensures var p := PickInst(cfg, s, c, onlyMicroops, e);
      var s' := CommitIter(cfg, s, c, onlyMicroops, discard, e).0;
      s'.q.completed != s.q.completed <==> Leaves(TryInst(cfg, s.th, s.bar.last, p, discard, e).1)
  {
    hide PickInst, TryInst, FinishU, ClearDests, CompleteBarrier;
    var p := PickInst(cfg, s, c, onlyMicroops, e);
    assert |s.q.completed + [p.inst]| > |s.q.completed|;
  }

  lemma TryDrops(cfg: Config, th: Thread, last: SeqNum, p: Pick, discard: bool, e: IterEnv)
    requires !p.NoPick? && WellFormed(p.inst)
    requires p.Early? ==> p.inst.memRef && p.inst.stream == th.stream && !discard
    ensures var (th', o) := TryInst(cfg, th, last, p, discard, e);
      Leaves(o) && th'.log == th.log <==> discard || p.inst.stream != th.stream
  {
  }

  // ---------- Handing over ----------

  /** Exactly then is a memory reference handed over: it is first in line in the memory
      queue and of the thread's stream, it is at the end of its unit, ahead of its turn
      or at the head, there is room for it, and neither a barrier, a delay, a sleeping
      thread nor a fault is in the way. */
  lemma SendsExactly(cfg: Config, s: State, c: Ctl, onlyMicroops: bool, discard: bool, e: IterEnv)
    requires ExInv(s) && s.q.inFlight != [] && MayDiscard(s, discard)
    ensures var s' := CommitIter(cfg, s, c, onlyMicroops, discard, e).0;
      var h, early := s.q.inFlight[0], EarlyInst(s.q, s.u, s.th.stream, e);
      s'.q.sent != s.q.sent <==>
        && Undisturbed(s, e) && !discard && s.q.inFUMem != [] && !(onlyMicroops && s.lastEnd)
        && !(h.id in s.q.inLSQ && e.response && c.memRefs < cfg.memoryCommitLimit)
        && (early == Some(s.q.inFUMem[0])
            || (early.None? && h == s.q.inFUMem[0] && h.stream == s.th.stream && AtEndOfUnit(s.u, h)))
        && e.canRequest && !e.initFault && !e.delayed && (s.th.suspended ==> e.interrupted)
        && !(0 < s.bar.last < s.q.inFUMem[0].id)
  {
    hide CommitIter, ExInv, TryInst, PickInst, MayDiscard, Undisturbed, EarlyInst, AtEndOfUnit;
    var p := PickInst(cfg, s, c, onlyMicroops, e);
    ThreadAfter(cfg, s, c, onlyMicroops, discard, e);
    TriesHead(cfg, s, c, onlyMicroops, discard, e);
    QueueOf(s);
    if s.q.inFUMem != [] { FirstInLine(s); }
    if Undisturbed(s, e) && !p.NoPick? {
      IterCase(cfg, s, c, onlyMicroops, discard, e);
      Sending(cfg, s, c, onlyMicroops, discard, e);
      TrySends(cfg, s.th, s.bar.last, p, discard, e);
      PickedEarly(cfg, s, c, onlyMicroops, e);
      if p.inst.memRef && !p.Response? { PickedIsNext(s, p); }
    }
  }

  lemma QueueOf(s: State)
    requires ExInv(s)
    ensures OrderInv(s.q) && FilterInv(s.q)
  {
  }

  lemma FirstInLine(s: State)
    requires ExInv(s) && s.q.inFUMem != []
    ensures var m := s.q.inFUMem[0]; m in s.q.inFlight && m.memRef && m.id !in s.q.inLSQ && !m.noCost
  {
    MemQueueFacts(s.q);
    assert s.q.inFUMem[0] in s.q.inFUMem;
  }

  lemma PickedEarly(cfg: Config, s: State, c: Ctl, onlyMicroops: bool, e: IterEnv)
    requires s.q.inFlight != []
    ensures var p := PickInst(cfg, s, c, onlyMicroops, e);
      p.Early? ==> EarlyInst(s.q, s.u, s.th.stream, e) == Some(p.inst)
  {
  }

  lemma Sending(cfg: Config, s: State, c: Ctl, onlyMicroops: bool, discard: bool, e: IterEnv)
    requires s.q.inFlight != [] && Undisturbed(s, e) && !PickInst(cfg, s, c, onlyMicroops, e).NoPick?
    ensures var p := PickInst(cfg, s, c, onlyMicroops, e);
      var s' := CommitIter(cfg, s, c, onlyMicroops, discard, e).0;
      s'.q.sent != s.q.sent <==> TryInst(cfg, s.th, s.bar.last, p, discard, e).1.Send?
  {
    hide PickInst, TryInst, FinishU, ClearDests, CompleteBarrier;
    var p := PickInst(cfg, s, c, onlyMicroops, e);
    assert |s.q.sent + [p.inst]| > |s.q.sent|;
  }

  lemma TrySends(cfg: Config, th: Thread, last: SeqNum, p: Pick, discard: bool, e: IterEnv)
    requires !p.NoPick? && WellFormed(p.inst)
    ensures TryInst(cfg, th, last, p, discard, e).1.Send? <==>
      && !discard && p.inst.stream == th.stream && !p.Response? && p.inst.memRef && !(0 < last < p.inst.id)
      && !e.delayed && (th.suspended ==> e.interrupted) && e.canRequest && !e.initFault
  {
  }

  // ---------- PC events ----------

  /** Exactly then does a PC event strike: one is due, the last instruction is complete
      and no access is in flight.  It moves the thread there in a new stream. */
  lemma RedirectsExactly(cfg: Config, s: State, c: Ctl, onlyMicroops: bool, discard: bool, e: IterEnv)
    requires ExInv(s) && s.q.inFlight != [] && MayDiscard(s, discard)
    ensures var s' := CommitIter(cfg, s, c, onlyMicroops, discard, e).0;
      s'.th.log != s.th.log && s'.q.completed == s.q.completed <==>
        e.pcEvent.Some? && s.lastEnd && !e.accessesInFlight
    ensures var s' := CommitIter(cfg, s, c, onlyMicroops, discard, e).0;
      e.pcEvent.Some? && s.lastEnd && !e.accessesInFlight ==>
        && s'.q == s.q && s'.th.pc == e.pcEvent.value && s'.th.stream == s.th.stream + 1
        && s'.th.log == s.th.log + [Redirect(s.th.pc, e.pcEvent.value)]
  {
    hide CommitIter, ExInv, MayDiscard;
    IterEffects(cfg, s, c, onlyMicroops, discard, e);
    ThreadAfter(cfg, s, c, onlyMicroops, discard, e);
    LogGrows(cfg, s, c, onlyMicroops, discard, e);
  }

  // ---------- What the branch predictor learns ----------

  /** What fetch tells the predictor when a signal reaches it. */
  datatype Lesson = NoLesson | Confirmed | WentThere(target: PC) | WentOn

  function LessonOf(b: BranchData): Lesson {
    match b.reason
    case UnpredictedBranch => WentThere(b.target)
    case CorrectlyPredictedBranch => Confirmed
    case BadlyPredictedBranch => WentOn
    case BadlyPredictedBranchTarget => WentThere(b.target)
    case _ => NoLesson
  }

  /** Where the predictor holds that i goes, None for straight on: before and after. */
  function Belief(i: Inst): Option<PC> { if i.predictedTaken then Some(i.predictedTarget) else None }

  function Taught(i: Inst, l: Lesson): Option<PC> {
    match l
    case WentThere(target) => Some(target)
    case WentOn => None
    case _ => Belief(i)
  }

  /** Where i really went. */
  ghost function WentTo(th': Thread, i: Inst, faults: bool, e: IterEnv): Option<PC> {
    if i.pc != e.pcAfter || faults then Some(th'.pc) else None
  }

  /** A branch that did not happen is signalled because i is serializing. */
  ghost predicate OnlyForced(th': Thread, i: Inst, faults: bool, e: IterEnv) {
    !th'.suspended && i.serializing && i.lastOp && !i.fault && i.pc == e.pcAfter && !faults
  }

  /** A correct prediction that is thrown away. */
  ghost predicate Degraded(th': Thread, i: Inst, faults: bool, e: IterEnv) {
    && i.predictedTaken && (i.pc != e.pcAfter || faults) && i.predictedTarget == th'.pc && !e.keepPrediction
    && !(!th'.suspended && i.serializing && i.lastOp && !i.fault)
  }

  lemma BranchTeaches(cfg: Config, th: Thread, inst: Inst, fault: bool, e: IterEnv)
    requires !IsStreamChange(th.branch.reason)
    ensures var th' := TryToBranch(cfg, th, inst, fault, e);
      var lesson := if th'.branch == th.branch then NoLesson else LessonOf(th'.branch);
      Taught(inst, lesson) == WentTo(th', inst, fault, e) <==>
        !OnlyForced(th', inst, fault, e) && !Degraded(th', inst, fault, e)
  {
  }

  lemma TryTeaches(cfg: Config, th: Thread, last: SeqNum, p: Pick, discard: bool, e: IterEnv)
    requires !p.NoPick? && !p.Early? && WellFormed(p.inst) && (p.Response? ==> p.inst.memRef)
    requires !IsStreamChange(th.branch.reason) && TryInst(cfg, th, last, p, discard, e).0.log != th.log
    ensures var th' := TryInst(cfg, th, last, p, discard, e).0;
      var faults := p.inst.fault || e.fault || (p.inst.memRef && !p.Response?);
      var lesson := if th'.branch == th.branch then NoLesson else LessonOf(th'.branch);
      Taught(p.inst, lesson) == WentTo(th', p.inst, faults, e) <==>
        !OnlyForced(th', p.inst, faults, e) && !Degraded(th', p.inst, faults, e)
  {
    BranchTeaches(cfg, th, p.inst, e.fault, e);
    BranchTeaches(cfg, th, p.inst, true, e);
  }

  /** When an instruction takes effect, what fetch tells the predictor makes it hold
      what really happened, except exactly when a correct prediction is thrown away
      or a serializing instruction signals a branch that did not happen. */
  lemma TeachesExactly(cfg: Config, s: State, c: Ctl, onlyMicroops: bool, discard: bool, e: IterEnv)
    requires ExInv(s) && s.q.inFlight != [] && MayDiscard(s, discard) && !IsStreamChange(s.th.branch.reason)
    requires TakesEffect(s, CommitIter(cfg, s, c, onlyMicroops, discard, e).0)
    ensures var s' := CommitIter(cfg, s, c, onlyMicroops, discard, e).0;
      var h, faults := s.q.inFlight[0], FaultsNow(s, e);
      var lesson := if s'.th.branch == s.th.branch then NoLesson else LessonOf(s'.th.branch);
      Taught(h, lesson) == WentTo(s'.th, h, faults, e) <==>
        !OnlyForced(s'.th, h, faults, e) && !Degraded(s'.th, h, faults, e)
  {
    hide CommitIter, ExInv, TryInst, PickInst, MayDiscard, TakesEffect, Undisturbed, Considers, WentTo, OnlyForced,
        Degraded;
    var p := PickInst(cfg, s, c, onlyMicroops, e);
    LogGrows(cfg, s, c, onlyMicroops, discard, e);
    ThreadAfter(cfg, s, c, onlyMicroops, discard, e);
    TriesHead(cfg, s, c, onlyMicroops, discard, e);
    IterCase(cfg, s, c, onlyMicroops, discard, e);
    Tried(s, p, discard, TryInst(cfg, s.th, s.bar.last, p, discard, e).1);
    if p.Early? {
      EarlyQuiet(cfg, s.th, s.bar.last, p, discard, e);
    } else {
      TryTeaches(cfg, s.th, s.bar.last, p, discard, e);
    }
  }
}
