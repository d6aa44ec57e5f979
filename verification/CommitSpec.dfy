/**
  The commit side of Execute as functions on the stage's state: one iteration
  of the commit loop, the loop, and the signals it raises.
 */
module CommitSpec {
  import opened Options
  import opened MinorTypes

  /** Everything outside Execute that one commit iteration depends on: memory
      responses and space, the ISA's behaviour, timing, interrupts, PC events. */
  datatype IterEnv = IterEnv(
    accessesInFlight: bool,
    pcEvent: Option<PC>,       // a PC event moved the thread's PC here
    response: bool,            // the oldest LSQ transfer is complete
    canRequest: bool,          // room in the LSQ's request queue
    delayed: bool,             // minimumCommitCycle lies ahead
    initFault: bool,           // initiateAcc faulted without making a request
    storeBufferRoom: bool,
    fault: bool,               // execute or completeAcc faulted
    pcAfter: PC,               // thread PC after execution or fault invocation
    suspends: bool,            // the instruction or its fault put the thread to sleep
    interrupted: bool,
    keepPrediction: bool)      // degrade_branch_predictor's answer

  /** Loop variables of commit. */
  datatype Ctl = Ctl(completed: bool, fault: bool, insts: nat, memRefs: nat)

  const CTL0 := Ctl(true, false, 0, 0)

  /** What becomes of the instruction an iteration considers. */
  datatype Outcome =
    | Hold                                  // stays where it is
    | HoldFault                             // early access faulted: wait for the head
    | Send                                  // handed to the LSQ, stays in flight
    | SendFault                             // access faulted at the head: leaves
    | Done(committed: bool, fault: bool)    // leaves, committed or discarded

  predicate Completes(o: Outcome) { !o.Hold? && !o.HoldFault? }

  predicate Leaves(o: Outcome) { o.SendFault? || o.Done? }

  predicate Faults(o: Outcome) { o.HoldFault? || o.SendFault? || (o.Done? && o.fault) }

  predicate Commits(o: Outcome) { o.Done? && o.committed }

  // ---------- Signals and the architectural side ----------

  function UpdateBranch(th: Thread, reason: Reason, target: PC): Thread {
    if reason == NoBranch then th
    else
      var stream := if IsStreamChange(reason) then th.stream + 1 else th.stream;
      th.(stream := stream, branch := BranchData(reason, stream, target))
  }

  function BranchReason(inst: Inst, force: bool, must: bool, hit: bool, keep: bool): Reason {
    if inst.predictedTaken && !force then
      if !must then BadlyPredictedBranch
      else if hit then
        if keep then CorrectlyPredictedBranch else BadlyPredictedBranch
      else BadlyPredictedBranchTarget
    else if must then UnpredictedBranch
    else NoBranch
  }

  function TryToBranch(cfg: Config, th: Thread, inst: Inst, fault: bool, e: IterEnv): Thread {
    var suspended := th.suspended || e.suspends;
    var force := !suspended && !inst.fault && inst.lastOp && inst.serializing;
    var must := inst.pc != e.pcAfter || fault || force;
    var target := if fault then e.pcAfter else cfg.advance(inst, e.pcAfter);
    UpdateBranch(th.(pc := target, suspended := suspended, log := th.log + [Took(inst, target)]),
                 BranchReason(inst, force, must, inst.predictedTarget == target, e.keepPrediction),
                 target)
  }

  function PCEvent(th: Thread, target: PC): Thread {
    UpdateBranch(th.(pc := target, log := th.log + [Redirect(th.pc, target)]), UnpredictedBranch, target)
  }

  /** initiateAcc: no room, a fault, or a request pushed into the LSQ. */
  function ExecuteMemRef(cfg: Config, th: Thread, inst: Inst, early: bool, e: IterEnv): (Thread, Outcome) {
    if !e.canRequest then (th, Hold)
    else if e.initFault && early then (th, HoldFault)
    else if e.initFault then (TryToBranch(cfg, th, inst, true, e), SendFault)
    else (th, Send)
  }

  function CommitInstBody(cfg: Config, th: Thread, inst: Inst, early: bool, e: IterEnv): (Thread, Outcome) {
    if th.suspended && !e.interrupted then (th.(panicked := true), Hold)
    else if inst.fault then (TryToBranch(cfg, th, inst, true, e), Done(false, true))
    else if inst.memRef then ExecuteMemRef(cfg, th, inst, early, e)
    else if inst.barrier && !e.storeBufferRoom then (th, Hold)
    else if inst.quiesce && th.branch.reason != NoBranch then (th, Hold)
    else (TryToBranch(cfg, th, inst, e.fault, e), Done(true, e.fault))
  }

  function CommitInst(cfg: Config, th: Thread, inst: Inst, early: bool, e: IterEnv): (Thread, Outcome) {
    var (th1, o) := CommitInstBody(cfg, th, inst, early, e);
    if Completes(o) && !inst.fault && th1.suspended && th1.branch.reason == NoBranch && !e.interrupted then
      (UpdateBranch(th1, SuspendThread, th1.pc), o)
    else (th1, o)
  }

  /** If inst puts its thread to sleep, its commit changes the stream: it was not
      predicted correctly, or it is followed by a signal of its own. */
  predicate Resteers(cfg: Config, th: Thread, inst: Inst, response: bool, e: IterEnv) {
    var fault := e.fault || (!response && (inst.fault || inst.memRef));
    var must := inst.pc != e.pcAfter || fault;
    var target := if fault then e.pcAfter else cfg.advance(inst, e.pcAfter);
    if inst.predictedTaken then !(must && inst.predictedTarget == target && e.keepPrediction)
    else must || (!response && !inst.fault && th.branch.reason == NoBranch && !e.interrupted)
  }

  // ---------- Choosing and trying an instruction ----------

  datatype Pick = NoPick | Response(inst: Inst) | Early(inst: Inst) | Free(inst: Inst) | FromFU(inst: Inst)

  predicate HasResponse(cfg: Config, q: Queues, c: Ctl, e: IterEnv)
    requires q.inFlight != []
  {
    && q.inFlight[0].id in q.inLSQ && e.response && c.memRefs < cfg.memoryCommitLimit
    && q.lsq != [] && q.lsq[0] == q.inFlight[0]
  }

  /** The memory reference that may enter the LSQ ahead of the head. */
  function EarlyInst(q: Queues, u: Units, stream: SeqNum, e: IterEnv): Option<Inst>
    requires q.inFlight != []
  {
    if q.inFUMem == [] || !e.canRequest then None
    else
      var f := AtFront(u, FUOf(u, q.inFUMem[0]));
      if f.Some? && f.value.id !in q.inLSQ && f.value.id in u.canEarly
         && stream == f.value.stream && q.inFlight[0].id > WaitFor(u, f.value)
      then f else None
  }

  predicate AtEndOfUnit(u: Units, inst: Inst) {
    var f := AtFront(u, FUOf(u, inst));
    f.Some? && f.value.id == inst.id
  }

  /** Which instruction the iteration tries to complete. */
  function PickInst(cfg: Config, s: State, c: Ctl, onlyMicroops: bool, e: IterEnv): Pick
    requires s.q.inFlight != []
  {
    var head := s.q.inFlight[0];
    var early := EarlyInst(s.q, s.u, s.th.stream, e);
    if HasResponse(cfg, s.q, c, e) then Response(head)
    else if onlyMicroops && s.lastEnd then NoPick
    else if early.Some? then Early(early.value)
    else if head.noCost then Free(head)
    else if head.id !in s.q.inLSQ && AtEndOfUnit(s.u, head) then FromFU(head)
    else NoPick
  }

  /** Discard, hold back or commit the picked instruction. */
  function TryInst(cfg: Config, th: Thread, last: SeqNum, p: Pick, discard: bool, e: IterEnv): (Thread, Outcome)
    requires !p.NoPick?
  {
    if p.inst.stream != th.stream || discard then (th, Done(false, false))
    else if p.Response? then (TryToBranch(cfg, th, p.inst, e.fault, e), Done(true, e.fault))
    else if p.inst.memRef && 0 < last < p.inst.id then (th, Hold)
    else if e.delayed then (th, Hold)
    else CommitInst(cfg, th, p.inst, p.Early?, e)
  }

  // ---------- Bookkeeping at the end of an iteration ----------

  function PopFUMem(q: Queues, inst: Inst): Queues {
    if inst.memRef && q.inFUMem != [] && q.inFUMem[0] == inst then q.(inFUMem := q.inFUMem[1..]) else q
  }

  function SendQ(q: Queues, inst: Inst): Queues {
    PopFUMem(q.(inLSQ := q.inLSQ + {inst.id}, lsq := q.lsq + [inst], sent := q.sent + [inst]), inst)
  }

  /** An instruction leaves: the queue loses its head. */
  function LeaveQ(q: Queues, p: Pick, o: Outcome): Queues
    requires q.inFlight != [] && !p.NoPick?
    requires p.Response? ==> q.lsq != []
  {
    var q1 := if p.Response? then q.(lsq := q.lsq[1..])
              else if o.SendFault? then q.(inLSQ := q.inLSQ + {p.inst.id})
              else q;
    PopFUMem(q1, p.inst).(inFlight := q.inFlight[1..], completed := q.completed + [p.inst])
  }

  function Unstall(u: Units, k: nat): Units {
    if k < |u.fus| then u.(fus := u.fus[k := u.fus[k].(stalled := false)]) else u
  }

  function FinishU(u: Units, p: Pick, o: Outcome): Units
    requires !p.NoPick?
  {
    if p.Response? || o.Hold? then u
    else if o.HoldFault? then u.(canEarly := u.canEarly - {p.inst.id})
    else
      var u1 := Unstall(u, FUOf(u, p.inst));
      if o.Done? then u1 else u1.(fuIndex := u1.fuIndex[p.inst.id := 0])
  }

  function ClearBarrier(b: Barriers, id: SeqNum): Barriers {
    if id >= b.last then b.(last := 0) else b
  }

  function CompleteBarrier(b: Barriers, inst: Inst, committed: bool): Barriers {
    if !inst.barrier then b
    else if committed then b.(waiting := b.waiting + {inst.id})
    else ClearBarrier(b, inst.id)
  }

  function ClearDests(sb: Scoreboard, inst: Inst): Scoreboard {
    var left := sb.numResults - multiset(inst.dests);
    Scoreboard(left, map r | r in sb.writing && (r in inst.dests ==> r in left) :: sb.writing[r])
  }

  function Finish(s: State, p: Pick, th: Thread, o: Outcome): State
    requires s.q.inFlight != [] && !p.NoPick?
    requires p.Response? ==> s.q.lsq != []
  {
    var u := FinishU(s.u, p, o);
    if Leaves(o) then
      s.(q := LeaveQ(s.q, p, o), u := u, sb := ClearDests(s.sb, p.inst),
         bar := CompleteBarrier(s.bar, p.inst, Commits(o)),
         th := th, lastEnd := p.inst.fault || p.inst.lastOp)
    else s.(q := if o.Send? then SendQ(s.q, p.inst) else s.q, u := u, th := th)
  }

  function Count(c: Ctl, p: Pick, o: Outcome): Ctl
    requires !p.NoPick?
  {
    Ctl(Completes(o), Faults(o),
        if Commits(o) && !p.inst.noCost then c.insts + 1 else c.insts,
        if Commits(o) && p.Response? then c.memRefs + 1 else c.memRefs)
  }

  // ---------- The loop ----------

  predicate HasPCEvent(s: State, e: IterEnv) {
    s.lastEnd && !e.accessesInFlight && e.pcEvent.Some?
  }

  /** One iteration of the commit loop. */
  function CommitIter(cfg: Config, s: State, c: Ctl, onlyMicroops: bool, discard: bool, e: IterEnv): (State, Ctl)
    requires s.q.inFlight != []
  {
    if HasPCEvent(s, e) then
      (s.(th := PCEvent(s.th, e.pcEvent.value)), c.(completed := false))
    else
      var p := PickInst(cfg, s, c, onlyMicroops, e);
      if p.NoPick? then (s, c.(completed := false))
      else
        var (th, o) := TryInst(cfg, s.th, s.bar.last, p, discard, e);
        (Finish(s, p, th, o), Count(c, p, o))
  }

  predicate CommitGuard(cfg: Config, s: State, c: Ctl) {
    s.q.inFlight != [] && !IsStreamChange(s.th.branch.reason) && !c.fault && c.completed && c.insts != cfg.commitLimit
  }

  /** State and loop variables after at most `k` iterations. */
  function CommitUpTo(cfg: Config, s: State, onlyMicroops: bool, discard: bool, env: nat -> IterEnv, k: nat): (State,
                      Ctl) {
    if k == 0 then (s, CTL0)
    else
      var (s1, c1) := CommitUpTo(cfg, s, onlyMicroops, discard, env, k - 1);
      if CommitGuard(cfg, s1, c1) then CommitIter(cfg, s1, c1, onlyMicroops, discard, env(k - 1)) else (s1, c1)
  }

  function CommitBound(s: State): nat { |s.q.inFlight| + |s.q.inFUMem| + 1 }

  /** The whole loop; `CommitLoopEnds` shows that the bound cuts nothing off. */
  function Commit(cfg: Config, s: State, onlyMicroops: bool, discard: bool, env: nat -> IterEnv): (State, Ctl) {
    CommitUpTo(cfg, s, onlyMicroops, discard, env, CommitBound(s))
  }
}
