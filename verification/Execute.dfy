/**
  The Execute stage in its own form: one thread's state held in fields that the
  methods update step by step, each method tied to its function in the
  specification modules.
 */
module ExecuteStage {
  import opened Options
  import opened MinorTypes
  import opened CommitSpec
  import opened CommitTheorems
  import opened CommitCalls
  import opened CommitLaws
  import opened CallLaws
  import opened IssueSpec
  import opened IssueTheorems
  import opened IssueLaws
  import opened CycleSpec
  import opened CycleTheorems
  import opened StageRuns
  import opened RunLaws

  /** An access joins the LSQ. */
  function PushLSQ(q: Queues, inst: Inst): Queues {
    q.(inLSQ := q.inLSQ + {inst.id}, lsq := q.lsq + [inst], sent := q.sent + [inst])
  }

  /** The flags the source carries an outcome in. */
  ghost predicate Flags(o: Outcome, completedInst: bool, fault: bool, committed: bool, issuedMemRef: bool) {
    && completedInst == Completes(o) && fault == Faults(o) && committed == Commits(o)
    && issuedMemRef == (o.Send? || o.SendFault?)
  }

  /** Queues and units between trying an instruction and its bookkeeping. */
  ghost function TriedQ(q: Queues, p: Pick, o: Outcome): Queues
    requires !p.NoPick? && (p.Response? ==> q.lsq != [])
  {
    if p.Response? then q.(lsq := q.lsq[1..]) else if o.Send? then PushLSQ(q, p.inst) else q
  }

  ghost function TriedU(u: Units, p: Pick, o: Outcome): Units
    requires !p.NoPick?
  {
    if p.Response? || o.Hold? then u
    else if o.HoldFault? then u.(canEarly := u.canEarly - {p.inst.id})
    else Unstall(u, FUOf(u, p.inst))
  }

  /** An instruction goes to unit k. */
  ghost function IssuedTo(cfg: Config, s: State, inst: Inst, k: nat): State
    requires k < |s.u.fus| && s.u.fus[k].pipe != []
  {
    IssueInst(s, inst, IssueU(cfg, s.u, inst, k, InstToWaitFor(s.sb, s.bar, inst)))
  }

  /** A unit's queue has a slot for its input besides one per cycle of latency. */
  function EmptyUnit(opLat: nat): FU { FU(seq(opLat + 1, _ => None), false) }

  class Execute {
    const cfg: Config
    var inp: Input                        // inputBuffer and inputIndex
    var q: Queues                         // inFlightInsts, inFUMemInsts and the LSQ's queues
    var u: Units                          // funcUnits and the marks on instructions
    var scoreboard: Scoreboard
    var barriers: Barriers                // lsq.lastMemBarrier and the store buffer's barriers
    var th: Thread                        // streamSeqNum, thread context and the branch wire
    var lastCommitWasEndOfMacroop: bool
    var drainState: DrainState

    /** The abstract state. */
    ghost function View(): State reads this {
      State(inp, q, u, scoreboard, barriers, th, lastCommitWasEndOfMacroop, drainState)
    }

    /** A stage with one unit for each operation latency, its thread at pc. */
    constructor (config: Config, opLats: seq<nat>, pc: PC)
      requires forall lat | lat in opLats :: 1 <= lat
      ensures cfg == config && Fresh(View()) && FullInv(View()) && th.pc == pc
      ensures |u.fus| == |opLats| && forall k | 0 <= k < |opLats| :: |u.fus[k].pipe| == opLats[k] + 1
    {
      cfg := config;
      inp := Input([], 0);
      q := Queues([], [], {}, [], [], [], []);
      u := Units(seq(|opLats|, k requires 0 <= k < |opLats| => EmptyUnit(opLats[k])), map[], {}, map[]);
      scoreboard := Scoreboard(multiset{}, map[]);
      barriers := Barriers(0, {});
      th := Thread(1, pc, false, false, BUBBLE, []);
      lastCommitWasEndOfMacroop, drainState := true, NotDraining;
      new;
      hide FullInv;
      forall f | f in u.fus ensures !f.stalled && |f.pipe| >= 2 && forall k | 0 <= k < |f.pipe| :: f.pipe[k].None? {
        var k :| 0 <= k < |opLats| && f == EmptyUnit(opLats[k]);
        assert opLats[k] in opLats;
      }
      FreshStage(View());
    }

    // ---------- Signals ----------

    method UpdateBranchData(reason: Reason, target: PC)
      modifies `th
      ensures th == UpdateBranch(old(th), reason, target)
    {
      if reason != NoBranch {
        if IsStreamChange(reason) {
          th := th.(stream := th.stream + 1);
        }
        th := th.(branch := BranchData(reason, th.stream, target));
      }
    }

    /** Execution, or invoking the fault, left the thread's PC at `e.pcAfter` and
        may have put the thread to sleep. */
    method TryToBranchInst(inst: Inst, fault: bool, e: IterEnv)
      modifies `th
      ensures th == TryToBranch(cfg, old(th), inst, fault, e)
      ensures inst.serializing && inst.lastOp && !inst.fault && !th.suspended ==> th.stream == old(th.stream) + 1
    {
      var target := e.pcAfter;
      th := th.(suspended := th.suspended || e.suspends);
      var forceBranch := !th.suspended && !inst.fault && inst.lastOp && inst.serializing;
      var mustBranch := inst.pc != target || fault || forceBranch;
      var reason := NoBranch;
      if !fault {
        target := cfg.advance(inst, target);
      }
      th := th.(pc := target, log := th.log + [Took(inst, target)]);

      if inst.predictedTaken && !forceBranch {
        if !mustBranch {
          reason := BadlyPredictedBranch;
        } else if inst.predictedTarget == target {
          reason := if e.keepPrediction then CorrectlyPredictedBranch else BadlyPredictedBranch;
        } else {
          reason := BadlyPredictedBranchTarget;
        }
      } else if mustBranch {
        reason := UnpredictedBranch;
      }
      UpdateBranchData(reason, target);
    }

    // ---------- Committing one instruction ----------

    /** Present a memory reference to the LSQ. */
    method ExecuteMemRefInst(inst: Inst, e: IterEnv) returns (wasIssued: bool, fault: bool)
      modifies `q
      ensures wasIssued == e.canRequest && fault == (e.canRequest && e.initFault)
      ensures q == if wasIssued && !fault then PushLSQ(old(q), inst) else old(q)
    {
      wasIssued, fault := false, false;
      if e.canRequest {
        if e.initFault {
          fault := true;
        } else {
          q := PushLSQ(q, inst);
        }
        wasIssued := true;
      }
    }

    /** A memory reference at the end of its unit: hand it to the LSQ, or deal
        with its fault unless it is ahead of its turn. */
    method CommitMemRef(inst: Inst, earlyMemoryIssue: bool, e: IterEnv) returns (completedInst: bool, fault: bool)
      modifies `th, `q, `u
      ensures var (th', o) := ExecuteMemRef(cfg, old(th), inst, earlyMemoryIssue, e);
        && completedInst == Completes(o) && fault == Faults(o) && th == th'
        && q == (if o.Send? then PushLSQ(old(q), inst) else old(q))
        && u == if o.HoldFault? then old(u).(canEarly := old(u).canEarly - {inst.id}) else old(u)
    {
      var completedMemInst;
      completedMemInst, fault := ExecuteMemRefInst(inst, e);
      if completedMemInst && fault {
        if earlyMemoryIssue {
          u := u.(canEarly := u.canEarly - {inst.id});
          completedInst := false;
        } else {
          TryToBranchInst(inst, true, e);
          completedInst := true;
        }
      } else {
        completedInst := completedMemInst;
      }
    }

    method CommitOneInst(inst: Inst, earlyMemoryIssue: bool, e: IterEnv)
      returns (completedInst: bool, fault: bool, committed: bool, completedMemIssue: bool)
      modifies `th, `q, `u
      ensures var (th', o) := CommitInst(cfg, old(th), inst, earlyMemoryIssue, e);
        && Flags(o, completedInst, fault, committed, completedMemIssue) && th == th'
        && q == (if o.Send? then PushLSQ(old(q), inst) else old(q))
        && u == if o.HoldFault? then old(u).(canEarly := old(u).canEarly - {inst.id}) else old(u)
      ensures completedInst <==>
        && (old(th.suspended) ==> e.interrupted)
        && (inst.fault
            || (if inst.memRef then e.canRequest && !(earlyMemoryIssue && e.initFault)
                else (inst.barrier ==> e.storeBufferRoom) && (inst.quiesce ==> old(th.branch.reason) == NoBranch)))
    {
      hide TryToBranch;
      completedInst, fault, committed, completedMemIssue := true, false, false, false;
      if th.suspended && !e.interrupted {
        th := th.(panicked := true);
        completedInst := false;
      } else if inst.fault {
        fault := true;
        TryToBranchInst(inst, true, e);
      } else if inst.memRef {
        completedInst, fault := CommitMemRef(inst, earlyMemoryIssue, e);
        completedMemIssue := completedInst;
      } else if inst.barrier && !e.storeBufferRoom {
        completedInst := false;
      } else if inst.quiesce && th.branch.reason != NoBranch {
        completedInst := false;
      } else {
        fault := e.fault;
        committed := true;
        TryToBranchInst(inst, fault, e);
      }
      if completedInst && !inst.fault && th.suspended && th.branch.reason == NoBranch && !e.interrupted {
        UpdateBranchData(SuspendThread, th.pc);
      }
    }

    // ---------- The commit loop ----------

    method HandleMemResponse(inst: Inst, e: IterEnv) returns (fault: bool)
      requires q.lsq != []
      modifies `th, `q
      ensures fault == e.fault && q == old(q).(lsq := old(q).lsq[1..])
      ensures th == TryToBranch(cfg, old(th), inst, e.fault, e)
    {
      fault := e.fault;
      q := q.(lsq := q.lsq[1..]);
      TryToBranchInst(inst, fault, e);
    }

    /** The head's memory response has come back: discard it or complete it. */
    method TryResponse(inst: Inst, discard: bool, e: IterEnv) returns (discardInst: bool, fault: bool, committed: bool)
      requires q.lsq != []
      modifies `th, `q
      ensures TryInst(cfg, old(th), barriers.last, Response(inst), discard, e) == (th, Done(committed, fault))
      ensures q == old(q).(lsq := old(q).lsq[1..])
    {
      fault, committed := false, false;
      discardInst := inst.stream != th.stream || discard;
      if discardInst {
        q := q.(lsq := q.lsq[1..]);
      } else {
        fault := HandleMemResponse(inst, e);
        committed := true;
      }
    }

    /** The picked instruction is discarded, held back or committed, and its
        unit released if it completed. */
    method TryToCommit(p: Pick, discard: bool, e: IterEnv)
      returns (completedInst: bool, discardInst: bool, fault: bool, committed: bool, issuedMemRef: bool)
      requires p.Early? || p.Free? || p.FromFU?
      modifies `th, `q, `u
      ensures var (th', o) := TryInst(cfg, old(th), barriers.last, p, discard, e);
        && th == th' && q == TriedQ(old(q), p, o) && u == TriedU(old(u), p, o)
        && Flags(o, completedInst, fault, committed, issuedMemRef)
      ensures discardInst ==> completedInst
    {
      hide CommitInst;
      completedInst, fault, committed, issuedMemRef := true, false, false, false;
      discardInst := p.inst.stream != th.stream || discard;
      if !discardInst {
        if p.inst.memRef && barriers.last < p.inst.id && barriers.last != 0 {
          completedInst := false;
        } else if e.delayed {
          completedInst := false;
        } else {
          completedInst, fault, committed, issuedMemRef := CommitOneInst(p.inst, p.Early?, e);
        }
      } else {
        completedInst := true;
      }
      if completedInst {
        var k := FUOf(u, p.inst);
        if k < |u.fus| {
          u := u.(fus := u.fus[k := u.fus[k].(stalled := false)]);
        }
      }
    }

    /** Try the picked instruction. */
    method TryPicked(p: Pick, discard: bool, e: IterEnv)
      returns (completedInst: bool, fault: bool, committed: bool, issuedMemRef: bool)
      requires !p.NoPick? && (p.Response? ==> q.lsq != [])
      modifies `th, `q, `u
      ensures var (th', o) := TryInst(cfg, old(th), barriers.last, p, discard, e);
        && th == th' && q == TriedQ(old(q), p, o) && u == TriedU(old(u), p, o)
        && Flags(o, completedInst, fault, committed, issuedMemRef)
        && (p.Response? ==> o.Done?)
    {
      hide TryInst;
      completedInst, fault, committed, issuedMemRef := true, false, false, false;
      var discardInst := false;
      if p.Response? {
        discardInst, fault, committed := TryResponse(p.inst, discard, e);
      } else {
        completedInst, discardInst, fault, committed, issuedMemRef := TryToCommit(p, discard, e);
      }
      assert !(discardInst && !completedInst);
    }

    /** End of an iteration: marks, queues, barrier and scoreboard. */
    method FinishInst(inst: Inst, completedInst: bool, fault: bool, committed: bool, issuedMemRef: bool)
      requires q.inFlight != []
      modifies `u, `q, `barriers, `scoreboard, `lastCommitWasEndOfMacroop
      ensures View() == FinishFlags(old(View()), inst, completedInst, fault, committed, issuedMemRef)
    {
      hide ClearDests, CompleteBarrier;
      if issuedMemRef {
        u := u.(fuIndex := u.fuIndex[inst.id := 0]);
        q := q.(inLSQ := q.inLSQ + {inst.id});
      }
      if completedInst && inst.memRef {
        if q.inFUMem != [] && q.inFUMem[0] == inst {
          q := q.(inFUMem := q.inFUMem[1..]);
        }
      }
      if completedInst && !(issuedMemRef && !fault) {
        lastCommitWasEndOfMacroop := inst.fault || inst.lastOp;
        q := q.(inFlight := q.inFlight[1..], completed := q.completed + [inst]);
        barriers := CompleteBarrier(barriers, inst, committed);
        scoreboard := ClearDests(scoreboard, inst);
      }
    }

    /** The memory reference at the end of the unit of the oldest one not yet
        sent, if it may enter the LSQ now. */
    method FindEarly(e: IterEnv) returns (r: Option<Inst>)
      requires q.inFlight != []
      ensures r == EarlyInst(q, u, th.stream, e)
    {
      r := None;
      if q.inFUMem != [] && e.canRequest {
        var fuInst := AtFront(u, FUOf(u, q.inFUMem[0]));
        if fuInst.Some? && fuInst.value.id !in q.inLSQ && fuInst.value.id in u.canEarly
           && th.stream == fuInst.value.stream && q.inFlight[0].id > WaitFor(u, fuInst.value) {
          r := fuInst;
        }
      }
    }

    /** Which instruction this iteration tries to complete: a returned memory
        response, else an early memory reference, else the head. */
    method PickNext(onlyCommitMicroops: bool, c: Ctl, e: IterEnv) returns (p: Pick)
      requires q.inFlight != []
      ensures p == PickInst(cfg, View(), c, onlyCommitMicroops, e)
      ensures p.Response? ==> q.lsq != []
    {
      hide EarlyInst;
      var head := q.inFlight[0];
      var canCommitInsts := !(onlyCommitMicroops && lastCommitWasEndOfMacroop);
      var memResponse := head.id in q.inLSQ && q.lsq != [] && q.lsq[0] == head && e.response;
      p := NoPick;
      if memResponse && c.memRefs < cfg.memoryCommitLimit {
        p := Response(head);
      } else if canCommitInsts {
        var early := FindEarly(e);
        if early.Some? {
          p := Early(early.value);
        }
        if p.NoPick? && head.noCost {
          p := Free(head);
        }
        if p.NoPick? && head.id !in q.inLSQ {
          var fuInst := AtFront(u, FUOf(u, head));
          if fuInst.Some? && fuInst.value.id == head.id {
            p := FromFU(head);
          }
        }
      }
    }

    /** One iteration of the commit loop. */
    method CommitStep(onlyCommitMicroops: bool, discard: bool, c: Ctl, e: IterEnv) returns (c': Ctl)
      requires q.inFlight != []
      modifies this
      ensures (View(), c') == CommitIter(cfg, old(View()), c, onlyCommitMicroops, discard, e)
    {
      hide PickInst, TryInst, TriedQ, TriedU, Finish, FinishFlags;
      if lastCommitWasEndOfMacroop && !e.accessesInFlight && e.pcEvent.Some? {
        th := th.(log := th.log + [Redirect(th.pc, e.pcEvent.value)], pc := e.pcEvent.value);
        UpdateBranchData(UnpredictedBranch, th.pc);
        c' := c.(completed := false);
      } else {
        var p := PickNext(onlyCommitMicroops, c, e);
        if p.NoPick? {
          c' := c.(completed := false);
        } else {
          ghost var s := View();
          ghost var (th', o) := TryInst(cfg, th, barriers.last, p, discard, e);
          var completedInst, fault, committed, issuedMemRef := TryPicked(p, discard, e);
          FinishAgrees(s, p, th', o, completedInst, fault, committed, issuedMemRef);
          FinishInst(p.inst, completedInst, fault, committed, issuedMemRef);
          c' := Ctl(completedInst, fault,
                    if committed && !p.inst.noCost then c.insts + 1 else c.insts,
                    if committed && p.Response? then c.memRefs + 1 else c.memRefs);
        }
      }
    }

    /** Complete instructions until one cannot be completed, a branch or fault
        stops the stream, or the limits are reached.  The first n in flight
        complete; `added` is what takes effect. */
    method CommitInsts(onlyCommitMicroops: bool, discard: bool, env: nat -> IterEnv)
      returns (numInstsCommitted: nat, numMemRefsCommitted: nat, ghost n: nat, ghost added: seq<Effect>, ghost k: nat)
      requires ExInv(View()) && MayDiscard(View(), discard) && th.branch == BUBBLE
      modifies this
      ensures View() == Commit(cfg, old(View()), onlyCommitMicroops, discard, env).0 && ExInv(View())
      ensures numInstsCommitted <= cfg.commitLimit && numMemRefsCommitted <= cfg.memoryCommitLimit
      ensures OneChangeSince(old(th), th)
      ensures q.issued == old(q.issued) && n <= |old(q.inFlight)|
      ensures q.completed == old(q.completed) + old(q.inFlight)[..n] && q.inFlight == old(q.inFlight)[n..]
      ensures th.log == old(th.log) + added
      ensures Costed(added) <= cfg.commitLimit && References(added) <= cfg.memoryCommitLimit + 1
      ensures forall x | x in added && x.Took? ::
        !discard && x.inst in old(q.inFlight)[..n] && x.inst.stream == old(th.stream)
      ensures forall j | 0 <= j < k :: MayGoOn(cfg, old(View()), onlyCommitMicroops, discard, env, j)
      ensures !MayGoOn(cfg, old(View()), onlyCommitMicroops, discard, env, k) || Costed(added) == cfg.commitLimit
    {
      hide ExInv, CommitIter, MayDiscard, OneChangeSince, AllRightly, Costed, Completed, References, MayGoOn;
      ghost var s0 := View();
      var c := CTL0;
      k := 0;
      var i: nat := 0;
      CommitUpToKeeps(cfg, s0, onlyCommitMicroops, discard, env, 0);
      while q.inFlight != [] && !IsStreamChange(th.branch.reason) && !c.fault && c.completed
            && c.insts != cfg.commitLimit
        invariant (View(), c) == CommitUpTo(cfg, s0, onlyCommitMicroops, discard, env, i)
        invariant LoopInv(cfg, s0, View(), c, discard)
        invariant i <= CommitBound(s0)
        decreases if c.completed then 1 + |q.inFlight| + |q.inFUMem| else 0
      {
        LoopStep(cfg, s0, View(), c, onlyCommitMicroops, discard, env(i));
        CommitUpToKeeps(cfg, s0, onlyCommitMicroops, discard, env, i);
        c := CommitStep(onlyCommitMicroops, discard, c, env(i));
        i := i + 1;
      }
      CommitSettled(cfg, s0, onlyCommitMicroops, discard, env, i, CommitBound(s0));
      hide CommitUpTo;
      n, added := CommitCall(cfg, s0, onlyCommitMicroops, discard, env);
      CallMeans(s0, q, n, discard, added);
      ghost var log;
      k, log := CommitStopsExactly(cfg, s0, onlyCommitMicroops, discard, env);
      SameSuffix(s0.th.log, added, log);
      numInstsCommitted, numMemRefsCommitted := c.insts, c.memRefs;
    }

    // ---------- The issue loop ----------

    method GetInput() returns (r: Option<seq<Option<Inst>>>)
      ensures r == if HasInput(inp) then Some(inp.lines[0]) else None
    {
      r := None;
      if inp.lines != [] {
        var head := inp.lines[0];
        if head != [] && head[0].Some? {
          r := Some(head);
        }
      }
    }

    method PopInputLine()
      modifies `inp
      ensures inp == PopInput(old(inp))
    {
      if inp.lines != [] {
        inp := inp.(lines := inp.lines[1..]);
      }
      inp := inp.(index := 0);
    }

    /** Put an instruction in flight in unit k. */
    method IssueAt(inst: Inst, k: nat)
      requires k < |u.fus| && u.fus[k].pipe != []
      modifies `q, `u, `scoreboard, `barriers
      ensures View() == IssuedTo(cfg, old(View()), inst, k)
    {
      hide InstToWaitFor, MarkupDests;
      if inst.memRef {
        if cfg.allowEarlyMemIssue {
          var wait := LastWriter(scoreboard, inst.srcs);
          if barriers.last > wait {
            wait := barriers.last;
          }
          assert wait == InstToWaitFor(scoreboard, barriers, inst) by { WaitForIs(scoreboard, barriers, inst); }
          u := u.(waitFor := u.waitFor[inst.id := wait], canEarly := u.canEarly + {inst.id});
        }
        q := q.(inFUMem := q.inFUMem + [inst]);
      }
      u := u.(fuIndex := u.fuIndex[inst.id := k], fus := u.fus[k := Push(u.fus[k], inst)]);
      scoreboard := MarkupDests(scoreboard, inst);
      q := q.(inFlight := q.inFlight + [inst], issued := q.issued + [inst]);
      if inst.barrier {
        barriers := barriers.(last := inst.id);
      }
    }

    /** Step through the units until one takes the instruction. */
    method IssueToUnits(inst: Inst, e: IssueEnv) returns (issued: bool, stoppedAt: nat)
      modifies `q, `u, `scoreboard, `barriers
      ensures var k := FindFU(old(u), e, 0);
        && issued == k.Some? && stoppedAt == (if k.Some? then k.value + 1 else |old(u).fus|)
        && View() == if k.None? then old(View())
                     else IssuedTo(cfg, old(View()), inst, k.value)
    {
      hide IssueInst, IssueU, InstToWaitFor;
      issued, stoppedAt := false, 0;
      while stoppedAt != |u.fus| && !issued
        invariant stoppedAt <= |old(u).fus| && (!issued ==> View() == old(View()))
        invariant if issued then
            && stoppedAt > 0 && FindFU(old(u), e, 0) == Some(stoppedAt - 1)
            && View() == IssuedTo(cfg, old(View()), inst, stoppedAt - 1)
          else FindFU(old(u), e, 0) == FindFU(old(u), e, stoppedAt)
        decreases |old(u).fus| - stoppedAt
      {
        var fu := u.fus[stoppedAt];
        if !e.accepts(stoppedAt) || fu.pipe == [] || fu.pipe[|fu.pipe| - 1].Some? {
        } else if fu.stalled {
        } else {
          IssueAt(inst, stoppedAt);
          issued := true;
        }
        stoppedAt := stoppedAt + 1;
      }
    }

    /** Put an instruction in flight that needs no unit. */
    method IssueForFree(inst: Inst)
      modifies `q, `u, `scoreboard, `barriers
      ensures View() == IssueInst(old(View()), inst, old(u).(fuIndex := old(u).fuIndex[inst.id := NoCostFU(old(u))]))
    {
      hide MarkupDests;
      u := u.(fuIndex := u.fuIndex[inst.id := NoCostFU(u)]);
      scoreboard := MarkupDests(scoreboard, inst);
      q := q.(inFlight := q.inFlight + [inst], issued := q.issued + [inst],
              inFUMem := if inst.memRef then q.inFUMem + [inst] else q.inFUMem);
      if inst.barrier {
        barriers := barriers.(last := inst.id);
      }
    }

    /** One slot of the input: skip a bubble, discard, or try to issue. */
    method IssueStep(c: IssueCtl, e: IssueEnv) returns (c': IssueCtl)
      requires HasInput(inp) && inp.index < |inp.lines[0]|
      modifies this
      ensures (View(), c') == IssueIter(cfg, old(View()), c, e)
    {
      IssueUCount(cfg, u);
      hide FindFU, IssueU, InstToWaitFor, MarkupDests, IssueQ;
      var line := inp.lines[0];
      var slot := line[inp.index];
      var fu, insts, memRefs := c.fu, c.insts, c.memRefs;
      var issued := true;
      if slot.None? || th.suspended || slot.value.stream != th.stream {
        // A bubble, or an instruction to discard
      } else if slot.value.noCost {
        IssueForFree(slot.value);
        fu, insts := NoCostFU(u) + 1, insts + 1;
      } else {
        issued, fu := IssueToUnits(slot.value, e);
        if issued {
          insts := insts + 1;
          memRefs := if slot.value.memRef then memRefs + 1 else memRefs;
        }
      }
      var more := true;
      if issued {
        inp := inp.(index := inp.index + 1);
        if inp.index == |line| {
          PopInputLine();
          more := false;
          if cfg.processMoreThanOneInput {
            var next := GetInput();
            more := next.Some?;
          }
        }
      }
      c' := IssueCtl(fu, insts, memRefs,
                     more && fu != |u.fus| && issued && insts != cfg.issueLimit && memRefs != cfg.memoryIssueLimit);
    }

    /** Issue in order until an instruction finds no unit, the input runs out or
        a limit is reached.  Returns how many were issued. */
    method IssueInsts(env: nat -> IssueEnv) returns (numInstsIssued: nat, ghost n: nat)
      requires FullInv(View()) && ValidConfig(cfg)
      modifies this
      ensures View() == Issue(cfg, old(View()), env).0 && FullInv(View())
      ensures n <= |Remaining(old(inp))| && Remaining(inp) == Remaining(old(inp))[n..] && InRange(inp)
      ensures q.inFlight == old(q.inFlight) + Taken(th, Remaining(old(inp))[..n])
      ensures numInstsIssued == |Taken(th, Remaining(old(inp))[..n])| <= cfg.issueLimit
      ensures |q.inFUMem| <= |old(q.inFUMem)| + cfg.memoryIssueLimit
      ensures th == old(th) && drainState == old(drainState) && q.completed == old(q.completed) && q.sent == old(q.sent)
      ensures MustStop(cfg, old(View()), View(), n, env(n)) && NotBefore(cfg, old(View()), View(), n)
    {
      hide ExInv, PendingInv, IssueIter, Remaining, Taken, MustStop, NotBefore;
      ghost var s0 := View();
      ghost var slots := |Remaining(inp)|;
      var input := GetInput();
      var c := IssueCtl(0, 0, 0, input.Some?);
      var k: nat := 0;
      n := IssueUpToKeeps(cfg, s0, env, 0);
      while c.going
        invariant (View(), c) == IssueUpTo(cfg, s0, env, k)
        invariant FullInv(View()) && IssueInv(cfg, s0, View(), c, n) && (c.going ==> n == k)
        invariant k <= slots + 1
        decreases slots + 1 - k, c.going
      {
        IssueInvBound(cfg, s0, View(), c, n);
        HasInputIff(inp);
        c := IssueStep(c, env(k));
        k := k + 1;
        n := IssueUpToKeeps(cfg, s0, env, k);
      }
      IssueSettled(cfg, s0, env, k, slots + 1);
      n := IssueStopsExactly(cfg, s0, env);
      numInstsIssued := c.insts;
    }

    // ---------- A cycle ----------

    method IsInbetweenInsts(accessesInFlight: bool) returns (r: bool)
      ensures r == InbetweenInsts(View(), accessesInFlight)
    {
      r := lastCommitWasEndOfMacroop && !accessesInFlight;
    }

    method SetDrainState(state: DrainState)
      modifies `drainState
      ensures drainState == state
    {
      drainState := state;
    }

    /** Kill all buffered input. */
    method DumpAllInput()
      modifies `inp
      ensures inp == DumpInput(old(inp))
    {
      var input := GetInput();
      while input.Some?
        invariant DumpInput(inp) == DumpInput(old(inp)) && input.Some? == HasInput(inp)
        decreases |inp.lines|
      {
        PopInputLine();
        input := GetInput();
      }
    }

    /** Commit as the drain state directs, then halt fetch if that is due. */
    method CommitForDrainState(e: CycleEnv)
      requires FullInv(Dumped(View())) && th.branch == BUBBLE
      modifies this
      ensures View() == HaltPhase(CommitPhase(cfg, old(View()), e))
      ensures FullInv(View())
    {
      hide Commit, FullInv, ExInv, MayDiscard, OneChangeSince, Costed, DumpInput;
      ghost var s0, d0 := View(), Dumped(View());
      DumpFirst(cfg, s0, e);
      CommitPhaseKeeps(cfg, d0, e);
      HaltPhaseKeeps(CommitPhase(cfg, d0, e));
      NotDiscarding(d0);
      if drainState != NotDraining {
        if drainState == DrainCurrentInst {
          var insts, memRefs, n, added, k := CommitInsts(true, false, e.commit);
          var inbetween := IsInbetweenInsts(e.accessesAfter);
          if inbetween {
            SetDrainState(DrainHaltFetch);
          }
          th := th.(branch := BUBBLE);
        } else if drainState == DrainAllInsts {
          DrainedMayDiscard(d0);
          DumpAllInput();
          var insts, memRefs, n, added, k := CommitInsts(false, true, e.commit);
        }
      } else {
        var insts, memRefs, n, added, k := CommitInsts(e.interrupted, false, e.commit);
      }
      if drainState == DrainHaltFetch {
        UpdateBranchData(HaltFetch, 0);
        SetDrainState(DrainAllInsts);
      }
    }

    /** One clock cycle. */
    method EvaluateCycle(e: CycleEnv)
      requires FullInv(View()) && ValidConfig(cfg) && (BubbleLine(e.line) || LineOK(View(), e.line))
      modifies this
      ensures View() == Evaluate(cfg, old(View()), e)
      ensures FullInv(View()) && WireAgrees(old(th), th)
      ensures HistInv(old(View())) && HaltInv(old(View())) ==>
        DrainStep(old(View()), View()) && HistInv(View()) && HaltInv(View()) && SignalsDue(old(View()), e, View())
    {
      hide SignalsDue, HistInv, HaltInv, DrainStep, FullInv, Remaining, Taken, CommitPhase, HaltPhase, Issue, LineOK,
          StepLSQ, WireAgrees, AdvanceUnits, Dumped;
      ghost var s := View();
      EvaluateKeeps(cfg, s, e);
      CycleSignals(cfg, s, e);
      BeginKeeps(s, e);
      if !BubbleLine(e.line) {
        inp := inp.(lines := inp.lines + [e.line]);
      }
      barriers := StepLSQ(barriers, e.cleared);
      th := th.(branch := BUBBLE);
      assert View() == Begin(s, e);

      var inbetween := IsInbetweenInsts(e.accessesBefore);
      if drainState == NotDraining && e.interrupted && inbetween && e.handler.Some? {
        th := th.(log := th.log + [Redirect(th.pc, e.handler.value)], pc := e.handler.value);
        UpdateBranchData(Interrupt, th.pc);
      } else {
        CommitForDrainState(e);
        var numIssued, n := IssueInsts(e.issue);
      }
      u := AdvanceUnits(u);
    }

    method RequestDrain(accessesInFlight: bool)
      requires FullInv(View())
      modifies `drainState
      ensures View() == Drain(old(View()), accessesInFlight)
      ensures FullInv(View())
    {
      hide FullInv;
      DrainKeeps(View(), accessesInFlight);
      if drainState == NotDraining {
        var inbetween := IsInbetweenInsts(accessesInFlight);
        if inbetween {
          SetDrainState(DrainHaltFetch);
        } else {
          SetDrainState(DrainCurrentInst);
        }
      }
    }

    method ResumeFromDrain()
      requires FullInv(View())
      modifies `drainState
      ensures View() == DrainResume(old(View()))
      ensures FullInv(View())
    {
      hide FullInv;
      DrainKeeps(View(), false);
      SetDrainState(NotDraining);
    }
  }

  /** The bookkeeping as the source's flags direct it. */
  ghost function FinishFlags(s: State, inst: Inst, completedInst: bool, fault: bool, committed: bool,
                             issuedMemRef: bool): State
    requires s.q.inFlight != []
  {
    var leaves := completedInst && !(issuedMemRef && !fault);
    var q1 := if issuedMemRef then s.q.(inLSQ := s.q.inLSQ + {inst.id}) else s.q;
    var q2 := if completedInst then PopFUMem(q1, inst) else q1;
    s.(q := if leaves then q2.(inFlight := q2.inFlight[1..], completed := q2.completed + [inst]) else q2,
       u := if issuedMemRef then s.u.(fuIndex := s.u.fuIndex[inst.id := 0]) else s.u,
       bar := if leaves then CompleteBarrier(s.bar, inst, committed) else s.bar,
       sb := if leaves then ClearDests(s.sb, inst) else s.sb,
       lastEnd := if leaves then inst.fault || inst.lastOp else s.lastEnd)
  }

  /** The flags lead to the same bookkeeping as the outcome they stand for. */
  lemma FinishAgrees(s: State, p: Pick, th: Thread, o: Outcome, completedInst: bool, fault: bool, committed: bool,
                     issuedMemRef: bool)
    requires s.q.inFlight != [] && !p.NoPick? && (p.Response? ==> s.q.lsq != [] && o.Done?)
    requires Flags(o, completedInst, fault, committed, issuedMemRef)
    ensures var t := s.(th := th, q := TriedQ(s.q, p, o), u := TriedU(s.u, p, o));
      t.q.inFlight != [] && FinishFlags(t, p.inst, completedInst, fault, committed, issuedMemRef) == Finish(s, p, th, o)
  {
    hide CompleteBarrier, ClearDests, Unstall;
  }

  lemma WaitForIs(sb: Scoreboard, bar: Barriers, inst: Inst)
    ensures var w := LastWriter(sb, inst.srcs);
      InstToWaitFor(sb, bar, inst) == if bar.last > w then bar.last else w
  {
  }

  lemma IssueUCount(cfg: Config, u: Units)
    ensures forall inst, k, w | 0 <= k < |u.fus| && u.fus[k].pipe != [] :: |IssueU(cfg, u, inst, k, w).fus| == |u.fus|
  {
  }

  /** The wire carries an interrupt or a halt exactly when one is due. */
  ghost predicate SignalsDue(s: State, e: CycleEnv, s': State) {
    && (s'.th.branch.reason == Interrupt <==>
          && s.drain == NotDraining && e.interrupted && e.handler.Some? && !e.accessesBefore
          && (s.q.completed == [] || Ends(s.q.completed[|s.q.completed| - 1])))
    && (s'.th.branch.reason == HaltFetch <==>
          || s.drain == DrainHaltFetch
          || (s.drain == DrainCurrentInst && !e.accessesAfter
              && (s'.q.completed == [] || Ends(s'.q.completed[|s'.q.completed| - 1]))))
  }

  lemma CycleSignals(cfg: Config, s: State, e: CycleEnv)
    requires FullInv(s) && ValidConfig(cfg) && (BubbleLine(e.line) || LineOK(s, e.line))
    ensures var s' := Evaluate(cfg, s, e);
      HistInv(s) && HaltInv(s) ==> DrainStep(s, s') && HistInv(s') && HaltInv(s') && SignalsDue(s, e, s')
  {
    hide FullInv, HistInv, HaltInv, DrainStep, Evaluate, LineOK, BubbleLine;
    if HistInv(s) && HaltInv(s) {
      EvaluateDrain(cfg, s, e);
      InterruptsExactly(cfg, s, e);
      HaltsExactly(cfg, s, e);
    }
  }

  lemma SameSuffix(log: seq<Effect>, a: seq<Effect>, b: seq<Effect>)
    requires log + a == log + b
    ensures a == b
  {
    assert a == (log + a)[|log|..] && b == (log + b)[|log|..];
  }

  lemma NotDiscarding(s: State)
    requires FullInv(s)
    ensures ExInv(s) && MayDiscard(s, false)
  {
  }
}
