/**
  For every ISA, predictor, degrade answer and latency, what Execute lets take
  effect is the sequential run of the program: each instruction is the one at
  the thread's PC, and the PC then moves to where that instruction sends it.
 */
module SequentialTheorems {
  import opened Options
  import opened MinorTypes
  import opened QueueLemmas
  import opened QueueInvariants
  import opened CommitSpec
  import opened CommitTheorems
  import opened IssueSpec
  import opened IssueTheorems
  import opened CycleSpec
  import opened CycleTheorems
  import opened Pipeline

  // ---------- The history of effects ----------

  /** The log leads from pc0 to pc, each instruction taken at the PC the step
      before it left. */
  ghost predicate Sequential(pc0: PC, log: seq<Effect>, pc: PC) {
    if log == [] then pc == pc0
    else
      var last := log[|log| - 1];
      last.next == pc && Sequential(pc0, log[..|log| - 1], if last.Took? then last.inst.pc else last.from)
  }

  lemma LogAppend(pc0: PC, log: seq<Effect>, pc: PC, x: Effect)
    requires Sequential(pc0, log, pc) && (if x.Took? then x.inst.pc else x.from) == pc
    ensures Sequential(pc0, log + [x], x.next)
  {
    assert (log + [x])[..|log|] == log;
  }

  // ---------- Paths ----------

  lemma {:induction false} OfStreamAppend(a: seq<Inst>, b: seq<Inst>, stream: SeqNum)
    ensures OfStream(a + b, stream) == OfStream(a, stream) + OfStream(b, stream)
  {
    if a == [] {
      assert a + b == b;
    } else {
      assert (a + b)[1..] == a[1..] + b;
      OfStreamAppend(a[1..], b, stream);
      Assoc(if a[0].stream == stream then [a[0]] else [], OfStream(a[1..], stream), OfStream(b, stream));
    }
  }

  lemma {:induction false} OfStreamNone(q: seq<Inst>, stream: SeqNum)
    requires forall i | i in q :: i.stream != stream
    ensures OfStream(q, stream) == []
  {
    if q != [] {
      OfStreamNone(q[1..], stream);
    }
  }

  lemma {:induction false} OfStreamAll(q: seq<Inst>, stream: SeqNum)
    requires forall i | i in q :: i.stream == stream
    ensures OfStream(q, stream) == q
  {
    if q != [] {
      OfStreamAll(q[1..], stream);
    }
  }

  lemma {:induction false} PathAppend(cfg: Config, pc: PC, a: seq<Inst>, b: seq<Inst>)
    requires Path(cfg, pc, a) && Path(cfg, End(cfg, pc, a), b)
    ensures Path(cfg, pc, a + b) && End(cfg, pc, a + b) == End(cfg, End(cfg, pc, a), b)
    decreases a
  {
    if a == [] {
      assert a + b == b;
    } else {
      assert (a + b)[1..] == a[1..] + b;
      PathAppend(cfg, Next(cfg, a[0]), a[1..], b);
    }
  }

  /** No instruction that Execute holds is of a stream later than `stream`. */
  ghost predicate NoneLater(s: State) {
    && (forall i | i in s.q.inFlight :: i.stream <= s.th.stream)
    && (forall i | i in Pending(s.inp) :: i.stream <= s.th.stream)
  }

  lemma CurrentGone(s: State, s': State)
    requires NoneLater(s) && s.th.stream < s'.th.stream && s'.inp == s.inp
    requires forall i | i in s'.q.inFlight :: i in s.q.inFlight
    ensures Current(s', false) == []
  {
    OfStreamNone(s'.q.inFlight + Pending(s'.inp), s'.th.stream);
  }

  lemma CurrentPop(s: State, s': State, dozing: bool)
    requires s.q.inFlight != [] && s'.q.inFlight == s.q.inFlight[1..]
    requires s'.th.stream == s.th.stream && s'.inp == s.inp
    ensures Current(s, dozing) ==
      (if s.q.inFlight[0].stream == s.th.stream then [s.q.inFlight[0]] else []) + Current(s', dozing)
  {
    TailOfConcat(s.q.inFlight, if dozing then [] else Pending(s.inp));
    hide Pending;
  }

  lemma TailOfConcat(a: seq<Inst>, b: seq<Inst>)
    requires a != []
    ensures (a + b)[1..] == a[1..] + b && (a + b)[0] == a[0]
  {
  }

  // ---------- The invariant ----------

  ghost predicate SigInv(s: State, dozing: bool, fr: Front, b: BranchData) {
    && IsStreamChange(b.reason)
    && b.newStream <= s.th.stream
    && (b.newStream == s.th.stream ==>
          && fr.stream < s.th.stream && !dozing && Current(s, dozing) == []
          && (b.reason == HaltFetch || b.target == s.th.pc))
  }

  ghost predicate SigsInv(s: State, dozing: bool, fr: Front, sigs: seq<BranchData>) {
    && (forall b | b in sigs :: SigInv(s, dozing, fr, b))
    && (forall i, j | 0 <= i < j < |sigs| :: sigs[i].newStream < sigs[j].newStream)
  }

  /** The front end is on the thread's path, or a signal under way will put it
      there; of a thread that dozes only what is in flight is on its path. */
  ghost predicate FrontInv(cfg: Config, s: State, dozing: bool, fr: Front) {
    && fr.stream <= s.th.stream
    && Path(cfg, s.th.pc, Current(s, dozing))
    && (fr.stream == s.th.stream && !dozing ==>
          if fr.state == Running then s.drain != DrainAllInsts ==> fr.pc == End(cfg, s.th.pc, Current(s, dozing))
          else Current(s, dozing) == [])
    && (s.th.suspended || s.drain == DrainAllInsts ==> dozing || Current(s, dozing) == [])
    && (dozing ==> s.th.suspended && s.drain != DrainAllInsts)
  }

  ghost predicate SeqInv(cfg: Config, pc0: PC, s: State, dozing: bool, fr: Front, sigs: seq<BranchData>) {
    && FrontInv(cfg, s, dozing, fr)
    && SigsInv(s, dozing, fr, sigs)
    && Sequential(pc0, s.th.log, s.th.pc)
  }

  // ---------- What trying an instruction does to the thread ----------

  lemma BranchFollows(cfg: Config, th: Thread, inst: Inst, fault: bool, e: IterEnv)
    ensures var th' := TryToBranch(cfg, th, inst, fault, e);
      th'.stream == th.stream ==> th'.pc == Next(cfg, inst)
  {
  }

  ghost predicate ThreadStep(cfg: Config, th: Thread, th': Thread, inst: Inst, interrupted: bool) {
    if th'.log == th.log then
      && th' == th.(panicked := th'.panicked)
      && (th'.panicked ==> th.panicked || (th.suspended && !interrupted && inst.stream == th.stream))
    else
      && th'.panicked == th.panicked
      && (th.suspended ==> th'.suspended)
      && OneChange(th, th')
      && (th'.stream == th.stream ==> th'.pc == Next(cfg, inst))
  }

  /** If no stream change is signalled the front end is already at the thread's
      new PC; and only a sleeping thread without an interrupt panics. */
  lemma TryInstThread(cfg: Config, th: Thread, last: SeqNum, p: Pick, discard: bool, e: IterEnv)
    requires !p.NoPick? && (p.inst.fault ==> !p.inst.memRef)
    ensures ThreadStep(cfg, th, TryInst(cfg, th, last, p, discard, e).0, p.inst, e.interrupted)
  {
    if p.inst.stream == th.stream && !discard {
      if p.Response? {
        BranchThread(cfg, th, p.inst, e.fault, e);
      } else {
        CommitInstThread(cfg, th, p.inst, p.Early?, e);
        hide CommitInst, ThreadStep;
      }
    }
  }

  lemma CommitInstThread(cfg: Config, th: Thread, inst: Inst, early: bool, e: IterEnv)
    requires (inst.fault ==> !inst.memRef) && inst.stream == th.stream
    ensures ThreadStep(cfg, th, CommitInst(cfg, th, inst, early, e).0, inst, e.interrupted)
    ensures ThreadStep(cfg, th, th, inst, e.interrupted)
  {
    BranchFollows(cfg, th, inst, e.fault, e);
    BranchFollows(cfg, th, inst, true, e);
  }

  lemma BranchThread(cfg: Config, th: Thread, inst: Inst, fault: bool, e: IterEnv)
    ensures ThreadStep(cfg, th, TryToBranch(cfg, th, inst, fault, e), inst, e.interrupted)
  {
  }

  /** Exactly then does an instruction that puts its thread to sleep change the
      stream. */
  lemma ResteersExactly(cfg: Config, th: Thread, last: SeqNum, p: Pick, discard: bool, e: IterEnv)
    requires !p.NoPick? && (p.inst.fault ==> !p.inst.memRef) && e.suspends
    requires TryInst(cfg, th, last, p, discard, e).0.log != th.log
    ensures TryInst(cfg, th, last, p, discard, e).0.suspended
    ensures TryInst(cfg, th, last, p, discard, e).0.stream != th.stream <==> Resteers(cfg, th, p.inst, p.Response?, e)
  {
  }

  // ---------- Preservation, by what happens to the thread ----------

  lemma SeqQuiet(cfg: Config, pc0: PC, s: State, s': State, dozing: bool, fr: Front, sigs: seq<BranchData>)
    requires SeqInv(cfg, pc0, s, dozing, fr, sigs)
    requires Current(s', dozing) == Current(s, dozing) && s'.drain == s.drain
    requires s'.th == s.th.(panicked := s'.th.panicked, branch := s'.th.branch)
    ensures SeqInv(cfg, pc0, s', dozing, fr, sigs)
  {
    hide Path, End, Current, Sequential;
    forall b | b in sigs ensures SigInv(s', dozing, fr, b) { assert SigInv(s, dozing, fr, b); }
  }

  lemma SeqFollow(cfg: Config, pc0: PC, s: State, s': State, dozing: bool, fr: Front, sigs: seq<BranchData>, i: Inst)
    requires SeqInv(cfg, pc0, s, dozing, fr, sigs)
    requires Current(s, dozing) == [i] + Current(s', dozing) && s'.drain == s.drain
    requires s'.th.stream == s.th.stream && s'.th.pc == Next(cfg, i) && s'.th.suspended == s.th.suspended
    requires s'.th.log == s.th.log + [Took(i, s'.th.pc)]
    ensures SeqInv(cfg, pc0, s', dozing, fr, sigs)
  {
    assert Current(s, dozing)[1..] == Current(s', dozing) && Current(s, dozing)[0] == i;
    assert Path(cfg, s'.th.pc, Current(s', dozing));
    assert End(cfg, s'.th.pc, Current(s', dozing)) == End(cfg, s.th.pc, Current(s, dozing));
    LogAppend(pc0, s.th.log, s.th.pc, Took(i, s'.th.pc));
    hide Path, End, Current, Sequential;
    forall b | b in sigs ensures SigInv(s', dozing, fr, b) { assert SigInv(s, dozing, fr, b); }
  }

  /** The stream moves on: the old signals are out of date. */
  lemma OldSignals(s: State, s': State, dozing: bool, fr: Front, sigs: seq<BranchData>)
    requires SigsInv(s, dozing, fr, sigs) && s.th.stream < s'.th.stream
    ensures SigsInv(s', false, fr, sigs)
    ensures forall b | b in sigs :: b.newStream < s'.th.stream
  {
    forall b | b in sigs ensures SigInv(s', false, fr, b) { assert SigInv(s, dozing, fr, b); }
  }

  lemma SigsAppend(s: State, dozing: bool, fr: Front, sigs: seq<BranchData>, b: BranchData)
    requires SigsInv(s, dozing, fr, sigs) && SigInv(s, dozing, fr, b)
    requires forall x | x in sigs :: x.newStream < b.newStream
    ensures SigsInv(s, dozing, fr, sigs + [b])
  {
    var all := sigs + [b];
    forall i, j | 0 <= i < j < |all| ensures all[i].newStream < all[j].newStream {
      assert i < |sigs| && sigs[i] in sigs;
    }
  }

  /** A change of stream, signalled (`sent`) or dropped by a drain in progress. */
  lemma SeqChange(cfg: Config, pc0: PC, s: State, s': State, dozing: bool, fr: Front, sigs: seq<BranchData>, sent: bool)
    requires SeqInv(cfg, pc0, s, dozing, fr, sigs)
    requires s.th.stream < s'.th.stream && Current(s', false) == []
    requires Sequential(pc0, s'.th.log, s'.th.pc)
    requires sent ==> SigInv(s', false, fr, s'.th.branch) && s'.th.branch.newStream == s'.th.stream
    ensures SeqInv(cfg, pc0, s', false, fr, if sent then sigs + [s'.th.branch] else sigs)
  {
    hide Current, Sequential;
    OldSignals(s, s', dozing, fr, sigs);
    if sent {
      SigsAppend(s', false, fr, sigs, s'.th.branch);
    }
  }

  // ---------- The commit loop ----------

  /** The signals under way once this cycle's wire is added. */
  ghost function With(fr: Front, s: State): seq<BranchData> { fr.signals + Wire(s.th.branch) }

  lemma NoWire(fr: Front, s: State)
    requires s.th.branch == BUBBLE
    ensures With(fr, s) == fr.signals
  {
  }

  lemma ExInvNoneLater(s: State)
    requires FullInv(s)
    ensures NoneLater(s)
  {
  }

  lemma NewSignal(s: State, fr: Front)
    requires IsStreamChange(s.th.branch.reason) && s.th.branch.newStream == s.th.stream
    requires fr.stream < s.th.stream && Current(s, false) == [] && s.th.branch.target == s.th.pc
    ensures SigInv(s, false, fr, s.th.branch)
  {
  }

  lemma PCEventSeq(cfg: Config, pc0: PC, s: State, dozing: bool, fr: Front, target: PC)
    requires FullInv(s) && SeqInv(cfg, pc0, s, dozing, fr, With(fr, s)) && !IsStreamChange(s.th.branch.reason)
    ensures var s' := s.(th := PCEvent(s.th, target)); SeqInv(cfg, pc0, s', false, fr, With(fr, s'))
  {
    hide FullInv, Current, Sequential, SeqInv, SigInv, NoneLater, Path;
    var s' := s.(th := PCEvent(s.th, target));
    assert With(fr, s) == fr.signals;
    SeqFront(cfg, pc0, s, dozing, fr, fr.signals);
    ExInvNoneLater(s);
    LogAppend(pc0, s.th.log, s.th.pc, Redirect(s.th.pc, target));
    CurrentGone(s, s');
    NewSignal(s', fr);
    SeqChange(cfg, pc0, s, s', dozing, fr, fr.signals, true);
  }

  lemma SeqFront(cfg: Config, pc0: PC, s: State, dozing: bool, fr: Front, sigs: seq<BranchData>)
    requires SeqInv(cfg, pc0, s, dozing, fr, sigs)
    ensures fr.stream <= s.th.stream && Sequential(pc0, s.th.log, s.th.pc)
    ensures Path(cfg, s.th.pc, Current(s, dozing)) && (s.th.suspended ==> dozing || Current(s, dozing) == [])
    ensures dozing ==> s.th.suspended && s.drain != DrainAllInsts
  {
  }

  /** An instruction puts the thread to sleep: until the stream changes, what is
      yet to be issued is lost to it. */
  lemma FallsAsleep(cfg: Config, pc0: PC, s: State, fr: Front, sigs: seq<BranchData>)
    requires SeqInv(cfg, pc0, s, false, fr, sigs) && Current(s, false) != []
    ensures SeqInv(cfg, pc0, s.(th := s.th.(suspended := true)), true, fr, sigs)
  {
    var s' := s.(th := s.th.(suspended := true));
    OfStreamAppend(s.q.inFlight, Pending(s.inp), s.th.stream);
    assert s.q.inFlight + [] == s.q.inFlight;
    PathPrefix(cfg, s.th.pc, Current(s', true), OfStream(Pending(s.inp), s.th.stream));
    hide Path, End, Current, Sequential;
    forall b | b in sigs ensures SigInv(s', true, fr, b) { assert SigInv(s, false, fr, b); }
  }

  lemma {:induction false} PathPrefix(cfg: Config, pc: PC, a: seq<Inst>, b: seq<Inst>)
    requires Path(cfg, pc, a + b)
    ensures Path(cfg, pc, a)
    decreases a
  {
    if a != [] {
      assert (a + b)[1..] == a[1..] + b;
      PathPrefix(cfg, Next(cfg, a[0]), a[1..], b);
    }
  }

  /** The head took effect: the thread is where the front end went, or a signal
      carries its new PC. */
  lemma TookSeq(cfg: Config, pc0: PC, s: State, s': State, dozing: bool, fr: Front, interrupted: bool)
    requires FullInv(s) && SeqInv(cfg, pc0, s, dozing, fr, With(fr, s)) && !IsStreamChange(s.th.branch.reason)
    requires s.q.inFlight != [] && s.q.inFlight[0].stream == s.th.stream && s'.q.inFlight == s.q.inFlight[1..]
    requires s'.inp == s.inp && s'.drain == s.drain
    requires s'.th.log == s.th.log + [Took(s.q.inFlight[0], s'.th.pc)]
    requires ThreadStep(cfg, s.th, s'.th, s.q.inFlight[0], interrupted)
    ensures SeqInv(cfg, pc0, s', DozesOn(dozing, s.th, s'.th), fr, With(fr, s'))
  {
    var i := s.q.inFlight[0];
    assert With(fr, s) == fr.signals;
    SeqFront(cfg, pc0, s, dozing, fr, fr.signals);
    CurrentHead(s, dozing);
    LogAppend(pc0, s.th.log, s.th.pc, Took(i, s'.th.pc));
    if s'.th.stream == s.th.stream {
      var dozing' := DozesOn(dozing, s.th, s'.th);
      var s1 := s.(th := s.th.(suspended := s'.th.suspended));
      if dozing' != dozing { FallsAsleep(cfg, pc0, s, fr, fr.signals); }
      CurrentPop(s1, s', dozing');
      assert With(fr, s') == fr.signals;
      hide FullInv, Current, Sequential, SeqInv;
      SeqFollow(cfg, pc0, s1, s', dozing', fr, fr.signals, i);
    } else {
      ExInvNoneLater(s);
      CurrentGone(s, s');
      NewSignal(s', fr);
      hide FullInv, Current, Sequential, SeqInv;
      SeqChange(cfg, pc0, s, s', dozing, fr, fr.signals, true);
    }
  }

  lemma CurrentHead(s: State, dozing: bool)
    requires s.q.inFlight != [] && s.q.inFlight[0].stream == s.th.stream
    ensures Current(s, dozing) != [] && Current(s, dozing)[0] == s.q.inFlight[0]
  {
    assert (s.q.inFlight + if dozing then [] else Pending(s.inp))[0] == s.q.inFlight[0];
  }

  lemma QuietSeq(cfg: Config, pc0: PC, s: State, s': State, dozing: bool, fr: Front, inst: Inst, interrupted: bool)
    requires SeqInv(cfg, pc0, s, dozing, fr, With(fr, s))
    requires inst in s.q.inFlight && s'.th.log == s.th.log && ThreadStep(cfg, s.th, s'.th, inst, interrupted)
    requires s'.inp == s.inp && s'.drain == s.drain
    requires s'.q.inFlight == s.q.inFlight
      || (s.q.inFlight != [] && s.q.inFlight[0].stream != s.th.stream && s'.q.inFlight == s.q.inFlight[1..])
    ensures SeqInv(cfg, pc0, s', dozing, fr, With(fr, s')) && DozesOn(dozing, s.th, s'.th) == dozing
  {
    SeqFront(cfg, pc0, s, dozing, fr, With(fr, s));
    if s'.q.inFlight != s.q.inFlight {
      CurrentPop(s, s', dozing);
    }
    assert Current(s', dozing) == Current(s, dozing);
    hide Current, Sequential, SeqInv;
    SeqQuiet(cfg, pc0, s, s', dozing, fr, With(fr, s));
  }

  /** Every commit iteration keeps the front end on the thread's path. */
  lemma IterSeq(cfg: Config, pc0: PC, s: State, dozing: bool, fr: Front, c: Ctl, onlyMicroops: bool, discard: bool,
                e: IterEnv)
    requires FullInv(s) && SeqInv(cfg, pc0, s, dozing, fr, With(fr, s)) && MayDiscard(s, discard)
    requires s.q.inFlight != [] && !IsStreamChange(s.th.branch.reason)
    ensures var s' := CommitIter(cfg, s, c, onlyMicroops, discard, e).0;
      && SeqInv(cfg, pc0, s', DozesOn(dozing, s.th, s'.th), fr, With(fr, s'))
      && (s.th.suspended ==> s'.th.suspended)
  {
    hide SeqInv, SigsInv, MayDiscard, ExInv, InputInv;
    SeqFront(cfg, pc0, s, dozing, fr, With(fr, s));
    var s' := CommitIter(cfg, s, c, onlyMicroops, discard, e).0;
    if HasPCEvent(s, e) {
      PCEventSeq(cfg, pc0, s, dozing, fr, e.pcEvent.value);
    } else {
      var p := PickInst(cfg, s, c, onlyMicroops, e);
      if !p.NoPick? {
        IterCase(cfg, s, c, onlyMicroops, discard, e);
        PickedWho(s, p, discard, TryInst(cfg, s.th, s.bar.last, p, discard, e).1);
        TryInstThread(cfg, s.th, s.bar.last, p, discard, e);
        IterEffects(cfg, s, c, onlyMicroops, discard, e);
        IterShrinks(cfg, s, c, onlyMicroops, discard, e);
        assert s'.th == TryInst(cfg, s.th, s.bar.last, p, discard, e).0;
        hide CommitIter, TryInst, Considers, PickInst;
        if s'.th.log == s.th.log {
          QuietSeq(cfg, pc0, s, s', dozing, fr, p.inst, e.interrupted);
        } else {
          TookSame(cfg, s, s', p, discard, e);
          TookSeq(cfg, pc0, s, s', dozing, fr, e.interrupted);
        }
      }
    }
  }

  lemma PickedWho(s: State, p: Pick, discard: bool, o: Outcome)
    requires Considers(s, p, discard, o)
    ensures p.inst in s.q.inFlight && (p.inst.fault ==> !p.inst.memRef)
  {
  }

  lemma TookSame(cfg: Config, s: State, s': State, p: Pick, discard: bool, e: IterEnv)
    requires !p.NoPick? && s.q.inFlight != [] && (p.inst.fault ==> !p.inst.memRef)
    requires s'.th == TryInst(cfg, s.th, s.bar.last, p, discard, e).0
    requires s'.th.log != s.th.log
    requires s'.th.log == s.th.log + [Took(s.q.inFlight[0], s'.th.pc)]
    ensures p.inst == s.q.inFlight[0]
  {
    TryInstEffects(cfg, s.th, s.bar.last, p, discard, e);
    var n := |s.th.log|;
    assert s'.th.log[n] == Took(p.inst, s'.th.pc);
  }

  lemma LoopFull(cfg: Config, s0: State, s: State, c: Ctl, discard: bool)
    requires FullInv(s0) && LoopInv(cfg, s0, s, c, discard)
    ensures FullInv(s) && MayDiscard(s, discard)
  {
    hide ExInv, LinesInv, Pending, WellFormed, MayDiscard;
  }

  lemma LoopSameStream(cfg: Config, s0: State, s: State, c: Ctl, discard: bool)
    requires LoopInv(cfg, s0, s, c, discard) && !IsStreamChange(s.th.branch.reason)
    ensures s.th.stream == s0.th.stream
  {
    hide ExInv, MayDiscard;
  }

  lemma DozesThrough(dozing: bool, th: Thread, th1: Thread, th2: Thread)
    requires th1.stream == th.stream && (th.suspended ==> th1.suspended) && (dozing ==> th.suspended)
    ensures DozesOn(DozesOn(dozing, th, th1), th1, th2) == DozesOn(dozing, th, th2)
    ensures DozesOn(dozing, th, th) == dozing
  {
  }

  /** What holds in state s of a commit call that began in s0, dozing or not. */
  ghost predicate SeqSince(cfg: Config, pc0: PC, s0: State, s: State, dozing: bool, fr: Front) {
    && SeqInv(cfg, pc0, s, DozesOn(dozing, s0.th, s.th), fr, With(fr, s))
    && (dozing ==> s0.th.suspended) && (s0.th.suspended ==> s.th.suspended)
  }

  lemma StepSeq(cfg: Config, pc0: PC, s0: State, s: State, dozing: bool, fr: Front, c: Ctl, onlyMicroops: bool,
                discard: bool, e: IterEnv)
    requires FullInv(s0) && LoopInv(cfg, s0, s, c, discard) && CommitGuard(cfg, s, c)
    requires SeqSince(cfg, pc0, s0, s, dozing, fr)
    ensures SeqSince(cfg, pc0, s0, CommitIter(cfg, s, c, onlyMicroops, discard, e).0, dozing, fr)
  {
    hide SeqInv, LoopInv, MayDiscard, CommitIter, CommitGuard, With, ExInv, InputInv, DozesOn;
    GuardFacts(cfg, s, c);
    LoopFull(cfg, s0, s, c, discard);
    LoopSameStream(cfg, s0, s, c, discard);
    IterSeq(cfg, pc0, s, DozesOn(dozing, s0.th, s.th), fr, c, onlyMicroops, discard, e);
    DozesThrough(dozing, s0.th, s.th, CommitIter(cfg, s, c, onlyMicroops, discard, e).0.th);
  }

  lemma StartSeq(cfg: Config, pc0: PC, s: State, dozing: bool, fr: Front)
    requires SeqInv(cfg, pc0, s, dozing, fr, fr.signals) && s.th.branch == BUBBLE
    ensures SeqSince(cfg, pc0, s, s, dozing, fr)
  {
    NoWire(fr, s);
    SeqFront(cfg, pc0, s, dozing, fr, fr.signals);
    hide SeqInv;
  }

  lemma {:induction false} CommitUpToSeq(cfg: Config, pc0: PC, s: State, dozing: bool, fr: Front, onlyMicroops: bool,
                                         discard: bool, env: nat -> IterEnv, k: nat)
    requires FullInv(s) && MayDiscard(s, discard) && s.th.branch == BUBBLE
    requires SeqInv(cfg, pc0, s, dozing, fr, fr.signals)
    ensures SeqSince(cfg, pc0, s, CommitUpTo(cfg, s, onlyMicroops, discard, env, k).0, dozing, fr)
  {
    hide SeqInv, SeqSince, LoopInv, MayDiscard, CommitIter, CommitGuard, ExInv, InputInv, Work;
    if k == 0 {
      StartSeq(cfg, pc0, s, dozing, fr);
    } else {
      CommitUpToSeq(cfg, pc0, s, dozing, fr, onlyMicroops, discard, env, k - 1);
      CommitUpToKeeps(cfg, s, onlyMicroops, discard, env, k - 1);
      var (s1, c1) := CommitUpTo(cfg, s, onlyMicroops, discard, env, k - 1);
      if CommitGuard(cfg, s1, c1) {
        StepSeq(cfg, pc0, s, s1, dozing, fr, c1, onlyMicroops, discard, env(k - 1));
      }
    }
  }

  // ---------- The rest of a cycle ----------

  /** A dropped or fresh wire changes nothing the front end can see. */
  lemma DropBranchSeq(cfg: Config, pc0: PC, s: State, dozing: bool, fr: Front, sigs: seq<BranchData>)
    requires SeqInv(cfg, pc0, s, dozing, fr, sigs)
    ensures SeqInv(cfg, pc0, DropBranch(s), dozing, fr, sigs)
  {
    assert Current(DropBranch(s), dozing) == Current(s, dozing);
    SeqQuiet(cfg, pc0, s, DropBranch(s), dozing, fr, sigs);
  }

  /** While the current instruction is drained, a signal may be dropped. */
  lemma DropSignalSeq(cfg: Config, pc0: PC, s: State, dozing: bool, fr: Front, drain: DrainState)
    requires SeqInv(cfg, pc0, s, dozing, fr, With(fr, s)) && s.drain == DrainCurrentInst
    requires drain == DrainCurrentInst || drain == DrainHaltFetch
    ensures SeqInv(cfg, pc0, DropBranch(s.(drain := drain)), dozing, fr, fr.signals)
  {
    var s' := DropBranch(s.(drain := drain));
    assert Current(s', dozing) == Current(s, dozing);
    hide Path, End, Current, Sequential;
    forall b | b in fr.signals ensures SigInv(s', dozing, fr, b) {
      assert b in With(fr, s);
      assert SigInv(s, dozing, fr, b);
    }
    forall i, j | 0 <= i < j < |fr.signals| ensures fr.signals[i].newStream < fr.signals[j].newStream {
      assert With(fr, s)[i] == fr.signals[i] && With(fr, s)[j] == fr.signals[j];
    }
  }

  lemma HaltSeq(cfg: Config, pc0: PC, s: State, dozing: bool, fr: Front)
    requires FullInv(s) && SeqInv(cfg, pc0, s, dozing, fr, fr.signals) && s.drain == DrainHaltFetch
    ensures SeqInv(cfg, pc0, HaltPhase(s), false, fr, With(fr, HaltPhase(s)))
  {
    hide FullInv, Current, Sequential, SeqInv, SigInv, NoneLater, Path;
    var s' := HaltPhase(s);
    ExInvNoneLater(s);
    SeqFront(cfg, pc0, s, dozing, fr, fr.signals);
    CurrentGone(s, s');
    HaltSignal(s, fr);
    SeqChange(cfg, pc0, s, s', dozing, fr, fr.signals, true);
  }

  lemma HaltSignal(s: State, fr: Front)
    requires fr.stream <= s.th.stream && s.drain == DrainHaltFetch && Current(HaltPhase(s), false) == []
    ensures SigInv(HaltPhase(s), false, fr, HaltPhase(s).th.branch)
  {
    hide Current;
  }

  lemma InterruptSeq(cfg: Config, pc0: PC, s: State, dozing: bool, fr: Front, handler: PC)
    requires FullInv(s) && SeqInv(cfg, pc0, s, dozing, fr, fr.signals) && s.drain == NotDraining
    ensures var s' := s.(th := TakeInterrupt(s.th, handler)); SeqInv(cfg, pc0, s', false, fr, With(fr, s'))
  {
    hide FullInv, Current, Sequential, SeqInv, SigInv, NoneLater, Path;
    var s' := s.(th := TakeInterrupt(s.th, handler));
    SeqFront(cfg, pc0, s, dozing, fr, fr.signals);
    ExInvNoneLater(s);
    LogAppend(pc0, s.th.log, s.th.pc, Redirect(s.th.pc, handler));
    CurrentGone(s, s');
    NewSignal(s', fr);
    SeqChange(cfg, pc0, s, s', dozing, fr, fr.signals, true);
  }

  lemma DumpSeq(cfg: Config, pc0: PC, s: State, dozing: bool, fr: Front)
    requires FullInv(s) && SeqInv(cfg, pc0, s, dozing, fr, fr.signals) && s.drain == DrainAllInsts
    ensures SeqInv(cfg, pc0, s.(inp := DumpInput(s.inp)), dozing, fr, fr.signals) && !dozing
  {
    SeqFront(cfg, pc0, s, dozing, fr, fr.signals);
    var s' := s.(inp := DumpInput(s.inp));
    DumpKeeps(s);
    OfStreamNone(s.q.inFlight + Pending(s.inp), s.th.stream);
    OfStreamNone(s'.q.inFlight + Pending(s'.inp), s.th.stream);
    assert Current(s', dozing) == Current(s, dozing);
    hide FullInv, Current, Sequential, SeqInv;
    SeqQuiet(cfg, pc0, s, s', dozing, fr, fr.signals);
  }

  lemma CommitSeq(cfg: Config, pc0: PC, s: State, dozing: bool, fr: Front, onlyMicroops: bool, discard: bool,
                  env: nat -> IterEnv)
    requires FullInv(s) && s.th.branch == BUBBLE && (discard ==> s.drain == DrainAllInsts)
    requires SeqInv(cfg, pc0, s, dozing, fr, fr.signals)
    ensures var s' := Commit(cfg, s, onlyMicroops, discard, env).0;
      && SeqInv(cfg, pc0, s', DozesOn(dozing, s.th, s'.th), fr, With(fr, s')) && FullInv(s')
      && s'.drain == s.drain && s.th.stream <= s'.th.stream
  {
    if discard { DrainedMayDiscard(s); }
    CommitUpToSeq(cfg, pc0, s, dozing, fr, onlyMicroops, discard, env, CommitBound(s));
    CommitKeeps(cfg, s, onlyMicroops, discard, env);
  }

  lemma CommitPhaseSeq(cfg: Config, pc0: PC, s: State, dozing: bool, fr: Front, e: CycleEnv)
    requires FullInv(s) && s.th.branch == BUBBLE && SeqInv(cfg, pc0, s, dozing, fr, fr.signals)
    ensures var s' := HaltPhase(CommitPhase(cfg, s, e));
      SeqInv(cfg, pc0, s', DozesOn(dozing, s.th, s'.th), fr, With(fr, s')) && FullInv(s')
  {
    hide FullInv, SeqInv, Commit;
    CommitPhaseKeeps(cfg, s, e);
    HaltPhaseKeeps(CommitPhase(cfg, s, e));
    match s.drain
    case NotDraining =>
      CommitSeq(cfg, pc0, s, dozing, fr, e.interrupted, false, e.commit);
    case DrainCurrentInst =>
      CommitSeq(cfg, pc0, s, dozing, fr, true, false, e.commit);
      var s1 := Commit(cfg, s, true, false, e.commit).0;
      var dozing1 := DozesOn(dozing, s.th, s1.th);
      if InbetweenInsts(s1, e.accessesAfter) {
        DropSignalSeq(cfg, pc0, s1, dozing1, fr, DrainHaltFetch);
        HaltSeq(cfg, pc0, CommitPhase(cfg, s, e), dozing1, fr);
      } else {
        DropSignalSeq(cfg, pc0, s1, dozing1, fr, DrainCurrentInst);
        NoWire(fr, CommitPhase(cfg, s, e));
      }
    case DrainHaltFetch =>
      HaltSeq(cfg, pc0, s, dozing, fr);
    case DrainAllInsts =>
      DumpSeq(cfg, pc0, s, dozing, fr);
      DumpedKeeps(s);
      CommitSeq(cfg, pc0, s.(inp := DumpInput(s.inp)), dozing, fr, false, true, e.commit);
  }

  // ---------- Issue and arrival ----------

  /** What issue takes from a waking thread's slots is what is current there. */
  lemma {:induction false} TakenIsCurrent(th: Thread, slots: seq<Option<Inst>>)
    ensures Taken(th, slots) == if th.suspended then [] else OfStream(Reals(slots), th.stream)
    ensures OfStream(Taken(th, slots), th.stream) == Taken(th, slots)
  {
    if slots != [] {
      var init, x := slots[..|slots| - 1], slots[|slots| - 1];
      assert slots == init + [x];
      TakenIsCurrent(th, init);
      RealsAppend(init, [x]);
      RealsCons(x, []);
      assert [x] + [] == [x];
      OfStreamAppend(Reals(init), Reals([x]), th.stream);
      var extra := if Accepted(th, x) then [x.value] else [];
      assert OfStream(extra, th.stream) == extra;
      OfStreamAppend(Taken(th, init), extra, th.stream);
    }
  }

  lemma IssueCurrent(cfg: Config, s: State, s': State, dozing: bool, c: IssueCtl, n: nat)
    requires IssueInv(cfg, s, s', c, n) && (dozing ==> s.th.suspended)
    requires s.th.suspended ==> dozing || Current(s, dozing) == []
    ensures Current(s', dozing) == Current(s, dozing)
  {
    var slots := Remaining(s.inp);
    if dozing {
      TakenIsCurrent(s.th, slots[..n]);
      assert s.q.inFlight + [] == s.q.inFlight;
    } else {
      TakenInOrder(s.th, s.q.inFlight, slots, n);
    }
  }

  lemma TakenInOrder(th: Thread, fl: seq<Inst>, slots: seq<Option<Inst>>, n: nat)
    requires n <= |slots| && (th.suspended ==> OfStream(fl + Reals(slots), th.stream) == [])
    ensures OfStream((fl + Taken(th, slots[..n])) + Reals(slots[n..]), th.stream) ==
      OfStream(fl + Reals(slots), th.stream)
  {
    var a, b, stream := slots[..n], slots[n..], th.stream;
    assert slots == a + b;
    RealsAppend(a, b);
    TakenIsCurrent(th, a);
    OfStreamAppend(fl, Reals(slots), stream);
    OfStreamAppend(Reals(a), Reals(b), stream);
    OfStreamAppend(fl + Taken(th, a), Reals(b), stream);
    OfStreamAppend(fl, Taken(th, a), stream);
    Assoc(OfStream(fl, stream), OfStream(Taken(th, a), stream), OfStream(Reals(b), stream));
  }

  lemma IssueSeq(cfg: Config, pc0: PC, s: State, dozing: bool, fr: Front, env: nat -> IssueEnv)
    requires FullInv(s) && ValidConfig(cfg) && SeqInv(cfg, pc0, s, dozing, fr, With(fr, s))
    ensures var s' := Issue(cfg, s, env).0;
      SeqInv(cfg, pc0, s', dozing, fr, With(fr, s')) && FullInv(s') && s'.th == s.th
  {
    var (s', c') := Issue(cfg, s, env);
    var n := IssueLoopEnds(cfg, s, env);
    SeqFront(cfg, pc0, s, dozing, fr, With(fr, s));
    IssueCurrent(cfg, s, s', dozing, c', n);
    IssueSameThread(cfg, s, env, n);
    hide FullInv, SeqInv, Issue, Current, IssueInv;
    SeqQuiet(cfg, pc0, s, s', dozing, fr, With(fr, s));
  }

  lemma ArriveFront(cfg: Config, s: State, dozing: bool, fr: Front, line: seq<Option<Inst>>)
    requires FullInv(s) && FrontInv(cfg, s, dozing, fr) && Delivers(cfg, System(s, fr), line) && !BubbleLine(line)
    requires s.drain != DrainAllInsts && Quiet(System(s, fr), dozing, line)
    ensures FrontInv(cfg, s.(inp := Arrive(s.inp, line)), dozing, Deliver(cfg, fr, line))
    ensures fr.stream < s.th.stream ==> Current(s.(inp := Arrive(s.inp, line)), dozing) == Current(s, dozing)
  {
    var news := Reals(line);
    if dozing {
      assert Current(s.(inp := Arrive(s.inp, line)), dozing) == Current(s, dozing);
      return;
    }
    ArriveCurrent(s, line);
    hide FullInv, Current, Reals, Increasing, Pending, Arrive;
    if fr.stream == s.th.stream {
      OfStreamAll(news, s.th.stream);
      PathAppend(cfg, s.th.pc, Current(s, dozing), news);
    } else {
      OfStreamNone(news, s.th.stream);
      assert Current(s, dozing) + [] == Current(s, dozing);
    }
    hide Path, End, OfStream;
  }

  /** What the front end delivers extends the thread's path, if it is current and
      not dropped at once. */
  lemma ArriveSeq(cfg: Config, pc0: PC, s: State, dozing: bool, fr: Front, line: seq<Option<Inst>>)
    requires FullInv(s) && SeqInv(cfg, pc0, s, dozing, fr, fr.signals) && Delivers(cfg, System(s, fr), line)
    requires Quiet(System(s, fr), dozing, line)
    ensures SeqInv(cfg, pc0, Dumped(s.(inp := Arrive(s.inp, line))), dozing, Deliver(cfg, fr, line), fr.signals)
  {
    var s', fr' := Dumped(s.(inp := Arrive(s.inp, line))), Deliver(cfg, fr, line);
    if s.drain == DrainAllInsts {
      SeqFront(cfg, pc0, s, dozing, fr, fr.signals);
      PossibleLine(cfg, System(s, fr), line);
      ArriveDumped(s, line);
    } else if !BubbleLine(line) {
      ArriveFront(cfg, s, dozing, fr, line);
    }
    hide FullInv, Delivers, Path, End, Current, Sequential, Reals, Arrive, BubbleLine, DumpInput;
    ArriveSignals(s, s', dozing, fr, fr');
    hide SigsInv;
  }

  lemma ArriveDumped(s: State, line: seq<Option<Inst>>)
    requires FullInv(s) && s.drain == DrainAllInsts && (BubbleLine(line) || LineOK(s, line))
    ensures Current(s.(inp := DumpInput(Arrive(s.inp, line))), false) == []
  {
    var inp' := DumpInput(Arrive(s.inp, line));
    NoneCurrent(s);
    ArriveKeeps(s, line);
    hide FullInv, LineOK, Pending;
    NothingPending(Arrive(s.inp, line));
    assert s.q.inFlight + [] == s.q.inFlight;
    OfStreamNone(s.q.inFlight, s.th.stream);
  }

  lemma NoneCurrent(s: State)
    requires FullInv(s) && s.drain == DrainAllInsts
    ensures InputInv(s) && forall i | i in s.q.inFlight :: i.stream != s.th.stream
  {
  }

  lemma NothingPending(inp: Input)
    requires LinesInv(inp)
    ensures Pending(DumpInput(inp)) == []
  {
    DumpIsEmpty(inp);
  }

  lemma ArriveSignals(s: State, s': State, dozing: bool, fr: Front, fr': Front)
    requires SigsInv(s, dozing, fr, fr.signals) && s' == s.(inp := s'.inp) && fr' == fr.(pc := fr'.pc)
    requires fr.stream < s.th.stream ==> Current(s', dozing) == Current(s, dozing)
    ensures SigsInv(s', dozing, fr', fr.signals)
  {
    hide Current;
    forall b | b in fr.signals ensures SigInv(s', dozing, fr', b) { assert SigInv(s, dozing, fr, b); }
  }

  lemma ArriveCurrent(s: State, line: seq<Option<Inst>>)
    requires FullInv(s) && !BubbleLine(line)
    ensures Current(s.(inp := Arrive(s.inp, line)), false) == Current(s, false) + OfStream(Reals(line), s.th.stream)
  {
    ArriveRemaining(s.inp, line);
    RealsAppend(Remaining(s.inp), line);
    Assoc(s.q.inFlight, Pending(s.inp), Reals(line));
    OfStreamAppend(s.q.inFlight + Pending(s.inp), Reals(line), s.th.stream);
  }

  // ---------- The system ----------

  ghost predicate SysInv(cfg: Config, pc0: PC, sys: System, dozing: bool) {
    FullInv(sys.ex) && SeqInv(cfg, pc0, sys.ex, dozing, sys.fr, sys.fr.signals)
  }

  lemma SeqSignals(cfg: Config, pc0: PC, s: State, dozing: bool, fr: Front, fr': Front, sigs: seq<BranchData>)
    requires SeqInv(cfg, pc0, s, dozing, fr, sigs) && fr' == fr.(signals := fr'.signals)
    ensures SeqInv(cfg, pc0, s, dozing, fr', sigs)
  {
    hide Path, End, Current, Sequential;
    forall b | b in sigs ensures SigInv(s, dozing, fr', b) { assert SigInv(s, dozing, fr, b); }
  }

  lemma BeginSeq(cfg: Config, pc0: PC, s: State, dozing: bool, fr: Front, e: CycleEnv)
    requires FullInv(s) && SeqInv(cfg, pc0, s, dozing, fr, fr.signals) && Delivers(cfg, System(s, fr), e.line)
    requires Quiet(System(s, fr), dozing, e.line)
    ensures var s' := Dumped(Begin(s, e));
      FullInv(s') && s'.th.branch == BUBBLE && SeqInv(cfg, pc0, s', dozing, Deliver(cfg, fr, e.line), fr.signals)
    ensures BubbleLine(e.line) || LineOK(s, e.line)
  {
    var fr' := Deliver(cfg, fr, e.line);
    SeqFront(cfg, pc0, s, dozing, fr, fr.signals);
    PossibleLine(cfg, System(s, fr), e.line);
    ArriveSeq(cfg, pc0, s, dozing, fr, e.line);
    BeginKeeps(s, e);
    var s1, s' := Dumped(s.(inp := Arrive(s.inp, e.line))), Dumped(Begin(s, e));
    DropBranchSeq(cfg, pc0, s1, dozing, fr', fr.signals);
    assert s'.inp == s1.inp && s'.q == s1.q;
    assert Current(s', dozing) == Current(DropBranch(s1), dozing);
    hide FullInv, SeqInv, Current, StepLSQ, Arrive, LineOK, BubbleLine, Delivers, DumpInput;
    SeqQuiet(cfg, pc0, DropBranch(s1), s', dozing, fr', fr.signals);
  }

  lemma WorkSeq(cfg: Config, pc0: PC, s: State, dozing: bool, fr: Front, e: CycleEnv)
    requires FullInv(s) && ValidConfig(cfg) && s.th.branch == BUBBLE && SeqInv(cfg, pc0, s, dozing, fr, fr.signals)
    ensures var s' := CommitAndIssue(cfg, s, e);
      SeqInv(cfg, pc0, s', DozesOn(dozing, s.th, s'.th), fr, With(fr, s')) && FullInv(s')
  {
    hide FullInv, SeqInv, CommitPhase, HaltPhase, Issue, With;
    CommitAndIssueKeeps(cfg, s, e);
    if InterruptTaken(s, e) {
      InterruptSeq(cfg, pc0, s, dozing, fr, e.handler.value);
    } else {
      CommitPhaseSeq(cfg, pc0, s, dozing, fr, e);
      var s1 := HaltPhase(CommitPhase(cfg, s, e));
      IssueSeq(cfg, pc0, s1, DozesOn(dozing, s.th, s1.th), fr, e.issue);
    }
  }

  lemma AdvanceSeq(cfg: Config, pc0: PC, s: State, dozing: bool, fr: Front, sigs: seq<BranchData>)
    requires FullInv(s) && SeqInv(cfg, pc0, s, dozing, fr, sigs)
    ensures var s' := s.(u := AdvanceUnits(s.u)); FullInv(s') && SeqInv(cfg, pc0, s', dozing, fr, sigs)
  {
    var s' := s.(u := AdvanceUnits(s.u));
    AdvanceKeeps(s);
    assert Current(s', dozing) == Current(s, dozing);
    hide FullInv, SeqInv, Current, AdvanceUnits;
    SeqQuiet(cfg, pc0, s, s', dozing, fr, sigs);
  }

  lemma CycleSys(cfg: Config, pc0: PC, sys: System, dozing: bool, e: CycleEnv)
    requires SysInv(cfg, pc0, sys, dozing) && ValidConfig(cfg) && Legal(cfg, sys, dozing, Cycle(e))
    ensures var sys' := Apply(cfg, sys, Cycle(e)); SysInv(cfg, pc0, sys', DozesOn(dozing, sys.ex.th, sys'.ex.th))
  {
    var s, fr := sys.ex, sys.fr;
    var fr1 := Deliver(cfg, fr, e.line);
    var s0 := Dumped(Begin(s, e));
    assert fr1.signals == fr.signals;
    DumpFirst(cfg, Begin(s, e), e);
    assert s0.th == s.th.(branch := BUBBLE);
    hide Dumped, FullInv, SeqInv, Begin, Deliver, Delivers, CommitAndIssue, AdvanceUnits, LineOK, BubbleLine;
    BeginSeq(cfg, pc0, s, dozing, fr, e);
    WorkSeq(cfg, pc0, s0, dozing, fr1, e);
    var s1 := CommitAndIssue(cfg, s0, e);
    var dozing' := DozesOn(dozing, s.th, s1.th);
    AdvanceSeq(cfg, pc0, s1, dozing', fr1, With(fr1, s1));
    SeqSignals(cfg, pc0, Evaluate(cfg, s, e), dozing', fr1, fr1.(signals := With(fr1, s1)), With(fr1, s1));
  }

  lemma DrainSeq(cfg: Config, pc0: PC, s: State, dozing: bool, fr: Front, accesses: bool)
    requires SeqInv(cfg, pc0, s, dozing, fr, fr.signals)
    ensures SeqInv(cfg, pc0, Drain(s, accesses), dozing, fr, fr.signals)
  {
    var s' := Drain(s, accesses);
    assert Current(s', dozing) == Current(s, dozing);
    hide Path, End, Current, Sequential;
    forall b | b in fr.signals ensures SigInv(s', dozing, fr, b) { assert SigInv(s, dozing, fr, b); }
  }

  lemma DrainSys(cfg: Config, pc0: PC, sys: System, dozing: bool, accesses: bool)
    requires SysInv(cfg, pc0, sys, dozing)
    ensures SysInv(cfg, pc0, Apply(cfg, sys, RequestDrain(accesses)), dozing)
  {
    hide FullInv, SeqInv, Drain;
    DrainKeeps(sys.ex, accesses);
    DrainSeq(cfg, pc0, sys.ex, dozing, sys.fr, accesses);
  }

  lemma WakeSys(cfg: Config, pc0: PC, sys: System, dozing: bool)
    requires SysInv(cfg, pc0, sys, dozing) && Legal(cfg, sys, dozing, Wake)
    ensures SysInv(cfg, pc0, Apply(cfg, sys, Wake), false)
  {
    var s, sys' := sys.ex, Apply(cfg, sys, Wake);
    AwakeKeeps(s);
    assert Current(sys'.ex, false) == Current(s, false);
    hide FullInv, Current, Sequential;
    forall b | b in sys.fr.signals ensures SigInv(sys'.ex, false, sys'.fr, b) { assert SigInv(s, false, sys.fr, b); }
  }

  lemma ResumeSeq(cfg: Config, pc0: PC, sys: System, dozing: bool)
    requires SeqInv(cfg, pc0, sys.ex, dozing, sys.fr, sys.fr.signals) && Legal(cfg, sys, dozing, Resume)
    ensures var sys' := Apply(cfg, sys, Resume); SeqInv(cfg, pc0, sys'.ex, false, sys'.fr, sys'.fr.signals)
  {
    var s, sys' := sys.ex, Apply(cfg, sys, Resume);
    assert Pending(s.inp) == [];
    assert Current(sys'.ex, false) == [];
    hide Current, Sequential;
    forall b | b in sys.fr.signals ensures SigInv(sys'.ex, false, sys'.fr, b) { assert SigInv(s, dozing, sys.fr, b); }
  }

  lemma ResumeSys(cfg: Config, pc0: PC, sys: System, dozing: bool)
    requires SysInv(cfg, pc0, sys, dozing) && Legal(cfg, sys, dozing, Resume)
    ensures SysInv(cfg, pc0, Apply(cfg, sys, Resume), false)
  {
    hide FullInv, SeqInv;
    AwakeKeeps(sys.ex);
    DrainKeeps(sys.ex.(th := sys.ex.th.(suspended := false)), false);
    ResumeSeq(cfg, pc0, sys, dozing);
  }

  lemma SignalSys(cfg: Config, pc0: PC, sys: System, dozing: bool, woken: bool)
    requires SysInv(cfg, pc0, sys, dozing) && Legal(cfg, sys, dozing, TakeSignal(woken))
    ensures SysInv(cfg, pc0, Apply(cfg, sys, TakeSignal(woken)), dozing)
  {
    hide FullInv, FrontInv, Sequential, SigsInv;
    SignalFront(cfg, sys.ex, dozing, sys.fr, woken);
    LaterSignals(sys.ex, dozing, sys.fr, React(sys.fr, woken));
  }

  /** The signal taken puts the front end on the thread's path if it is the latest,
      and changes nothing the thread can see otherwise. */
  lemma SignalFront(cfg: Config, s: State, dozing: bool, fr: Front, woken: bool)
    requires FrontInv(cfg, s, dozing, fr) && SigsInv(s, dozing, fr, fr.signals) && fr.signals != []
    ensures FrontInv(cfg, s, dozing, React(fr, woken))
  {
    var b := fr.signals[0];
    assert b in fr.signals && SigInv(s, dozing, fr, b);
    hide Current, SigsInv;
  }

  /** The signals behind the one taken still announce the future. */
  lemma LaterSignals(s: State, dozing: bool, fr: Front, fr': Front)
    requires SigsInv(s, dozing, fr, fr.signals) && fr.signals != [] && fr'.signals == fr.signals[1..]
    requires fr'.stream == fr.stream || fr'.stream == fr.signals[0].newStream
    ensures SigsInv(s, dozing, fr', fr'.signals)
  {
    hide Current;
    var sigs := fr.signals;
    forall x | x in sigs[1..] ensures SigInv(s, dozing, fr', x) {
      var k :| 0 <= k < |sigs| - 1 && sigs[1..][k] == x;
      assert x == sigs[k + 1] && sigs[0].newStream < x.newStream && SigInv(s, dozing, fr, x);
    }
    forall i, j | 0 <= i < j < |sigs| - 1 ensures sigs[1..][i].newStream < sigs[1..][j].newStream {
      assert sigs[1..][i] == sigs[i + 1] && sigs[1..][j] == sigs[j + 1];
    }
  }

  lemma SysDozes(cfg: Config, pc0: PC, sys: System, dozing: bool)
    requires SysInv(cfg, pc0, sys, dozing)
    ensures dozing ==> sys.ex.th.suspended
  {
  }

  lemma DozesAfter(cfg: Config, sys: System, dozing: bool, ev: Event)
    requires Possible(cfg, sys, ev) && !ev.Cycle? && (dozing ==> sys.ex.th.suspended)
    ensures DozesOn(dozing, sys.ex.th, Apply(cfg, sys, ev).ex.th) == (dozing && !ev.Wake? && !ev.Resume?)
  {
  }

  /** Every legal event keeps the system invariant. */
  lemma EventSys(cfg: Config, pc0: PC, sys: System, dozing: bool, ev: Event)
    requires SysInv(cfg, pc0, sys, dozing) && ValidConfig(cfg) && Legal(cfg, sys, dozing, ev)
    ensures var sys' := Apply(cfg, sys, ev); SysInv(cfg, pc0, sys', DozesOn(dozing, sys.ex.th, sys'.ex.th))
  {
    hide SysInv, Apply, DozesOn, Delivers, Quiet;
    SysDozes(cfg, pc0, sys, dozing);
    if !ev.Cycle? { DozesAfter(cfg, sys, dozing, ev); }
    match ev
    case Cycle(e) => CycleSys(cfg, pc0, sys, dozing, e);
    case TakeSignal(woken) => SignalSys(cfg, pc0, sys, dozing, woken);
    case Wake => WakeSys(cfg, pc0, sys, dozing);
    case RequestDrain(accesses) => DrainSys(cfg, pc0, sys, dozing, accesses);
    case Resume => ResumeSys(cfg, pc0, sys, dozing);
  }
}
