/**
  What a whole call of commit does, in terms of the stage's own queues and
  history: it completes a run of instructions from the head of the queue, lets
  only some of those take effect, and keeps to its limit.
 */
module CommitCalls {
  import opened Options
  import opened MinorTypes
  import opened QueueInvariants
  import opened CommitSpec
  import opened CommitTheorems

  /** How many instructions that cost a commit slot took effect. */
  ghost function Costed(log: seq<Effect>): nat {
    if log == [] then 0
    else
      var x := log[|log| - 1];
      Costed(log[..|log| - 1]) + if x.Took? && !x.inst.noCost then 1 else 0
  }

  /** How many memory references took effect. */
  ghost function References(log: seq<Effect>): nat {
    if log == [] then 0
    else
      var x := log[|log| - 1];
      References(log[..|log| - 1]) + if x.Took? && x.inst.memRef then 1 else 0
  }

  lemma CountedNext(log: seq<Effect>, x: Effect)
    ensures Costed(log + [x]) == Costed(log) + if x.Took? && !x.inst.noCost then 1 else 0
    ensures References(log + [x]) == References(log) + if x.Took? && x.inst.memRef then 1 else 0
  {
    assert (log + [x])[..|log|] == log;
  }

  /** The first n in flight have completed. */
  ghost predicate Completed(q0: Queues, q: Queues, n: nat) {
    n <= |q0.inFlight| && q.completed == q0.completed + q0.inFlight[..n] && q.inFlight == q0.inFlight[n..]
  }

  /** x took effect because it is one of the first n of s0, of its stream. */
  ghost predicate Rightly(s0: State, n: nat, discard: bool, x: Effect)
    requires n <= |s0.q.inFlight|
  {
    x.Took? ==> !discard && x.inst in s0.q.inFlight[..n] && x.inst.stream == s0.th.stream
  }

  ghost predicate AllRightly(s0: State, n: nat, discard: bool, added: seq<Effect>)
    requires n <= |s0.q.inFlight|
  {
    forall x | x in added :: Rightly(s0, n, discard, x)
  }

  /** The counters count what took effect, but perhaps for a fault that ended the call. */
  ghost predicate Paid(cfg: Config, c: Ctl, added: seq<Effect>) {
    var last := if c.fault then 1 else 0;
    && c.insts <= Costed(added) <= c.insts + last && Costed(added) <= cfg.commitLimit
    && c.memRefs <= References(added) <= c.memRefs + last
  }

  /** `added` is what the call has added to the history. */
  ghost predicate Call(cfg: Config, s0: State, s: State, c: Ctl, discard: bool, n: nat, added: seq<Effect>) {
    && n <= |s0.q.inFlight| && Completed(s0.q, s.q, n)
    && s.th.log == s0.th.log + added && AllRightly(s0, n, discard, added) && Paid(cfg, c, added)
  }

  /** An effect is counted, or it is a fault, which ends the call. */
  lemma TryCounts(cfg: Config, th: Thread, last: SeqNum, p: Pick, discard: bool, e: IterEnv, c: Ctl)
    requires !p.NoPick? && WellFormed(p.inst) && (p.Response? ==> p.inst.memRef)
    ensures var (th', o) := TryInst(cfg, th, last, p, discard, e);
      var c' := Count(c, p, o);
      if th'.log == th.log then c'.insts == c.insts && c'.memRefs == c.memRefs
      else Counts(c, c', p.inst)
  {
  }

  /** i is counted, unless it is a fault. */
  ghost predicate Counts(c: Ctl, c': Ctl, i: Inst) {
    var inst, ref := if i.noCost then 0 else 1, if i.memRef then 1 else 0;
    && (c'.insts == c.insts + inst || (c'.fault && c'.insts == c.insts))
    && (c'.memRefs == c.memRefs + ref || (c'.fault && c'.memRefs == c.memRefs))
  }

  lemma IterCounts(cfg: Config, s: State, c: Ctl, onlyMicroops: bool, discard: bool, e: IterEnv, x: Effect)
    requires ExInv(s) && s.q.inFlight != [] && MayDiscard(s, discard)
    ensures var (s', c') := CommitIter(cfg, s, c, onlyMicroops, discard, e);
      && (s'.th.log == s.th.log ==> c'.insts == c.insts && c'.memRefs == c.memRefs)
      && (s'.th.log == s.th.log + [x] ==>
            if x.Took? then Counts(c, c', x.inst) else c'.insts == c.insts && c'.memRefs == c.memRefs)
  {
    hide ExInv, MayDiscard;
    var p := PickInst(cfg, s, c, onlyMicroops, e);
    if !HasPCEvent(s, e) && !p.NoPick? {
      IterCase(cfg, s, c, onlyMicroops, discard, e);
      ResponseRefs(s, p);
      TryCounts(cfg, s.th, s.bar.last, p, discard, e, c);
      TryAppends(cfg, s.th, s.bar.last, p, discard, e, x);
      hide TryInst, PickInst, FinishU, LeaveQ, SendQ;
    } else if CommitIter(cfg, s, c, onlyMicroops, discard, e).0.th.log == s.th.log + [x] {
      assert CommitIter(cfg, s, c, onlyMicroops, discard, e).0.th.log[|s.th.log|] == x;
    }
  }

  lemma ResponseRefs(s: State, p: Pick)
    requires ExInv(s) && Picked(s, p)
    ensures p.Response? ==> p.inst.memRef
  {
  }

  lemma TryAppends(cfg: Config, th: Thread, last: SeqNum, p: Pick, discard: bool, e: IterEnv, x: Effect)
    requires !p.NoPick?
    ensures var th' := TryInst(cfg, th, last, p, discard, e).0;
      th'.log == th.log + [x] ==> x == Took(p.inst, th'.pc)
  {
    TryLog(cfg, th, last, p, discard, e);
    hide TryInst;
    var th' := TryInst(cfg, th, last, p, discard, e).0;
    if th'.log == th.log + [x] {
      assert th'.log[|th.log|] == x;
    }
  }

  lemma TryLog(cfg: Config, th: Thread, last: SeqNum, p: Pick, discard: bool, e: IterEnv)
    requires !p.NoPick?
    ensures var th' := TryInst(cfg, th, last, p, discard, e).0;
      th'.log == th.log || th'.log == th.log + [Took(p.inst, th'.pc)]
  {
  }

  lemma CompletedNext(q0: Queues, q: Queues, q': Queues, n: nat)
    requires Completed(q0, q, n) && q.inFlight != []
    requires q'.completed == q.completed + [q.inFlight[0]] && q'.inFlight == q.inFlight[1..]
    ensures Completed(q0, q', n + 1) && q.inFlight[0] in q0.inFlight[..n + 1]
    ensures forall i | i in q0.inFlight[..n] :: i in q0.inFlight[..n + 1]
  {
    assert q0.inFlight[..n + 1] == q0.inFlight[..n] + [q.inFlight[0]];
  }

  /** An iteration that adds x to the history. */
  lemma PaidNext(cfg: Config, c: Ctl, c': Ctl, added: seq<Effect>, x: Effect)
    requires Paid(cfg, c, added) && !c.fault && c.insts < cfg.commitLimit
    requires if x.Took? then Counts(c, c', x.inst) else c'.insts == c.insts && c'.memRefs == c.memRefs
    ensures Paid(cfg, c', added + [x])
  {
    CountedNext(added, x);
  }

  lemma RightlyNext(s0: State, n: nat, n': nat, discard: bool, added: seq<Effect>, x: Effect)
    requires n <= n' <= |s0.q.inFlight| && AllRightly(s0, n, discard, added)
    ensures AllRightly(s0, n', discard, added)
    ensures Rightly(s0, n', discard, x) ==> AllRightly(s0, n', discard, added + [x])
  {
    assert forall i | i in s0.q.inFlight[..n] :: i in s0.q.inFlight[..n'];
  }

  /** What the step does to the queues. */
  lemma QueueStep(s0: State, s: State, s': State, n: nat) returns (n': nat)
    requires Completed(s0.q, s.q, n) && s.q.inFlight != []
    requires || (s'.q.completed == s.q.completed && s'.q.inFlight == s.q.inFlight)
             || (s'.q.completed == s.q.completed + [s.q.inFlight[0]] && s'.q.inFlight == s.q.inFlight[1..])
    ensures n <= n' <= |s0.q.inFlight| && Completed(s0.q, s'.q, n')
    ensures s'.q.inFlight != s.q.inFlight ==> s.q.inFlight[0] in s0.q.inFlight[..n']
  {
    n' := n;
    if s'.q.inFlight != s.q.inFlight {
      CompletedNext(s0.q, s.q, s'.q, n);
      n' := n + 1;
    }
  }

  /** What an iteration adds to the history, if anything. */
  ghost predicate Adds(s: State, s': State, discard: bool, x: Effect) {
    && s'.th.log == s.th.log + [x]
    && (x.Took? ==> !discard && s.q.inFlight != [] && x.inst == s.q.inFlight[0] && s'.q.inFlight == s.q.inFlight[1..]
                    && x.inst.stream == s.th.stream)
  }

  lemma IterAdds(cfg: Config, s: State, c: Ctl, onlyMicroops: bool, discard: bool, e: IterEnv) returns (x: Effect)
    requires ExInv(s) && s.q.inFlight != [] && MayDiscard(s, discard)
    ensures var s' := CommitIter(cfg, s, c, onlyMicroops, discard, e).0;
      && (s'.th.log == s.th.log || Adds(s, s', discard, x))
      && (|| (s'.q.completed == s.q.completed && s'.q.inFlight == s.q.inFlight)
          || (s'.q.completed == s.q.completed + [s.q.inFlight[0]] && s'.q.inFlight == s.q.inFlight[1..]))
  {
    var s' := CommitIter(cfg, s, c, onlyMicroops, discard, e).0;
    IterEffects(cfg, s, c, onlyMicroops, discard, e);
    hide CommitIter, ExInv, MayDiscard;
    x := if s'.th.log == s.th.log then Redirect(0, 0) else s'.th.log[|s.th.log|];
  }

  /** One more iteration. */
  lemma CallStep(cfg: Config, s0: State, s: State, c: Ctl, onlyMicroops: bool, discard: bool, e: IterEnv,
                 n: nat, added: seq<Effect>)
    returns (n': nat, added': seq<Effect>)
    requires LoopInv(cfg, s0, s, c, discard) && CommitGuard(cfg, s, c) && Call(cfg, s0, s, c, discard, n, added)
    ensures var (s', c') := CommitIter(cfg, s, c, onlyMicroops, discard, e); Call(cfg, s0, s', c', discard, n', added')
  {
    hide CommitIter, ExInv, MayDiscard, Completed, Paid, AllRightly, Counts;
    var (s', c') := CommitIter(cfg, s, c, onlyMicroops, discard, e);
    var x := IterAdds(cfg, s, c, onlyMicroops, discard, e);
    IterCounts(cfg, s, c, onlyMicroops, discard, e, x);
    n' := QueueStep(s0, s, s', n);
    RightlyNext(s0, n, n', discard, added, x);
    if s'.th.log == s.th.log {
      added' := added;
      assert Paid(cfg, c', added) by { PaidSame(cfg, c, c', added); }
    } else {
      HeadMoved(s);
      added' := added + [x];
      PaidNext(cfg, c, c', added, x);
      assert s0.th.log + added + [x] == s0.th.log + (added + [x]);
    }
  }

  lemma HeadMoved(s: State)
    ensures s.q.inFlight != [] ==> s.q.inFlight[1..] != s.q.inFlight
  {
    if s.q.inFlight != [] { assert |s.q.inFlight[1..]| < |s.q.inFlight|; }
  }

  lemma PaidSame(cfg: Config, c: Ctl, c': Ctl, added: seq<Effect>)
    requires Paid(cfg, c, added) && !c.fault && c'.insts == c.insts && c'.memRefs == c.memRefs
    ensures Paid(cfg, c', added)
  {
  }

  lemma CallStart(cfg: Config, s: State, discard: bool)
    ensures Call(cfg, s, s, CTL0, discard, 0, [])
  {
    assert s.q.completed + s.q.inFlight[..0] == s.q.completed && s.th.log + [] == s.th.log;
  }

  lemma {:induction false} CallUpTo(cfg: Config, s: State, onlyMicroops: bool, discard: bool, env: nat -> IterEnv,
                                    k: nat)
    returns (n: nat, added: seq<Effect>)
    requires ExInv(s) && MayDiscard(s, discard) && s.th.branch == BUBBLE
    ensures var (s', c') := CommitUpTo(cfg, s, onlyMicroops, discard, env, k); Call(cfg, s, s', c', discard, n, added)
  {
    hide ExInv, MayDiscard, CommitIter, CommitGuard, Call, LoopInv;
    if k == 0 {
      n, added := 0, [];
      CallStart(cfg, s, discard);
    } else {
      n, added := CallUpTo(cfg, s, onlyMicroops, discard, env, k - 1);
      CommitUpToKeeps(cfg, s, onlyMicroops, discard, env, k - 1);
      var (s1, c1) := CommitUpTo(cfg, s, onlyMicroops, discard, env, k - 1);
      if CommitGuard(cfg, s1, c1) {
        n, added := CallStep(cfg, s, s1, c1, onlyMicroops, discard, env(k - 1), n, added);
      }
    }
  }

  /** A call of commit: the first n in flight complete, in order; only they take
      effect, in the stream the call began with, none when discarding, and no
      more of them than the limits allow; one access may be refused besides. */
  lemma CommitCall(cfg: Config, s: State, onlyMicroops: bool, discard: bool, env: nat -> IterEnv)
    returns (n: nat, added: seq<Effect>)
    requires ExInv(s) && MayDiscard(s, discard) && s.th.branch == BUBBLE
    ensures var s' := Commit(cfg, s, onlyMicroops, discard, env).0;
      && n <= |s.q.inFlight| && Completed(s.q, s'.q, n) && s'.th.log == s.th.log + added
      && AllRightly(s, n, discard, added) && Costed(added) <= cfg.commitLimit
      && References(added) <= cfg.memoryCommitLimit + 1
  {
    CommitUpToKeeps(cfg, s, onlyMicroops, discard, env, CommitBound(s));
    hide ExInv, MayDiscard, Completed, AllRightly, Costed, References, CommitUpTo;
    n, added := CallUpTo(cfg, s, onlyMicroops, discard, env, CommitBound(s));
  }

  /** The same spelled out. */
  lemma CallMeans(s0: State, q: Queues, n: nat, discard: bool, added: seq<Effect>)
    requires n <= |s0.q.inFlight| && Completed(s0.q, q, n) && AllRightly(s0, n, discard, added)
    ensures q.completed == s0.q.completed + s0.q.inFlight[..n] && q.inFlight == s0.q.inFlight[n..]
    ensures forall x | x in added && x.Took? ::
      !discard && x.inst in s0.q.inFlight[..n] && x.inst.stream == s0.th.stream
  {
    assert forall x | x in added :: Rightly(s0, n, discard, x);
  }
}
