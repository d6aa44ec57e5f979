/**
  How far a call of commit goes: it stops only where the source's loop must, and
  never goes on past that point.
 */
module CallLaws {
  import opened Options
  import opened MinorTypes
  import opened QueueInvariants
  import opened CommitSpec
  import opened CommitTheorems
  import opened CommitCalls
  import opened CommitLaws

  /** Nothing moved, or what took effect faulted: the call ends. */
  ghost predicate StopsAfter(s: State, s': State, e: IterEnv)
    requires s.q.inFlight != []
  {
    || (s'.q.completed == s.q.completed && s'.q.sent == s.q.sent)
    || (TakesEffect(s, s') && FaultsNow(s, e))
  }

  lemma QuietFaults(cfg: Config, th: Thread, last: SeqNum, p: Pick, discard: bool, e: IterEnv)
    requires !p.NoPick?
    ensures var (th', o) := TryInst(cfg, th, last, p, discard, e);
      Completes(o) && Faults(o) ==> th'.log != th.log
  {
    TryLonger(cfg, th, p.inst, e.fault, e);
    TryLonger(cfg, th, p.inst, true, e);
    hide TryToBranch;
  }

  lemma GoesOnExactly(cfg: Config, s: State, c: Ctl, onlyMicroops: bool, discard: bool, e: IterEnv)
    requires ExInv(s) && s.q.inFlight != [] && MayDiscard(s, discard)
    ensures var (s', c') := CommitIter(cfg, s, c, onlyMicroops, discard, e);
      c'.completed && !c'.fault <==> !StopsAfter(s, s', e)
  {
    hide CommitIter, ExInv, TryInst, PickInst, MayDiscard, TakesEffect, Undisturbed, Considers, FaultsNow;
    var p := PickInst(cfg, s, c, onlyMicroops, e);
    LogGrows(cfg, s, c, onlyMicroops, discard, e);
    ThreadAfter(cfg, s, c, onlyMicroops, discard, e);
    SendsThread(cfg, s, c, onlyMicroops, discard, e);
    if Undisturbed(s, e) && !p.NoPick? {
      Leaving(cfg, s, c, onlyMicroops, discard, e);
      Sending(cfg, s, c, onlyMicroops, discard, e);
      QuietFaults(cfg, s.th, s.bar.last, p, discard, e);
    }
    TakesLeaves(s, CommitIter(cfg, s, c, onlyMicroops, discard, e).0);
  }

  lemma TakesLeaves(s: State, s': State)
    ensures TakesEffect(s, s') ==> s'.q.completed != s.q.completed
  {
  }

  /** What is counted: one that takes effect and costs a slot against `commitLimit`, a
      response that takes effect against `memoryCommitLimit`; not a fault at issue or
      at its access. */
  lemma CountsExactly(cfg: Config, s: State, c: Ctl, onlyMicroops: bool, discard: bool, e: IterEnv)
    requires ExInv(s) && s.q.inFlight != [] && MayDiscard(s, discard)
    ensures var (s', c') := CommitIter(cfg, s, c, onlyMicroops, discard, e);
      var h := s.q.inFlight[0];
      var returned := h.id in s.q.inLSQ;
      && c'.memRefs == c.memRefs + (if TakesEffect(s, s') && returned then 1 else 0)
      && c'.insts == c.insts
           + (if TakesEffect(s, s') && !h.noCost && !h.fault && (h.memRef ==> returned) then 1 else 0)
  {
    hide CommitIter, ExInv, TryInst, PickInst, MayDiscard, TakesEffect, Undisturbed, Considers;
    var p := PickInst(cfg, s, c, onlyMicroops, e);
    LogGrows(cfg, s, c, onlyMicroops, discard, e);
    CountAfter(cfg, s, c, onlyMicroops, discard, e);
    TriesHead(cfg, s, c, onlyMicroops, discard, e);
    ThreadAfter(cfg, s, c, onlyMicroops, discard, e);
    if Undisturbed(s, e) && !p.NoPick? {
      IterCase(cfg, s, c, onlyMicroops, discard, e);
      Tried(s, p, discard, TryInst(cfg, s.th, s.bar.last, p, discard, e).1);
      TryCommits(cfg, s.th, s.bar.last, p, discard, e);
      if p.Early? { EarlyQuiet(cfg, s.th, s.bar.last, p, discard, e); }
    }
  }

  lemma CountAfter(cfg: Config, s: State, c: Ctl, onlyMicroops: bool, discard: bool, e: IterEnv)
    requires s.q.inFlight != []
    ensures var c' := CommitIter(cfg, s, c, onlyMicroops, discard, e).1;
      var p := PickInst(cfg, s, c, onlyMicroops, e);
      if Undisturbed(s, e) && !p.NoPick? then
        var o := TryInst(cfg, s.th, s.bar.last, p, discard, e).1;
        && c'.insts == c.insts + (if Commits(o) && !p.inst.noCost then 1 else 0)
        && c'.memRefs == c.memRefs + (if Commits(o) && p.Response? then 1 else 0)
      else c'.insts == c.insts && c'.memRefs == c.memRefs
  {
    hide PickInst, TryInst, Finish;
  }

  lemma TryCommits(cfg: Config, th: Thread, last: SeqNum, p: Pick, discard: bool, e: IterEnv)
    requires !p.NoPick? && WellFormed(p.inst) && (p.Response? || p.Early? ==> p.inst.memRef)
    ensures var (th', o) := TryInst(cfg, th, last, p, discard, e);
      Commits(o) <==> th'.log != th.log && !p.inst.fault && (p.inst.memRef ==> p.Response?)
  {
    TryLonger(cfg, th, p.inst, e.fault, e);
    TryLonger(cfg, th, p.inst, true, e);
    hide TryToBranch;
  }

  /** States of a call: after k iterations, none of which came too late. */
  ghost predicate Goes(cfg: Config, s: State, onlyMicroops: bool, discard: bool, env: nat -> IterEnv, k: nat) {
    forall j | 0 <= j < k :: Guard(cfg, s, onlyMicroops, discard, env, j)
  }

  ghost predicate Guard(cfg: Config, s: State, onlyMicroops: bool, discard: bool, env: nat -> IterEnv, k: nat) {
    var (s1, c1) := CommitUpTo(cfg, s, onlyMicroops, discard, env, k);
    CommitGuard(cfg, s1, c1)
  }

  lemma {:induction false} StopAt(cfg: Config, s: State, onlyMicroops: bool, discard: bool, env: nat -> IterEnv, m: nat)
    returns (k: nat)
    ensures k <= m && Goes(cfg, s, onlyMicroops, discard, env, k)
    ensures CommitUpTo(cfg, s, onlyMicroops, discard, env, m) == CommitUpTo(cfg, s, onlyMicroops, discard, env, k)
    ensures k == m || !Guard(cfg, s, onlyMicroops, discard, env, k)
  {
    hide CommitGuard, CommitIter;
    k := m;
    if m > 0 {
      k := StopAt(cfg, s, onlyMicroops, discard, env, m - 1);
      if k == m - 1 && Guard(cfg, s, onlyMicroops, discard, env, k) { k := m; }
    }
  }

  /** The call may go on after k iterations: there is something in flight and no change
      of stream is signalled, and the last iteration did not end it. */
  ghost predicate MayGoOn(cfg: Config, s: State, onlyMicroops: bool, discard: bool, env: nat -> IterEnv, k: nat) {
    var s' := CommitUpTo(cfg, s, onlyMicroops, discard, env, k).0;
    && s'.q.inFlight != [] && !IsStreamChange(s'.th.branch.reason)
    && (k > 0 ==>
          var s1 := CommitUpTo(cfg, s, onlyMicroops, discard, env, k - 1).0;
          s1.q.inFlight != [] && !StopsAfter(s1, s', env(k - 1)))
  }

  lemma GuardExactly(cfg: Config, s: State, onlyMicroops: bool, discard: bool, env: nat -> IterEnv, k: nat)
    requires ExInv(s) && MayDiscard(s, discard) && s.th.branch == BUBBLE
    requires k > 0 ==> Guard(cfg, s, onlyMicroops, discard, env, k - 1)
    ensures var c' := CommitUpTo(cfg, s, onlyMicroops, discard, env, k).1;
      Guard(cfg, s, onlyMicroops, discard, env, k) <==>
        MayGoOn(cfg, s, onlyMicroops, discard, env, k) && c'.insts != cfg.commitLimit
  {
    hide ExInv, MayDiscard, CommitIter, LoopInv, StopsAfter, Work;
    if k > 0 {
      var (s1, c1) := CommitUpTo(cfg, s, onlyMicroops, discard, env, k - 1);
      CommitUpToKeeps(cfg, s, onlyMicroops, discard, env, k - 1);
      LoopParts(cfg, s, s1, c1, discard);
      GoesOnExactly(cfg, s1, c1, onlyMicroops, discard, env(k - 1));
    }
  }

  /** A call of commit makes k iterations and stops only there: because it may not go on
      or its limit is reached, and having had no reason to stop before. */
  lemma CommitStopsExactly(cfg: Config, s: State, onlyMicroops: bool, discard: bool, env: nat -> IterEnv)
    returns (k: nat, added: seq<Effect>)
    requires ExInv(s) && MayDiscard(s, discard) && s.th.branch == BUBBLE
    ensures var s' := Commit(cfg, s, onlyMicroops, discard, env).0;
      && s' == CommitUpTo(cfg, s, onlyMicroops, discard, env, k).0 && s'.th.log == s.th.log + added
      && (!MayGoOn(cfg, s, onlyMicroops, discard, env, k) || Costed(added) == cfg.commitLimit)
      && forall j | 0 <= j < k :: MayGoOn(cfg, s, onlyMicroops, discard, env, j)
  {
    hide ExInv, MayDiscard, CommitUpTo, MayGoOn, Goes, CommitGuard, LoopInv;
    k := StopAt(cfg, s, onlyMicroops, discard, env, CommitBound(s));
    CommitLoopEnds(cfg, s, onlyMicroops, discard, env);
    assert !Guard(cfg, s, onlyMicroops, discard, env, k);
    forall j | 0 <= j < k ensures MayGoOn(cfg, s, onlyMicroops, discard, env, j) {
      GoesAt(cfg, s, onlyMicroops, discard, env, k, j);
      GuardExactly(cfg, s, onlyMicroops, discard, env, j);
    }
    if k > 0 { GoesAt(cfg, s, onlyMicroops, discard, env, k, k - 1); }
    GuardExactly(cfg, s, onlyMicroops, discard, env, k);
    added := LimitIs(cfg, s, onlyMicroops, discard, env, k);
  }

  lemma GoesAt(cfg: Config, s: State, onlyMicroops: bool, discard: bool, env: nat -> IterEnv, k: nat, j: nat)
    requires Goes(cfg, s, onlyMicroops, discard, env, k) && j < k
    ensures Guard(cfg, s, onlyMicroops, discard, env, j)
    ensures j > 0 ==> Guard(cfg, s, onlyMicroops, discard, env, j - 1)
  {
    hide Guard;
  }

  lemma LimitIs(cfg: Config, s: State, onlyMicroops: bool, discard: bool, env: nat -> IterEnv, k: nat)
    returns (added: seq<Effect>)
    requires ExInv(s) && MayDiscard(s, discard) && s.th.branch == BUBBLE
    ensures var (s', c') := CommitUpTo(cfg, s, onlyMicroops, discard, env, k);
      s'.th.log == s.th.log + added && (c'.insts == cfg.commitLimit ==> Costed(added) == cfg.commitLimit)
  {
    hide ExInv, MayDiscard, CommitUpTo, Completed, AllRightly, Costed, References;
    var n;
    n, added := CallUpTo(cfg, s, onlyMicroops, discard, env, k);
  }
}
