/**
  How far issue goes: it stops only where the source's loop must, and never goes on
  past that point.
 */
module IssueLaws {
  import opened Options
  import opened MinorTypes
  import opened QueueLemmas
  import opened QueueInvariants
  import opened UnitInvariants
  import opened DependencyInvariants
  import opened CommitSpec
  import opened CommitTheorems
  import opened IssueSpec
  import opened IssueTheorems

  /** What issue has put in flight after n slots. */
  ghost function TakenBy(s0: State, n: nat): seq<Inst>
    requires n <= |Remaining(s0.inp)|
  {
    Taken(s0.th, Remaining(s0.inp)[..n])
  }

  /** The last instruction put in flight went to the last unit; or there are no units
      and none was. */
  ghost predicate ToLastUnit(u: Units, taken: seq<Inst>) {
    if taken == [] then u.fus == []
    else
      var x := taken[|taken| - 1];
      !x.noCost && u.fus != [] && FUOf(u, x) == |u.fus| - 1
  }

  /** The next slot holds an instruction to be issued, and no unit takes it in e. */
  ghost predicate NoUnitTakes(s: State, e: IssueEnv) {
    var slots := Remaining(s.inp);
    && slots != [] && slots[0].Some? && !s.th.suspended && slots[0].value.stream == s.th.stream
    && !slots[0].value.noCost
    && forall k | 0 <= k < |s.u.fus| ::
         var pipe := s.u.fus[k].pipe;
         !e.accepts(k) || pipe == [] || pipe[|pipe| - 1].Some? || s.u.fus[k].stalled
  }

  /** n slots from s0, there is no input; or a line is used up and one is all; or a limit
      is reached; or the last instruction went to the last unit. */
  ghost predicate Exhausted(cfg: Config, s0: State, s: State, n: nat)
    requires n <= |Remaining(s0.inp)|
  {
    || s.inp.lines == []
    || (n > 0 && s.inp.index == 0 && !cfg.processMoreThanOneInput)
    || |TakenBy(s0, n)| == cfg.issueLimit
    || |s.q.inFUMem| - |s0.q.inFUMem| == cfg.memoryIssueLimit
    || (n > 0 && ToLastUnit(s.u, TakenBy(s0, n)))
  }

  /** Issue must stop in s, having come n slots from s0. */
  ghost predicate MustStop(cfg: Config, s0: State, s: State, n: nat, e: IssueEnv)
    requires n <= |Remaining(s0.inp)|
  {
    Exhausted(cfg, s0, s, n) || NoUnitTakes(s, e)
  }

  /** Nothing made it stop before. */
  ghost predicate NotBefore(cfg: Config, s0: State, s: State, n: nat)
    requires n <= |Remaining(s0.inp)|
  {
    && (!cfg.processMoreThanOneInput && n > 0 ==>
          s0.inp.lines != [] && n <= |s0.inp.lines[0]| - s0.inp.index)
    && (forall m | 0 < m < n :: !ToLastUnit(s.u, TakenBy(s0, m)))
  }

  // ---------- One slot ----------

  /** Where the search for a unit stood after the last instruction put in flight. */
  ghost function Reached(u: Units, taken: seq<Inst>): nat {
    if taken == [] then 0
    else
      var x := taken[|taken| - 1];
      if x.noCost then NoCostFU(u) + 1 else FUOf(u, x) + 1
  }

  lemma ReachedLast(u: Units, taken: seq<Inst>)
    ensures Reached(u, taken) == |u.fus| <==> ToLastUnit(u, taken)
  {
  }

  /** The slot after s was used up is the last of its line. */
  ghost predicate LineDone(s: State) { s.inp.lines != [] && s.inp.index + 1 == |s.inp.lines[0]| }

  /** What an iteration does to the units of other instructions. */
  lemma IterUnits(cfg: Config, s: State, c: IssueCtl, e: IssueEnv)
    requires HasInput(s.inp) && s.inp.index < |s.inp.lines[0]|
    ensures var s' := IssueIter(cfg, s, c, e).0;
      var slot := s.inp.lines[0][s.inp.index];
      && |s'.u.fus| == |s.u.fus|
      && forall y: Inst | !(slot.Some? && y.id == slot.value.id) :: FUOf(s'.u, y) == FUOf(s.u, y)
  {
    hide InstToWaitFor, MarkupDests, IssueQ;
  }

  /** Where its search for a unit stops. */
  lemma IterReaches(cfg: Config, s: State, c: IssueCtl, e: IssueEnv)
    requires HasInput(s.inp) && s.inp.index < |s.inp.lines[0]|
    ensures var (s', c') := IssueIter(cfg, s, c, e);
      var slot := s.inp.lines[0][s.inp.index];
      s' != s && NextSlot(s.inp) != s.inp ==>
        c'.fu == if Accepted(s.th, slot) then Reached(s'.u, [slot.value]) else c.fu
  {
    hide InstToWaitFor, MarkupDests, IssueQ;
  }

  /** Whether it goes on. */
  lemma IterGoes(cfg: Config, s: State, c: IssueCtl, e: IssueEnv)
    requires HasInput(s.inp) && s.inp.index < |s.inp.lines[0]|
    ensures var (s', c') := IssueIter(cfg, s, c, e);
      s' != s && NextSlot(s.inp) != s.inp ==>
        && s'.inp == NextSlot(s.inp)
        && (c'.going <==>
              && (LineDone(s) ==> cfg.processMoreThanOneInput && HasInput(s'.inp)) && c'.fu != |s'.u.fus|
              && c'.insts != cfg.issueLimit && c'.memRefs != cfg.memoryIssueLimit)
  {
    hide InstToWaitFor, MarkupDests, IssueQ;
  }

  /** An instruction that stays where it is found no unit. */
  lemma IterFindsNone(cfg: Config, s: State, c: IssueCtl, e: IssueEnv)
    requires HasInput(s.inp) && s.inp.index < |s.inp.lines[0]| && NextSlot(s.inp) != s.inp
    requires IssueIter(cfg, s, c, e).0 == s
    ensures var slot := s.inp.lines[0][s.inp.index];
      Accepted(s.th, slot) && !slot.value.noCost && FindFU(s.u, e, 0).None?
  {
    hide InstToWaitFor, MarkupDests, IssueQ;
  }

  /** Units of what was put in flight before do not change. */
  lemma SameReached(u: Units, u': Units, taken: seq<Inst>)
    requires |u'.fus| == |u.fus| && forall x | x in taken :: FUOf(u', x) == FUOf(u, x)
    ensures Reached(u', taken) == Reached(u, taken) && ToLastUnit(u', taken) == ToLastUnit(u, taken)
  {
  }

  // ---------- The loop ----------

  /** Issue has come n slots from s0 and need not have stopped before; if it goes on, it
      need not stop now. */
  ghost predicate Along(cfg: Config, s0: State, s: State, c: IssueCtl, n: nat) {
    && n <= |Remaining(s0.inp)| && |s.u.fus| == |s0.u.fus| && NotBefore(cfg, s0, s, n)
    && c.fu == Reached(s.u, TakenBy(s0, n))
    && (c.going && n > 0 ==> !ToLastUnit(s.u, TakenBy(s0, n)))
    && (c.going && !cfg.processMoreThanOneInput ==> s.inp.lines == s0.inp.lines && s.inp.index == s0.inp.index + n)
  }

  ghost predicate StopsRight(cfg: Config, s0: State, s: State, c: IssueCtl, n: nat, env: nat -> IssueEnv) {
    && n <= |Remaining(s0.inp)| && NotBefore(cfg, s0, s, n)
    && if c.going then Along(cfg, s0, s, c, n) else MustStop(cfg, s0, s, n, env(n))
  }

  lemma {:induction false} TakenGrows(th: Thread, slots: seq<Option<Inst>>, m: nat, n: nat)
    requires m <= n <= |slots|
    ensures Taken(th, slots[..m]) <= Taken(th, slots[..n])
  {
    if m < n {
      TakenGrows(th, slots, m, n - 1);
      TakenStep(th, slots, n - 1);
    }
  }

  /** What was put in flight is older than what still waits. */
  lemma TakenOlder(cfg: Config, s0: State, s: State, c: IssueCtl, n: nat, m: nat)
    requires FullInv(s) && IssueInv(cfg, s0, s, c, n) && m <= n && s.inp.lines != []
    ensures var slot := s.inp.lines[0][s.inp.index];
      slot.Some? ==> forall x | x in TakenBy(s0, m) :: x.id != slot.value.id
  {
    var slot := s.inp.lines[0][s.inp.index];
    if slot.Some? {
      TakenGrows(s0.th, Remaining(s0.inp), m, n);
      TakeKeeps(s, s.(q := s.q.(issued := s.q.issued + [slot.value]), inp := NextSlot(s.inp)));
      IssuedBelow(s);
      forall x | x in TakenBy(s0, m) ensures x.id != slot.value.id { assert x in s.q.issued; }
    }
  }

  lemma IssuedBelow(s: State)
    requires FullInv(s)
    ensures forall x | x in s.q.issued :: x.id <= LastId(s.q.issued)
  {
  }

  /** Units of what was put in flight up to slot m are the same after the next slot. */
  lemma SameFor(cfg: Config, s0: State, s: State, c: IssueCtl, n: nat, e: IssueEnv, m: nat)
    requires FullInv(s) && IssueInv(cfg, s0, s, c, n) && m <= n && HasInput(s.inp) && s.inp.index < |s.inp.lines[0]|
    ensures var s' := IssueIter(cfg, s, c, e).0;
      && Reached(s'.u, TakenBy(s0, m)) == Reached(s.u, TakenBy(s0, m))
      && ToLastUnit(s'.u, TakenBy(s0, m)) == ToLastUnit(s.u, TakenBy(s0, m))
  {
    IterUnits(cfg, s, c, e);
    TakenOlder(cfg, s0, s, c, n, m);
    hide IssueIter, FullInv, IssueInv, Reached, ToLastUnit, Taken;
    SameReached(s.u, IssueIter(cfg, s, c, e).0.u, TakenBy(s0, m));
  }

  lemma NotBeforeStep(cfg: Config, s0: State, s: State, c: IssueCtl, n: nat, e: IssueEnv)
    requires FullInv(s) && IssueInv(cfg, s0, s, c, n) && c.going && Along(cfg, s0, s, c, n)
    requires HasInput(s.inp) && s.inp.index < |s.inp.lines[0]| && n < |Remaining(s0.inp)|
    ensures NotBefore(cfg, s0, IssueIter(cfg, s, c, e).0, n + 1)
  {
    hide IssueIter, FullInv, IssueInv, ToLastUnit, Taken, Remaining;
    var s' := IssueIter(cfg, s, c, e).0;
    forall m | 0 < m < n + 1 ensures !ToLastUnit(s'.u, TakenBy(s0, m)) { SameFor(cfg, s0, s, c, n, e, m); }
  }

  /** A slot was used: where the search for a unit stands. */
  lemma ReachedNext(cfg: Config, s0: State, s: State, c: IssueCtl, n: nat, e: IssueEnv)
    requires FullInv(s) && IssueInv(cfg, s0, s, c, n) && Along(cfg, s0, s, c, n) && n < |Remaining(s0.inp)|
    requires HasInput(s.inp) && s.inp.index < |s.inp.lines[0]| && IssueIter(cfg, s, c, e).0 != s
    ensures var (s', c') := IssueIter(cfg, s, c, e); c'.fu == Reached(s'.u, TakenBy(s0, n + 1))
  {
    hide IssueIter, FullInv, IssueInv, Taken, Remaining, NotBefore, FindFU, ToLastUnit, Reached;
    var (s', c') := IssueIter(cfg, s, c, e);
    SlotMoves(s);
    IterReaches(cfg, s, c, e);
    SameFor(cfg, s0, s, c, n, e, n);
    TakenNext(cfg, s0, s, c, n);
    SameTh(cfg, s0, s, c, n);
    var slot := s.inp.lines[0][s.inp.index];
    if Accepted(s.th, slot) {
      ReachedBy(s'.u, TakenBy(s0, n), slot.value);
    } else {
      assert TakenBy(s0, n) + [] == TakenBy(s0, n);
    }
  }

  lemma ReachedBy(u: Units, taken: seq<Inst>, x: Inst)
    ensures Reached(u, taken + [x]) == Reached(u, [x])
  {
  }

  lemma SameTh(cfg: Config, s0: State, s: State, c: IssueCtl, n: nat)
    requires IssueInv(cfg, s0, s, c, n)
    ensures s.th == s0.th
  {
  }

  lemma UsedSlot(cfg: Config, s0: State, s: State, c: IssueCtl, n: nat, e: IssueEnv)
    requires FullInv(s) && IssueInv(cfg, s0, s, c, n) && c.going && Along(cfg, s0, s, c, n)
    requires HasInput(s.inp) && s.inp.index < |s.inp.lines[0]|
    requires var (s', c') := IssueIter(cfg, s, c, e); IssueInv(cfg, s0, s', c', n + 1) && FullInv(s')
    ensures var (s', c') := IssueIter(cfg, s, c, e);
      && n < |Remaining(s0.inp)| && NotBefore(cfg, s0, s', n + 1)
      && (if c'.going then Along(cfg, s0, s', c', n + 1) else Exhausted(cfg, s0, s', n + 1))
  {
    hide IssueIter, FullInv, IssueInv, Taken, Remaining, FindFU, ToLastUnit, Reached;
    var (s', c') := IssueIter(cfg, s, c, e);
    SlotUsed(cfg, s0, s, c, n, s', c');
    SlotMoves(s);
    Counted(cfg, s0, s', c', n + 1);
    HasInputOf(s');
    IterUnits(cfg, s, c, e);
    IterGoes(cfg, s, c, e);
    ReachedNext(cfg, s0, s, c, n, e);
    NotBeforeStep(cfg, s0, s, c, n, e);
    hide NotBefore;
    ReachedLast(s'.u, TakenBy(s0, n + 1));
  }

  lemma Counted(cfg: Config, s0: State, s: State, c: IssueCtl, n: nat)
    requires IssueInv(cfg, s0, s, c, n)
    ensures n <= |Remaining(s0.inp)| && c.insts == |TakenBy(s0, n)| && c.memRefs == |s.q.inFUMem| - |s0.q.inFUMem|
  {
  }

  lemma HasInputOf(s: State)
    requires FullInv(s)
    ensures HasInput(s.inp) <==> s.inp.lines != []
  {
    HasInputIff(s.inp);
  }

  lemma SlotUsed(cfg: Config, s0: State, s: State, c: IssueCtl, n: nat, s': State, c': IssueCtl)
    requires IssueInv(cfg, s0, s, c, n) && IssueInv(cfg, s0, s', c', n + 1)
    ensures n < |Remaining(s0.inp)| && s' != s
  {
  }

  lemma TakenNext(cfg: Config, s0: State, s: State, c: IssueCtl, n: nat)
    requires FullInv(s) && IssueInv(cfg, s0, s, c, n) && n < |Remaining(s0.inp)| && s.inp.lines != []
    ensures var slot := s.inp.lines[0][s.inp.index];
      && Remaining(s.inp) != [] && Remaining(s.inp)[0] == slot
      && TakenBy(s0, n + 1) == TakenBy(s0, n) + if Accepted(s0.th, slot) then [slot.value] else []
  {
    NextSlotStep(s.inp);
    TakenStep(s0.th, Remaining(s0.inp), n);
    hide Taken, Remaining;
  }

  /** No unit was found. */
  lemma UnusedSlot(cfg: Config, s0: State, s: State, c: IssueCtl, n: nat, e: IssueEnv)
    requires FullInv(s) && IssueInv(cfg, s0, s, c, n) && HasInput(s.inp) && s.inp.index < |s.inp.lines[0]|
    requires IssueIter(cfg, s, c, e).0 == s
    ensures NoUnitTakes(s, e)
  {
    SlotMoves(s);
    IterFindsNone(cfg, s, c, e);
    NextSlotStep(s.inp);
    hide IssueIter, IssueInv, FullInv;
  }

  lemma SlotMoves(s: State)
    requires FullInv(s) && s.inp.lines != []
    ensures NextSlot(s.inp) != s.inp
  {
    NextSlotStep(s.inp);
    assert |Remaining(NextSlot(s.inp))| < |Remaining(s.inp)|;
  }

  lemma StopsAtStart(cfg: Config, s: State, env: nat -> IssueEnv)
    requires FullInv(s)
    ensures StopsRight(cfg, s, s, Start(s), 0, env)
  {
    HasInputOf(s);
    assert Remaining(s.inp)[..0] == [];
  }

  /** After any number of iterations. */
  lemma {:induction false} StopsUpTo(cfg: Config, s: State, env: nat -> IssueEnv, k: nat) returns (n: nat)
    requires FullInv(s) && ValidConfig(cfg)
    ensures var (s', c') := IssueUpTo(cfg, s, env, k);
      && FullInv(s') && IssueInv(cfg, s, s', c', n) && (c'.going ==> n == k)
      && StopsRight(cfg, s, s', c', n, env)
  {
    hide FullInv, IssueIter, IssueInv, StopsRight;
    if k == 0 {
      n := IssueUpToKeeps(cfg, s, env, 0);
      AtStart(cfg, s, n);
      StopsAtStart(cfg, s, env);
    } else {
      n := StopsUpTo(cfg, s, env, k - 1);
      var (s1, c1) := IssueUpTo(cfg, s, env, k - 1);
      if c1.going {
        GoesOn(cfg, s, s1, c1, n);
        n := StopsStep(cfg, s, s1, c1, n, env);
      }
    }
  }

  lemma GoesOn(cfg: Config, s0: State, s: State, c: IssueCtl, n: nat)
    requires FullInv(s) && IssueInv(cfg, s0, s, c, n) && c.going
    ensures HasInput(s.inp) && InRange(s.inp)
  {
  }

  lemma AtStart(cfg: Config, s: State, n: nat)
    requires IssueInv(cfg, s, s, Start(s), n)
    ensures n == 0
  {
    assert |Remaining(s.inp)[n..]| == |Remaining(s.inp)| - n;
  }

  lemma StopsStep(cfg: Config, s0: State, s: State, c: IssueCtl, n: nat, env: nat -> IssueEnv) returns (n': nat)
    requires FullInv(s) && IssueInv(cfg, s0, s, c, n) && c.going && StopsRight(cfg, s0, s, c, n, env)
    requires HasInput(s.inp) && s.inp.index < |s.inp.lines[0]|
    ensures var (s', c') := IssueIter(cfg, s, c, env(n));
      && FullInv(s') && IssueInv(cfg, s0, s', c', n') && (c'.going ==> n' == n + 1)
      && StopsRight(cfg, s0, s', c', n', env)
  {
    var (s', c') := IssueIter(cfg, s, c, env(n));
    IterIssueKeeps(cfg, s, c, env(n));
    IterIssues(cfg, s, c, env(n));
    LinesOf(s);
    hide FullInv, IssueIter, IssueInv, Exhausted, NoUnitTakes, NotBefore;
    if s' == s && !c'.going && c'.insts == c.insts && c'.memRefs == c.memRefs {
      n' := n;
      IssueInvStops(cfg, s0, s, c, c', n);
      UnusedSlot(cfg, s0, s, c, n, env(n));
    } else {
      n' := n + 1;
      IssueInvStep(cfg, s0, s, c, n, s', c');
      UsedSlot(cfg, s0, s, c, n, env(n));
    }
  }

  lemma LinesOf(s: State)
    requires FullInv(s)
    ensures LinesInv(s.inp)
  {
  }

  /** The issue loop consumes n slots and stops only there: because it must, and having
      had no reason to stop before. */
  lemma IssueStopsExactly(cfg: Config, s: State, env: nat -> IssueEnv) returns (n: nat)
    requires FullInv(s) && ValidConfig(cfg)
    ensures var (s', c') := Issue(cfg, s, env);
      && IssueInv(cfg, s, s', c', n) && n <= |Remaining(s.inp)|
      && MustStop(cfg, s, s', n, env(n)) && NotBefore(cfg, s, s', n)
  {
    var k := |Remaining(s.inp)| + 1;
    n := StopsUpTo(cfg, s, env, k);
    assert Issue(cfg, s, env) == IssueUpTo(cfg, s, env, k);
    hide FullInv, IssueInv, MustStop, NotBefore, Issue, IssueUpTo, Remaining;
    Counted(cfg, s, Issue(cfg, s, env).0, Issue(cfg, s, env).1, n);
  }
}
