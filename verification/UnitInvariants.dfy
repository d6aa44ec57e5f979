/**
  What every step of Execute keeps of its functional units: an instruction that
  is still to be executed sits in its unit, in order, and a unit lets go of its
  far end only after that instruction was dealt with.
 */
module UnitInvariants {
  import opened Options
  import opened MinorTypes
  import opened QueueLemmas
  import opened QueueInvariants
  import opened CommitSpec
  import opened IssueSpec

  /** Still to leave its unit. */
  ghost predicate Live(q: Queues, x: Inst) { x in q.inFlight && x.id !in q.inLSQ && !x.noCost }

  /** Dealt with, though its unit has not shifted yet. */
  ghost predicate Stale(q: Queues, stream: SeqNum, x: Inst) {
    && (x.id in q.inLSQ || forall i | i in q.inFlight :: x.id < i.id)
    && (x.memRef && x.stream == stream ==> x.id in q.inLSQ)
  }

  ghost predicate SlotInv(q: Queues, u: Units, stream: SeqNum, f: nat, k: nat)
    requires f < |u.fus| && k < |u.fus[f].pipe|
  {
    u.fus[f].pipe[k].Some? ==>
      var x := u.fus[f].pipe[k].value;
      && x.stream <= stream && x.id <= LastId(q.issued) && (x.id in u.canEarly ==> x.memRef)
      && if k == 0 && !u.fus[f].stalled then Stale(q, stream, x) else Live(q, x) && FUOf(u, x) == f
  }

  ghost predicate Ordered(pipe: seq<Option<Inst>>) {
    forall j, k | 0 <= j < k < |pipe| && pipe[j].Some? && pipe[k].Some? :: pipe[j].value.id < pipe[k].value.id
  }

  /** A unit is stalled by what is at its far end. */
  ghost predicate UnitOK(fu: FU) { |fu.pipe| >= 2 && Ordered(fu.pipe) && (fu.stalled ==> fu.pipe[0].Some?) }

  ghost predicate Placed(u: Units, x: Inst) {
    FUOf(u, x) < |u.fus| && Some(x) in u.fus[FUOf(u, x)].pipe
  }

  ghost predicate SlotsInv(q: Queues, u: Units, stream: SeqNum) {
    && (forall f | 0 <= f < |u.fus| :: UnitOK(u.fus[f]))
    && (forall f, k | 0 <= f < |u.fus| && 0 <= k < |u.fus[f].pipe| :: SlotInv(q, u, stream, f, k))
    && (forall id | id in u.canEarly :: id <= LastId(q.issued))
  }

  ghost predicate PlaceInv(q: Queues, u: Units) {
    && (forall x | x in q.inFlight && Live(q, x) :: Placed(u, x))
    && (forall x | x in q.inFlight && x.noCost :: FUOf(u, x) == NoCostFU(u))
  }

  ghost predicate UnitInv(q: Queues, u: Units, stream: SeqNum) { SlotsInv(q, u, stream) && PlaceInv(q, u) }

  // ---------- What commit picks ----------

  /** A live head at the end of its unit is what the unit holds there. */
  lemma HeadAtEnd(q: Queues, u: Units, stream: SeqNum)
    requires OrderInv(q) && UnitInv(q, u, stream) && q.inFlight != []
    requires Live(q, q.inFlight[0]) && AtEndOfUnit(u, q.inFlight[0])
    ensures FUOf(u, q.inFlight[0]) < |u.fus| && AtFront(u, FUOf(u, q.inFlight[0])) == Some(q.inFlight[0])
  {
    var x := q.inFlight[0];
    var f := FUOf(u, x);
    assert SlotInv(q, u, stream, f, 0);
    InFlightIncreasing(q);
    var y := u.fus[f].pipe[0].value;
    if Live(q, y) {
      SameInst(q.inFlight, x, y);
    }
  }

  /** A reference that may go early is the oldest one not yet in the LSQ. */
  lemma EarlyIsNext(q: Queues, u: Units, stream: SeqNum, e: IterEnv)
    requires QueueInv(q) && UnitInv(q, u, stream) && q.inFlight != []
    requires EarlyInst(q, u, stream, e).Some?
    ensures q.inFUMem != [] && EarlyInst(q, u, stream, e).value == q.inFUMem[0]
    ensures Live(q, q.inFUMem[0]) && FUOf(u, q.inFUMem[0]) < |u.fus|
    ensures AtFront(u, FUOf(u, q.inFUMem[0])) == Some(q.inFUMem[0])
  {
    var m := q.inFUMem[0];
    var x := EarlyInst(q, u, stream, e).value;
    MemQueueFacts(q);
    assert m in q.inFUMem;
    assert Live(q, m) && Placed(u, m);
    var f := FUOf(u, m);
    assert SlotInv(q, u, stream, f, 0);
    assert Live(q, x) && x in q.inFUMem;
    HeadIsOldest(q.inFUMem, x);
    var k :| 0 <= k < |u.fus[f].pipe| && u.fus[f].pipe[k] == Some(m);
    assert Ordered(u.fus[f].pipe);
  }

  // ---------- Preservation ----------

  /** From q at stream to q' at stream', x stops being live and nothing else
      changes for the units. */
  ghost predicate Retires(q: Queues, q': Queues, stream: SeqNum, stream': SeqNum, x: Inst) {
    && stream <= stream'
    && (forall y | y in q'.inFlight :: y in q.inFlight)
    && (forall y | y in q.inFlight && Live(q, y) && y.id != x.id :: Live(q', y))
    && !Live(q', x)
    && q.inLSQ <= q'.inLSQ && q'.issued == q.issued
  }

  lemma StaleStays(q: Queues, q': Queues, stream: SeqNum, stream': SeqNum, x: Inst, y: Inst)
    requires Retires(q, q', stream, stream', x) && Stale(q, stream, y) && y.stream <= stream
    ensures Stale(q', stream', y)
  {
  }

  lemma RetiresSlots(q: Queues, q': Queues, u: Units, u': Units, stream: SeqNum, stream': SeqNum, x: Inst)
    requires SlotsInv(q, u, stream) && Retires(q, q', stream, stream', x) && x in q.inFlight && Increasing(q.inFlight)
    requires FUOf(u, x) < |u.fus| && AtFront(u, FUOf(u, x)) == Some(x) && Live(q, x) && Stale(q', stream', x)
    requires u'.fus == Unstall(u, FUOf(u, x)).fus && u'.canEarly == u.canEarly
    requires forall y: Inst :: y.id != x.id ==> FUOf(u', y) == FUOf(u, y)
    ensures SlotsInv(q', u', stream')
  {
    var g := FUOf(u, x);
    forall f, k | 0 <= f < |u'.fus| && 0 <= k < |u'.fus[f].pipe| ensures SlotInv(q', u', stream', f, k) {
      assert u'.fus[f].pipe == u.fus[f].pipe;
      assert SlotInv(q, u, stream, f, k) && Ordered(u.fus[f].pipe);
      if u.fus[f].pipe[k].Some? {
        var y := u.fus[f].pipe[k].value;
        if k == 0 && !u.fus[f].stalled {
          StaleStays(q, q', stream, stream', x, y);
        } else if y.id == x.id {
          SameInst(q.inFlight, x, y);
          assert f == g;
          if k > 0 { assert false; }
        }
      }
    }
  }

  lemma RetiresPlaces(q: Queues, q': Queues, u: Units, u': Units, stream: SeqNum, stream': SeqNum, x: Inst)
    requires PlaceInv(q, u) && Retires(q, q', stream, stream', x) && x in q.inFlight && Increasing(q.inFlight)
    requires u'.fus == Unstall(u, FUOf(u, x)).fus && Live(q, x)
    requires forall y: Inst :: y.id != x.id ==> FUOf(u', y) == FUOf(u, y)
    ensures PlaceInv(q', u')
  {
    forall y | y in q'.inFlight && Live(q', y) ensures Placed(u', y) {
      if y.id == x.id { SameInst(q.inFlight, x, y); assert false; }
      assert Live(q, y) && Placed(u, y);
    }
    forall y | y in q'.inFlight && y.noCost ensures FUOf(u', y) == NoCostFU(u') {
      if y.id == x.id { SameInst(q.inFlight, x, y); assert false; }
    }
  }

  /** Nothing leaves a unit. */
  lemma UnitFrame(q: Queues, q': Queues, u: Units, u': Units, stream: SeqNum, stream': SeqNum)
    requires UnitInv(q, u, stream) && stream <= stream' && q.inLSQ == q'.inLSQ && q.issued == q'.issued
    requires forall y | y in q'.inFlight :: y in q.inFlight
    requires forall y | y in q.inFlight && Live(q, y) :: y in q'.inFlight
    requires u' == u.(canEarly := u'.canEarly) && u'.canEarly <= u.canEarly
    ensures UnitInv(q', u', stream')
  {
    forall f, k | 0 <= f < |u'.fus| && 0 <= k < |u'.fus[f].pipe| ensures SlotInv(q', u', stream', f, k) {
      assert SlotInv(q, u, stream, f, k);
    }
  }

  /** Issue into unit g. */
  lemma UnitIssueSlots(cfg: Config, q: Queues, u: Units, stream: SeqNum, x: Inst, g: nat, w: SeqNum)
    requires SlotsInv(q, u, stream) && LastId(q.issued) < x.id && x.stream == stream && !x.noCost
    requires forall id | id in q.inLSQ :: id <= LastId(q.issued)
    requires g < |u.fus| && CanPush(u.fus[g])
    ensures SlotsInv(IssueQ(q, x), IssueU(cfg, u, x, g, w), stream)
  {
    var q', u' := IssueQ(q, x), IssueU(cfg, u, x, g, w);
    forall f, k | 0 <= f < |u'.fus| && 0 <= k < |u'.fus[f].pipe| ensures SlotInv(q', u', stream, f, k) {
      if f == g && k == |u.fus[g].pipe| - 1 {
        assert Live(q', x);
      } else {
        assert SlotInv(q, u, stream, f, k);
        assert u'.fus[f].pipe[k] == u.fus[f].pipe[k];
      }
    }
    PushOrdered(q, u, stream, x, g);
  }

  lemma PushOrdered(q: Queues, u: Units, stream: SeqNum, x: Inst, g: nat)
    requires SlotsInv(q, u, stream) && LastId(q.issued) < x.id && g < |u.fus|
    ensures Ordered(Push(u.fus[g], x).pipe)
  {
    var n := |u.fus[g].pipe|;
    forall j | 0 <= j < n - 1 && u.fus[g].pipe[j].Some? ensures u.fus[g].pipe[j].value.id < x.id {
      assert SlotInv(q, u, stream, g, j);
    }
  }

  lemma UnitIssuePlaces(cfg: Config, q: Queues, u: Units, stream: SeqNum, x: Inst, g: nat, w: SeqNum)
    requires PlaceInv(q, u) && OrderInv(q) && LastId(q.issued) < x.id && !x.noCost
    requires g < |u.fus| && CanPush(u.fus[g])
    ensures PlaceInv(IssueQ(q, x), IssueU(cfg, u, x, g, w))
  {
    var q', u' := IssueQ(q, x), IssueU(cfg, u, x, g, w);
    NewPlaced(cfg, u, x, g, w);
    forall y | y in q.inFlight ensures y.id != x.id && FUOf(u', y) == FUOf(u, y) && (Live(q, y) ==> Placed(u', y)) {
      OlderThanNew(q, x, y);
      if Live(q, y) { OldPlaced(cfg, u, x, g, w, y); }
    }
    hide IssueU, OrderInv, Placed;
    assert |u'.fus| == |u.fus| by { SameUnits(cfg, u, x, g, w); }
    forall y | y in q'.inFlight && Live(q', y) ensures Placed(u', y) {
      if y != x { assert y in q.inFlight && Live(q, y); }
    }
  }

  lemma SameUnits(cfg: Config, u: Units, x: Inst, g: nat, w: SeqNum)
    requires g < |u.fus| && CanPush(u.fus[g])
    ensures |IssueU(cfg, u, x, g, w).fus| == |u.fus|
  {
  }

  lemma NewPlaced(cfg: Config, u: Units, x: Inst, g: nat, w: SeqNum)
    requires g < |u.fus| && CanPush(u.fus[g])
    ensures Placed(IssueU(cfg, u, x, g, w), x)
  {
    assert IssueU(cfg, u, x, g, w).fus[g].pipe[|u.fus[g].pipe| - 1] == Some(x);
  }

  lemma OldPlaced(cfg: Config, u: Units, x: Inst, g: nat, w: SeqNum, y: Inst)
    requires g < |u.fus| && CanPush(u.fus[g]) && Placed(u, y) && y.id != x.id
    ensures Placed(IssueU(cfg, u, x, g, w), y)
  {
    var f := FUOf(u, y);
    var k :| 0 <= k < |u.fus[f].pipe| && u.fus[f].pipe[k] == Some(y);
    assert IssueU(cfg, u, x, g, w).fus[f].pipe[k] == Some(y);
  }

  lemma FreeSlots(q: Queues, u: Units, stream: SeqNum, x: Inst, u': Units)
    requires SlotsInv(q, u, stream) && LastId(q.issued) < x.id
    requires forall id | id in q.inLSQ :: id <= LastId(q.issued)
    requires u' == u.(fuIndex := u.fuIndex[x.id := NoCostFU(u)])
    ensures SlotsInv(IssueQ(q, x), u', stream)
  {
    var q' := IssueQ(q, x);
    forall f, k | 0 <= f < |u'.fus| && 0 <= k < |u'.fus[f].pipe| ensures SlotInv(q', u', stream, f, k) {
      assert SlotInv(q, u, stream, f, k);
    }
  }

  lemma FreePlaces(q: Queues, u: Units, x: Inst, u': Units)
    requires PlaceInv(q, u) && OrderInv(q) && LastId(q.issued) < x.id && x.noCost
    requires u' == u.(fuIndex := u.fuIndex[x.id := NoCostFU(u)])
    ensures PlaceInv(IssueQ(q, x), u')
  {
    var q' := IssueQ(q, x);
    InFlightIncreasing(q);
    forall y | y in q.inFlight ensures FUOf(u', y) == FUOf(u, y) {
      OlderThanNew(q, x, y);
    }
    hide OrderInv, Increasing;
    forall y | y in q'.inFlight && Live(q', y) ensures Placed(u', y) {
      assert y in q.inFlight && Live(q, y) && Placed(u, y);
    }
  }

  lemma OlderThanNew(q: Queues, x: Inst, y: Inst)
    requires OrderInv(q) && LastId(q.issued) < x.id && y in q.inFlight
    ensures y.id < x.id
  {
    InFlightIncreasing(q);
  }

  /** Issue of an instruction that needs no unit. */
  lemma UnitIssueFree(q: Queues, u: Units, stream: SeqNum, x: Inst)
    requires UnitInv(q, u, stream) && OrderInv(q) && LastId(q.issued) < x.id && x.noCost
    requires forall id | id in q.inLSQ :: id <= LastId(q.issued)
    ensures UnitInv(IssueQ(q, x), u.(fuIndex := u.fuIndex[x.id := NoCostFU(u)]), stream)
  {
    hide SlotsInv, PlaceInv, OrderInv;
    var u' := u.(fuIndex := u.fuIndex[x.id := NoCostFU(u)]);
    FreeSlots(q, u, stream, x, u');
    FreePlaces(q, u, x, u');
  }

  lemma AdvanceSlots(q: Queues, u: Units, stream: SeqNum)
    requires SlotsInv(q, u, stream)
    ensures SlotsInv(q, AdvanceUnits(u), stream)
  {
    var u' := AdvanceUnits(u);
    forall f, k | 0 <= f < |u'.fus| && 0 <= k < |u'.fus[f].pipe| ensures SlotInv(q, u', stream, f, k) {
      if u.fus[f].stalled {
        assert SlotInv(q, u, stream, f, k);
      } else if k + 1 < |u.fus[f].pipe| {
        assert SlotInv(q, u, stream, f, k + 1);
      }
    }
    forall f | 0 <= f < |u'.fus| ensures UnitOK(u'.fus[f]) {
      assert UnitOK(u.fus[f]);
    }
  }

  lemma AdvancePlaces(q: Queues, u: Units, stream: SeqNum, y: Inst)
    requires SlotsInv(q, u, stream) && Live(q, y) && Placed(u, y) && Increasing(q.inFlight)
    ensures Placed(AdvanceUnits(u), y)
  {
    var f := FUOf(u, y);
    var k :| 0 <= k < |u.fus[f].pipe| && u.fus[f].pipe[k] == Some(y);
    assert SlotInv(q, u, stream, f, k);
    if u.fus[f].stalled {
      assert AdvanceUnits(u).fus[f].pipe[k] == Some(y);
    } else {
      assert k > 0 && AdvanceUnits(u).fus[f].pipe[k - 1] == Some(y);
    }
  }

  /** A clock edge loses no live instruction. */
  lemma UnitAdvance(q: Queues, u: Units, stream: SeqNum)
    requires UnitInv(q, u, stream) && OrderInv(q)
    ensures UnitInv(q, AdvanceUnits(u), stream)
  {
    InFlightIncreasing(q);
    AdvanceSlots(q, u, stream);
    forall y | y in q.inFlight && Live(q, y) ensures Placed(AdvanceUnits(u), y) {
      AdvancePlaces(q, u, stream, y);
    }
  }

  /** The oldest instruction in flight is never held up: while it is in the middle
      of its unit the clock moves it on. */
  lemma HeadMoves(q: Queues, u: Units, stream: SeqNum, k: nat)
    requires OrderInv(q) && UnitInv(q, u, stream) && q.inFlight != [] && Live(q, q.inFlight[0])
    requires var f := FUOf(u, q.inFlight[0]);
      f < |u.fus| && 0 < k < |u.fus[f].pipe| && u.fus[f].pipe[k] == Some(q.inFlight[0])
    ensures var f, u' := FUOf(u, q.inFlight[0]), AdvanceUnits(u);
      && FUOf(u', q.inFlight[0]) == f < |u'.fus| && k - 1 < |u'.fus[f].pipe|
      && u'.fus[f].pipe[k - 1] == Some(q.inFlight[0])
  {
    var x := q.inFlight[0];
    var f := FUOf(u, x);
    assert UnitOK(u.fus[f]);
    if u.fus[f].stalled {
      var y := u.fus[f].pipe[0].value;
      assert SlotInv(q, u, stream, f, 0) && y.id < x.id;
      InFlightIncreasing(q);
      HeadIsOldest(q.inFlight, y);
      assert false;
    }
  }

  /** Where the head is in its unit, if it is in one. */
  ghost predicate InSlot(q: Queues, u: Units, k: nat) {
    q.inFlight != [] && Live(q, q.inFlight[0]) ==>
      var f := FUOf(u, q.inFlight[0]);
      f < |u.fus| && k < |u.fus[f].pipe| && u.fus[f].pipe[k] == Some(q.inFlight[0])
  }

  lemma HeadInSlot(q: Queues, u: Units, stream: SeqNum) returns (k: nat)
    requires UnitInv(q, u, stream)
    ensures InSlot(q, u, k)
    ensures k == 0 || (q.inFlight != [] && FUOf(u, q.inFlight[0]) < |u.fus| && k < |u.fus[FUOf(u, q.inFlight[0])].pipe|)
  {
    k := 0;
    if q.inFlight != [] && Live(q, q.inFlight[0]) {
      var h := q.inFlight[0];
      assert Placed(u, h);
      k :| 0 <= k < |u.fus[FUOf(u, h)].pipe| && u.fus[FUOf(u, h)].pipe[k] == Some(h);
    }
  }

  /** Unless it has come to the end of its unit, it is one slot nearer after the
      clock edge. */
  lemma SlotMoves(q: Queues, u: Units, stream: SeqNum, k: nat)
    requires OrderInv(q) && UnitInv(q, u, stream) && InSlot(q, u, k)
    requires q.inFlight != [] && Live(q, q.inFlight[0]) && !AtEndOfUnit(u, q.inFlight[0])
    ensures 0 < k && InSlot(q, AdvanceUnits(u), k - 1)
  {
    HeadMoves(q, u, stream, k);
    hide UnitInv, OrderInv, AdvanceUnits;
  }
}
