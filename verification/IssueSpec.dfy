/**
  The issue side of Execute as functions on the stage's state: taking the next
  slot of the input, finding it a unit, and the loop over slots.
 */
module IssueSpec {
  import opened Options
  import opened MinorTypes

  /** For one slot: does unit k provide the operation, have issue room and
      unsuppressed timing, and are the operands ready for it? */
  datatype IssueEnv = IssueEnv(accepts: nat -> bool)

  /** Loop variables of issue; `fu` is the unit index the search stopped at. */
  datatype IssueCtl = IssueCtl(fu: nat, insts: nat, memRefs: nat, going: bool)

  // ---------- The input buffer ----------

  predicate BubbleLine(l: seq<Option<Inst>>) { l == [] || l[0].None? }

  predicate HasInput(inp: Input) { inp.lines != [] && !BubbleLine(inp.lines[0]) }

  function PopInput(inp: Input): Input {
    Input(if inp.lines != [] then inp.lines[1..] else [], 0)
  }

  /** Step past the current slot, dropping the line when it is used up. */
  function NextSlot(inp: Input): Input
    requires inp.lines != []
  {
    if inp.index + 1 == |inp.lines[0]| then PopInput(inp) else inp.(index := inp.index + 1)
  }

  // ---------- Issuing one instruction ----------

  predicate CanPush(fu: FU) { fu.pipe != [] && fu.pipe[|fu.pipe| - 1].None? && !fu.stalled }

  function Push(fu: FU, inst: Inst): FU
    requires fu.pipe != []
  {
    fu.(pipe := fu.pipe[|fu.pipe| - 1 := Some(inst)])
  }

  /** The first unit from k upwards that takes the instruction. */
  function FindFU(u: Units, e: IssueEnv, k: nat): (r: Option<nat>)
    ensures r.Some? ==> k <= r.value < |u.fus| && e.accepts(r.value) && CanPush(u.fus[r.value])
    ensures forall j | k <= j < (if r.Some? then r.value else |u.fus|) :: !e.accepts(j) || !CanPush(u.fus[j])
    decreases |u.fus| - k
  {
    if k >= |u.fus| then None
    else if e.accepts(k) && CanPush(u.fus[k]) then Some(k)
    else FindFU(u, e, k + 1)
  }

  /** The youngest in-flight writer of a source register, 0 for none. */
  function LastWriter(sb: Scoreboard, srcs: seq<Reg>): SeqNum {
    if srcs == [] then 0
    else
      var rest := LastWriter(sb, srcs[1..]);
      if srcs[0] in sb.writing && sb.writing[srcs[0]] > rest then sb.writing[srcs[0]] else rest
  }

  function InstToWaitFor(sb: Scoreboard, bar: Barriers, inst: Inst): SeqNum {
    var w := LastWriter(sb, inst.srcs);
    if bar.last > w then bar.last else w
  }

  function MarkupDests(sb: Scoreboard, inst: Inst): Scoreboard {
    Scoreboard(sb.numResults + multiset(inst.dests),
               map r | r in sb.writing.Keys + (set d | d in inst.dests) ::
                 if r in inst.dests && (r in sb.writing ==> inst.id > sb.writing[r]) then inst.id
                 else sb.writing[r])
  }

  function IssueQ(q: Queues, inst: Inst): Queues {
    q.(inFlight := q.inFlight + [inst], issued := q.issued + [inst],
       inFUMem := if inst.memRef then q.inFUMem + [inst] else q.inFUMem)
  }

  function IssueU(cfg: Config, u: Units, inst: Inst, k: nat, w: SeqNum): Units
    requires k < |u.fus| && u.fus[k].pipe != []
  {
    var u1 := u.(fuIndex := u.fuIndex[inst.id := k], fus := u.fus[k := Push(u.fus[k], inst)]);
    if inst.memRef && cfg.allowEarlyMemIssue
    then u1.(canEarly := u.canEarly + {inst.id}, waitFor := u.waitFor[inst.id := w])
    else u1
  }

  function IssueInst(s: State, inst: Inst, u: Units): State {
    s.(q := IssueQ(s.q, inst), u := u, sb := MarkupDests(s.sb, inst),
       bar := if inst.barrier then s.bar.(last := inst.id) else s.bar)
  }

  predicate Accepted(th: Thread, slot: Option<Inst>) {
    slot.Some? && !th.suspended && slot.value.stream == th.stream
  }

  // ---------- The loop ----------

  predicate InRange(inp: Input) { inp.lines != [] ==> inp.index < |inp.lines[0]| }

  /** A slot was taken: step the input and decide whether to go on. */
  function Step(cfg: Config, s: State, c: IssueCtl): (State, IssueCtl)
    requires s.inp.lines != []
  {
    var s1 := s.(inp := NextSlot(s.inp));
    var lineDone := s.inp.index + 1 == |s.inp.lines[0]|;
    var more := lineDone ==> cfg.processMoreThanOneInput && HasInput(s1.inp);
    (s1, c.(going := more && c.fu != |s.u.fus| && c.insts != cfg.issueLimit && c.memRefs != cfg.memoryIssueLimit))
  }

  /** One iteration of the issue loop. */
  function IssueIter(cfg: Config, s: State, c: IssueCtl, e: IssueEnv): (State, IssueCtl)
    requires HasInput(s.inp) && s.inp.index < |s.inp.lines[0]|
  {
    var slot := s.inp.lines[0][s.inp.index];
    if !Accepted(s.th, slot) then Step(cfg, s, c)
    else
      var inst := slot.value;
      if inst.noCost then
        Step(cfg, IssueInst(s, inst, s.u.(fuIndex := s.u.fuIndex[inst.id := NoCostFU(s.u)])),
             c.(fu := NoCostFU(s.u) + 1, insts := c.insts + 1))
      else
        var k := FindFU(s.u, e, 0);
        if k.None? then
          (s, c.(fu := |s.u.fus|, going := false))
        else
          Step(cfg, IssueInst(s, inst, IssueU(cfg, s.u, inst, k.value, InstToWaitFor(s.sb, s.bar, inst))),
               IssueCtl(k.value + 1, c.insts + 1, if inst.memRef then c.memRefs + 1 else c.memRefs, true))
  }

  function Start(s: State): IssueCtl { IssueCtl(0, 0, 0, HasInput(s.inp)) }

  function IssueUpTo(cfg: Config, s: State, env: nat -> IssueEnv, k: nat): (State, IssueCtl) {
    if k == 0 then (s, Start(s))
    else
      var (s1, c1) := IssueUpTo(cfg, s, env, k - 1);
      if c1.going && HasInput(s1.inp) && InRange(s1.inp) then IssueIter(cfg, s1, c1, env(k - 1)) else (s1, c1)
  }

  /** The slots not yet looked at, in order. */
  function Remaining(inp: Input): seq<Option<Inst>> {
    if inp.lines == [] || inp.index > |inp.lines[0]| then []
    else inp.lines[0][inp.index..] + Flatten(inp.lines[1..])
  }

  function Flatten(lines: seq<seq<Option<Inst>>>): seq<Option<Inst>> {
    if lines == [] then [] else lines[0] + Flatten(lines[1..])
  }

  /** The whole loop; `IssueLoopEnds` shows that the bound cuts nothing off. */
  function Issue(cfg: Config, s: State, env: nat -> IssueEnv): (State, IssueCtl) {
    IssueUpTo(cfg, s, env, |Remaining(s.inp)| + 1)
  }
}
