/**
  One clock cycle of Execute (`evaluate`), and the drain requests between
  cycles, as functions on the stage's state.
 */
module CycleSpec {
  import opened Options
  import opened MinorTypes
  import opened CommitSpec
  import opened IssueSpec

  /** Everything outside Execute that one cycle depends on. */
  datatype CycleEnv = CycleEnv(
    line: seq<Option<Inst>>,        // what Decode hands over; a bubble for nothing
    cleared: seq<SeqNum>,           // barriers the store buffer lets go
    interrupted: bool,              // an interrupt is pending
    handler: Option<PC>,            // the interrupt can be taken, to this PC
    accessesBefore: bool,           // lsq.accessesInFlight() before and after commit
    accessesAfter: bool,
    commit: nat -> IterEnv,
    issue: nat -> IssueEnv)

  function Arrive(inp: Input, line: seq<Option<Inst>>): Input {
    if BubbleLine(line) then inp else inp.(lines := inp.lines + [line])
  }

  /** The store buffer lets go of a barrier it holds. */
  function DropBarrier(bar: Barriers, id: SeqNum): Barriers {
    if id in bar.waiting then ClearBarrier(bar.(waiting := bar.waiting - {id}), id) else bar
  }

  function StepLSQ(bar: Barriers, cleared: seq<SeqNum>): Barriers
    decreases cleared
  {
    if cleared == [] then bar else StepLSQ(DropBarrier(bar, cleared[0]), cleared[1..])
  }

  predicate InbetweenInsts(s: State, accesses: bool) { s.lastEnd && !accesses }

  function TakeInterrupt(th: Thread, handler: PC): Thread {
    UpdateBranch(th.(pc := handler, log := th.log + [Redirect(th.pc, handler)]), Interrupt, handler)
  }

  /** Drop every input line. */
  function DumpInput(inp: Input): Input
    decreases |inp.lines|
  {
    if HasInput(inp) then DumpInput(PopInput(inp)) else inp
  }

  /** The input as commit will see it: none while everything is drained. */
  function Dumped(s: State): State {
    if s.drain == DrainAllInsts then s.(inp := DumpInput(s.inp)) else s
  }

  function DropBranch(s: State): State { s.(th := s.th.(branch := BUBBLE)) }

  /** commit, as the drain state directs it. */
  function CommitPhase(cfg: Config, s: State, e: CycleEnv): State {
    match s.drain
    case NotDraining => Commit(cfg, s, e.interrupted, false, e.commit).0
    case DrainCurrentInst =>
      var s1 := Commit(cfg, s, true, false, e.commit).0;
      DropBranch(if InbetweenInsts(s1, e.accessesAfter) then s1.(drain := DrainHaltFetch) else s1)
    case DrainHaltFetch => s
    case DrainAllInsts => Commit(cfg, s.(inp := DumpInput(s.inp)), false, true, e.commit).0
  }

  /** Halt fetch once the current instruction is in the bag. */
  function HaltPhase(s: State): State {
    if s.drain == DrainHaltFetch
    then s.(th := UpdateBranch(s.th, HaltFetch, 0), drain := DrainAllInsts)
    else s
  }

  predicate InterruptTaken(s: State, e: CycleEnv) {
    s.drain == NotDraining && e.interrupted && e.handler.Some? && InbetweenInsts(s, e.accessesBefore)
  }

  /** The cycle up to the point where the units advance. */
  function CommitAndIssue(cfg: Config, s: State, e: CycleEnv): State {
    if InterruptTaken(s, e) then s.(th := TakeInterrupt(s.th, e.handler.value))
    else Issue(cfg, HaltPhase(CommitPhase(cfg, s, e)), e.issue).0
  }

  /** Input, LSQ step and a fresh branch wire. */
  function Begin(s: State, e: CycleEnv): State {
    DropBranch(s.(inp := Arrive(s.inp, e.line), bar := StepLSQ(s.bar, e.cleared)))
  }

  function Evaluate(cfg: Config, s: State, e: CycleEnv): State {
    var s1 := CommitAndIssue(cfg, Begin(s, e), e);
    s1.(u := AdvanceUnits(s1.u))
  }

  function Drain(s: State, accesses: bool): State {
    if s.drain != NotDraining then s
    else s.(drain := if InbetweenInsts(s, accesses) then DrainHaltFetch else DrainCurrentInst)
  }

  function DrainResume(s: State): State { s.(drain := NotDraining) }
}
