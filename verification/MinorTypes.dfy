/**
  The data of the MinorCPU Execute stage for one hardware thread: dynamic
  instructions, branch signals, functional units and the stage's own state.

  A dynamic instruction is identified by its execute sequence number `id`; the
  marks the stage writes on an instruction while it is in flight (in the LSQ,
  may issue early, instruction to wait for, functional unit) are kept in tables
  of the stage indexed by that number.
 */
module MinorTypes {
  import opened Options

  /** A PC state; only equality and `Config.advance` are used on it. */
  type PC = int
  type Reg = nat
  type SeqNum = nat

  datatype Inst = Inst(
    id: SeqNum,             // execute sequence number, from 1 upwards
    stream: SeqNum,
    pc: PC,
    fault: bool,            // a fetch fault travelling as an instruction
    memRef: bool,
    barrier: bool,
    noCost: bool,
    quiesce: bool,
    lastOp: bool,           // whole instruction, or last micro-op of one
    serializing: bool,      // serialize-after, squash-after or IPR access
    predictedTaken: bool,
    predictedTarget: PC,
    srcs: seq<Reg>,         // tracked source registers
    dests: seq<Reg>)        // tracked destination registers

  /** What Decode promises of each instruction. */
  predicate WellFormed(i: Inst) {
    && 0 < i.id
    && (i.fault ==> !i.memRef && !i.barrier && !i.noCost && !i.quiesce && i.dests == [])
    && (i.noCost ==> !i.memRef)
  }

  /** The end of a macro-op, or a fault. */
  predicate Ends(i: Inst) { i.fault || i.lastOp }

  datatype Reason =
    | NoBranch | CorrectlyPredictedBranch
    | UnpredictedBranch | BadlyPredictedBranchTarget | BadlyPredictedBranch
    | SuspendThread | Interrupt | HaltFetch

  predicate IsStreamChange(r: Reason) {
    r != NoBranch && r != CorrectlyPredictedBranch
  }

  datatype BranchData = BranchData(reason: Reason, newStream: SeqNum, target: PC)

  const BUBBLE := BranchData(NoBranch, 0, 0)

  datatype DrainState = NotDraining | DrainCurrentInst | DrainHaltFetch | DrainAllInsts

  /** A self-stalling pipeline: slot 0 is the far end, the last slot is the
      input.  It shifts only while not stalled. */
  datatype FU = FU(pipe: seq<Option<Inst>>, stalled: bool)

  /** What the thread's architectural PC went through. */
  datatype Effect =
    | Took(inst: Inst, next: PC)          // an instruction (or its fault) took effect
    | Redirect(from: PC, next: PC)        // an interrupt or PC event moved the PC

  datatype Config = Config(
    issueLimit: nat,
    memoryIssueLimit: nat,
    commitLimit: nat,
    memoryCommitLimit: nat,
    processMoreThanOneInput: bool,
    allowEarlyMemIssue: bool,
    advance: (Inst, PC) -> PC)            // the ISA's advancePC

  /** The limits the constructor of Execute insists on. */
  predicate ValidConfig(cfg: Config) {
    && 1 <= cfg.commitLimit && 1 <= cfg.issueLimit && 1 <= cfg.memoryIssueLimit
    && cfg.memoryCommitLimit <= cfg.commitLimit
  }

  /** The input buffer and how far its first line has been issued. */
  datatype Input = Input(lines: seq<seq<Option<Inst>>>, index: nat)

  /** The in-flight queue, the queue of memory references still in units, the
      LSQ (requests then transfers, oldest first) and who is in it; then, as
      history, everything issued, completed and handed to the LSQ. */
  datatype Queues = Queues(
    inFlight: seq<Inst>,
    inFUMem: seq<Inst>,
    inLSQ: set<SeqNum>,
    lsq: seq<Inst>,
    issued: seq<Inst>,
    completed: seq<Inst>,
    sent: seq<Inst>)

  /** Functional units and the marks issue leaves on instructions. */
  datatype Units = Units(
    fus: seq<FU>,
    fuIndex: map<SeqNum, nat>,
    canEarly: set<SeqNum>,
    waitFor: map<SeqNum, SeqNum>)

  /** Pending results per register, and each register's last writer if any. */
  datatype Scoreboard = Scoreboard(numResults: multiset<Reg>, writing: map<Reg, SeqNum>)

  /** The LSQ's `lastMemBarrier` (0 for none) and the committed barriers still
      waiting in its store buffer. */
  datatype Barriers = Barriers(last: SeqNum, waiting: set<SeqNum>)

  /** The architectural side: stream number, PC, the wire to Fetch1, history. */
  datatype Thread = Thread(
    stream: SeqNum,
    pc: PC,
    suspended: bool,
    panicked: bool,
    branch: BranchData,
    log: seq<Effect>)

  /** The state of one thread of the stage. */
  datatype State = State(
    inp: Input,
    q: Queues,
    u: Units,
    sb: Scoreboard,
    bar: Barriers,
    th: Thread,
    lastEnd: bool,          // lastCommitWasEndOfMacroop
    drain: DrainState)

  /** The fake unit of instructions that need none. */
  function NoCostFU(u: Units): nat { |u.fus| + 1 }

  function FUOf(u: Units, i: Inst): nat {
    if i.id in u.fuIndex then u.fuIndex[i.id] else 0
  }

  function AtFront(u: Units, k: nat): Option<Inst> {
    if k < |u.fus| && u.fus[k].pipe != [] then u.fus[k].pipe[0] else None
  }

  /** One clock edge of a unit: a stalled unit stands still, any other shifts
      and stalls if an instruction reaches its far end. */
  function AdvanceFU(fu: FU): FU {
    if fu.stalled || fu.pipe == [] then fu
    else
      var pipe := fu.pipe[1..] + [None];
      FU(pipe, pipe[0].Some?)
  }

  function AdvanceUnits(u: Units): Units {
    u.(fus := seq(|u.fus|, f requires 0 <= f < |u.fus| => AdvanceFU(u.fus[f])))
  }

  function WaitFor(u: Units, i: Inst): SeqNum {
    if i.id in u.waitFor then u.waitFor[i.id] else 0
  }
}
