# MinorCPU Execute and the scripts around gem5, modelled and proved

The main part models the Execute stage of the MinorCPU for one hardware thread:
in-order issue into functional units, in-order commit from `inFlightInsts`,
memory references that enter the LSQ early through `inFUMemInsts`, squashing by
stream sequence numbers, and the four-state drain protocol.

- `MinorTypes`, `CommitSpec`, `IssueSpec`, `CycleSpec`: the state and, as
  functions, one iteration of each loop, the loops, a cycle, drain and resume.
  Everything outside the stage (ISA, memory, latencies, interrupts, PC events,
  the degrade function) is an arbitrary environment, a fresh one for every
  iteration.
- `QueueLemmas`, `QueueInvariants`, `UnitInvariants`, `DependencyInvariants`:
  what every step keeps of the queues, the units, and the dependencies.
- `CommitTheorems`, `CommitCalls`, `IssueTheorems`, `CycleTheorems`: the loops
  end, keep to their limits and keep every invariant.
- `CommitLaws`, `CallLaws`, `IssueLaws`: if and only if. Exactly when an
  instruction takes effect, is dropped or is handed over, what the predictor is
  told, and where each loop stops.
- `Pipeline`: Execute together with a front end that follows its own predictions
  until a signal reaches it, any number of cycles later. A run is possible if
  every event in it is; it is legal if sleeping threads are treated as below.
- `StageRuns`, `RunLaws`, `EarlyTheorems`, `DrainTheorems`, `LostDrains`,
  `BarrierTheorems`: theorems over every possible run. `SequentialTheorems`, `RunTheorems`: over every legal run.
- `ResteerTheorems`, `SleepRuns`: when the stage cannot panic and when it can.
- `Witness`, `ExampleRuns`, `MemoryRuns`, `SleepExamples`, `DrainExamples`: runs
  built step by step, which show that the promises can be kept and what the stage
  does not prevent.
- `ExecuteStage`: the stage in its own form, a class whose methods update the
  fields step by step, proved to compute the functions of the specification and
  to keep what the loops promise.

The other modules are self-contained algorithms of the scripts: `PortBinder`
(configuration reader), `PipeView` and `TraceLines` (pipeline viewer), `Upgrader`
(checkpoint upgrades), `Aggregator` (merging checkpoints), `Framing` and
`DepTrace` (message framing, dependency traces as text), `CacheTree` (memory
tester topology) and `YearRanges` (copyright years). `Text`, `Collections` and
`Options` hold what they share.

Contracts on what the stage meets, taken from the code beside it: a functional
unit is a self-stalling pipeline with one slot per cycle of latency and one for
its input (`buffers.hh`); the scoreboard counts results and names the youngest
writer (`scoreboard.cc`); the LSQ answers in the order it was given requests and
clears `lastMemBarrier` only for a barrier at least as young (`lsq.cc`); Decode
numbers instructions upwards; fetch takes every stream change unless it is
halted, and fetches nothing for a sleeping thread (`fetch1.cc`); the pipeline is
resumed only when it is empty and fetch is not running (`pipeline.cc`). No-cost
instructions are not memory references.

What a legal run promises about sleeping threads: a thread that fell asleep without
a change of stream (it dozes) is not woken before the stream has changed, and
nothing of its stream is delivered to any other sleeping thread. If every
instruction that puts its thread to sleep changes the stream, the first is so by
itself (`ResteeringIsLegal`); `ResteersExactly` says which do.

Findings:

- The panic that the source calls impossible can be reached: by every instruction
  that puts its thread to sleep without a change of stream while another of its
  stream is in flight outside the LSQ, once no interrupt is pending
  (`SleeperPanics`), and only by such (`NeverPanics`). A system call that was
  predicted to the right target is one (`PredictedCallPanics`), a sleeper that
  commits behind a correctly predicted branch of the same cycle another
  (`BehindBranchPanics`).
- A thread that is put to sleep while an interrupt is pending sends no signal; if
  it is woken before that interrupt is taken, an instruction is executed twice
  (`WokenTooEarly`).
- A drain of the current instruction drops the signals that commit raises. If one
  announced a new stream before the end of the macro-op, and that end is not in
  flight, the drain never ends (`DrainHangs`, `EndsExactly`).
- A memory reference can be handed to the LSQ while an older barrier, committed,
  still waits in the store buffer: if a barrier behind the reference has been
  issued (`OvertakenBetween`), or if a younger barrier was dropped
  (`OvertakenForgotten`). In a run in which no barrier is forgotten that way, and
  the store buffer clears oldest first, the former is the only way
  (`OvertakenOnlyBetween`).
- A memory reference that is also a barrier goes into the store buffer without asking
  for room, and overfills it exactly if it was full (`OverfillsExactly`); other
  barriers never do (`NeverOverfull`).
- A correct prediction that the degrade function throws away is reported as a branch
  not taken, and a serializing instruction that does not branch as one that does: in
  exactly these cases the predictor is taught something false (`TeachesExactly`).
- The port binder's comment promises that one direction of each pair becomes
  bindable because the connections are sorted. It need not (`GivesUpTooEarly`);
  `BindExactly` says when the walk succeeds. A connection between two elements
  of one port is never bound.
- A year range with an end of other than four digits is not read back
  (`YearsRoundTrip` has the exact condition), an empty message reads as the end
  of the file (`FramesRoundTrip`), and virtual addresses and address spaces are
  lost in the text form of a trace (`LineRoundTrip`).
- The aggregator pads with the character 0, not with the byte 0 (`Pad`).
- The pipeline viewer raises at the first fetch past its stopping point instead of
  printing what is queued (`ProcessTrace`).

## Model

| member | source | states |
|---|---|---|
| `RunTheorems.NextPCRun` | ece565/programming_assignment/part_2_solutions/execute.cc:243-350 | In every legal run from a fresh stage in which no interrupt is taken and no PC event strikes, whatever the ISA, the predictor, the degrade answers, the latencies, signal delays, drains, suspensions and wake-ups are, the instructions that took effect are exactly the next-PC run: the first is at the starting PC, each later one is where its predecessor sent the thread, and the thread stands where the last one sent it |
| `RunTheorems.SequentialCommit` | ece565/programming_assignment/part_2_solutions/execute.cc:1056-1437 | In every legal run (interrupts, PC events, drains, resumes, suspensions with or without a change of stream, and wake-ups): each instruction took effect at the thread's PC, in issue order and once; and everything `InOrder` says. Nothing is asked about interrupts |
| `StageRuns.InOrder` | ece565/programming_assignment/part_2_solutions/execute.cc:1056-1437 | In every possible run, whatever instructions do to their thread: instructions complete once and in issue order and take effect in that order; `issued == completed + inFlight`; `inFUMemInsts` is, in order, the in-flight memory references not in the LSQ and the LSQ holds exactly the others; references entered the LSQ in issue order; each register's pending count is the number of its in-flight writers |
| `StageRuns.DrainOnce` | ece565/programming_assignment/part_2_solutions/execute.cc:1482-1516 | Over any possible run without a resume the drain state only moves forward, fetch is halted at most once, and from a halted state on no instruction takes effect |
| `DrainTheorems.DrainEnds` | ece565/programming_assignment/part_2_solutions/execute.cc:1871-1886 | From any state in which everything is being drained: after more cycles than |inFlightInsts| + |inFUMemInsts| times the depth of the deepest unit, with signals, wake-ups and new input among them, nothing is in flight and no input is left, if `memoryCommitLimit` is not 0 and in each cycle the oldest instruction is not kept from leaving by a PC event or a missing response |
| `DrainTheorems.DrainStepsOn` | ece565/programming_assignment/part_2_solutions/execute.cc:1490-1498 | Each such cycle drops all input, never lengthens the queues, and uses up one of the cycles that are enough: the oldest instruction moves one slot on in its unit or leaves |
| `LostDrains.EndsExactly` | ece565/programming_assignment/part_2_solutions/execute.cc:1484-1491 | A drain of the current instruction whose signal of a new stream was dropped can end if and only if a macro-op has just ended or its last micro-op is in flight (`memoryCommitLimit` not 0) |
| `LostDrains.NeverEnds` | ece565/programming_assignment/part_2_solutions/execute.cc:1484-1491 | Otherwise it stays in `DrainCurrentInst` whatever cycles, deliveries, wake-ups and requests follow |
| `LostDrains.SignalDropped` | ece565/programming_assignment/part_2_solutions/execute.cc:1484-1491 | It comes to that whenever the stream changes in `DrainCurrentInst` with fetch running and the drain not ended in that cycle |
| `DrainExamples.DrainHangs` | ece565/programming_assignment/part_2_solutions/execute.cc:1484-1491 | A legal run from every fresh system that ends in such a drain for ever: of two micro-ops before the last one, the second branches after the drain was requested |
| `UnitInvariants.HeadMoves` | ece565/gem5_org/src/cpu/minor/buffers.hh:345-362 | The oldest instruction in flight is never held up in its unit by another |
| `StageRuns.EvaluateDrain` | ece565/programming_assignment/part_2_solutions/execute.cc:1482-1516 | One cycle: `HaltFetch` goes out exactly when the thread enters `DrainAllInsts`, only after an op that ended a macro-op; from `DrainHaltFetch` on nothing takes effect; a thread that is not draining does not start to by itself |
| `RunLaws.InterruptRuns` | ece565/programming_assignment/part_2_solutions/execute.cc:1654-1660 | In every possible run, the wire carries an interrupt after a cycle if and only if one was pending with a handler, the thread was not draining, no access was in flight, and no instruction had completed yet or the last to complete was a fault or the last op of its macro-op |
| `RunLaws.InterruptsExactly` | ece565/programming_assignment/part_2_solutions/execute.cc:1446-1480 | The same of one cycle, which then touches no queue and leaves the thread at the handler in a new stream |
| `RunLaws.WaitsForInterrupt` | ece565/programming_assignment/part_2_solutions/execute.cc:1498-1506 | While an interrupt is pending no new instruction begins: in a cycle that finds the last one complete nothing completes or is handed over, unless a response comes back |
| `RunLaws.RequestsExactly` | ece565/programming_assignment/part_2_solutions/execute.cc:1849-1869 | A drain request goes straight to halting fetch exactly if the last to complete ended a macro-op and no access is in flight, and changes nothing if a drain is under way |
| `RunLaws.HaltsExactly` | ece565/programming_assignment/part_2_solutions/execute.cc:1482-1516 | A cycle halts fetch exactly if that was due, or it drained the current instruction and left the thread between two |
| `RunLaws.CycleIssues` | ece565/programming_assignment/part_2_solutions/execute.cc:1518-1527 | Every cycle that takes no interrupt, in whatever drain state, issues from all that is buffered, as far as `IssueStopsExactly` allows; then the units move on |
| `RunLaws.SerialRun` | ece565/programming_assignment/part_2_solutions/execute.cc:252-265 | Over runs: once a serializing instruction has taken effect with the thread awake, no other instruction of its stream takes effect in any continuation |
| `RunLaws.RunAdds` | ece565/programming_assignment/part_2_solutions/execute.cc:1264-1268 | Whatever takes effect in a run is of the stream the thread was in at its start, or a later one |
| `RunLaws.NeverOverfull` | ece565/programming_assignment/part_2_solutions/execute.cc:990-997 | From a fresh system, if room is offered only while fewer than n barriers wait in the store buffer and fewer than m references are in the LSQ, and a reference that is a barrier returns only in the former case, neither number is ever exceeded |
| `RunLaws.OverfillsExactly` | ece565/gem5_org/src/cpu/minor/lsq.cc:744-749 | One iteration: the store buffer is overfilled exactly if it was full and a memory reference that is a barrier takes effect; never by another barrier |
| `StageRuns.EventStage` | ece565/programming_assignment/part_2_solutions/execute.cc:1446-1527 | Every possible event keeps every invariant of the stage and its history, and all but a resume take the drain protocol forward |
| `RunTheorems.RunKeeps` | ece565/programming_assignment/part_2_solutions/execute.cc:1446-1527 | Every invariant of stage, front end and history holds after any legal sequence of cycles, delayed signals, wake-ups, drain requests and resumes |
| `StageRuns.FreshStage` | ece565/programming_assignment/part_2_solutions/execute.cc:60-189 | A freshly built stage satisfies every invariant |
| `StageRuns.CommitUpToHist` | ece565/programming_assignment/part_2_solutions/execute.cc:1106-1112 | Throughout a commit call the instructions that took effect stay in issue order and among the completed; with `discard` none takes effect |
| `SequentialTheorems.IterSeq` | ece565/programming_assignment/part_2_solutions/execute.cc:1113-1436 | One commit iteration keeps that invariant, including early issue, discards, faults, PC events, and instructions that put their thread to sleep with or without a change of stream |
| `SequentialTheorems.TryInstThread` | ece565/programming_assignment/part_2_solutions/execute.cc:213-350 | If no stream change is signalled, the instruction sent the thread exactly where fetch went after it (predicted target, or the next PC), for every answer of the degrade function and whether or not the thread falls asleep; the panic needs a sleeping thread, no interrupt and an instruction of its stream. `Serializes` and `TeachesExactly` say when it is signalled and with which reason |
| `SequentialTheorems.ResteersExactly` | ece565/programming_assignment/part_2_solutions/execute.cc:1024-1050 | Exactly when an instruction that puts its thread to sleep also changes the stream: unless it was predicted taken and correctly, or neither branches nor faults while the wire is taken, an interrupt is pending, or it completes from a memory response |
| `SequentialTheorems.ArriveSeq` | ece565/gem5_org/src/cpu/minor/fetch1.cc:478-530 | What the front end delivers extends the thread's path if it is of the current stream, and is invisible to it otherwise or if it is dropped at once by a drain |
| `SequentialTheorems.SignalFront` | ece565/gem5_org/src/cpu/minor/fetch1.cc:478-508 | A signal that reaches fetch puts it on the thread's path, or on one whose instructions will all be discarded |
| `ResteerTheorems.NeverPanics` | ece565/programming_assignment/part_2_solutions/execute.cc:936-941 | From a fresh system the suspended-thread panic is never reached, in any possible run in which each instruction that takes effect and puts its thread to sleep changes the stream (`Resteers`), or leaves nothing of its stream in flight outside the LSQ |
| `ResteerTheorems.PendingNeverPanics` | ece565/programming_assignment/part_2_solutions/execute.cc:936-941 | Nor is it if an interrupt is pending whenever a sleeping thread has an instruction of its stream in flight outside the LSQ |
| `ResteerTheorems.ResteeringIsLegal` | ece565/programming_assignment/part_2_solutions/execute.cc:1024-1050 | Every possible run in which each instruction that puts its thread to sleep also changes the stream, and nothing is fetched for a sleeping thread, is legal |
| `SleepRuns.PanicsExactly` | ece565/programming_assignment/part_2_solutions/execute.cc:936-941 | A sleeping thread that is not being drained can come to panic before it is woken if and only if an instruction of its stream is in flight outside the LSQ (and responses of what is in the LSQ are taken at all) |
| `SleepRuns.SleeperPanics` | ece565/programming_assignment/part_2_solutions/execute.cc:936-941 | From every state of every possible run, not draining, in any cycle that takes no interrupt: if in some iteration the head takes effect, puts its thread to sleep without a change of stream (faulting, serializing, quiesce, from a unit or a response, the wire taken or not, an interrupt pending or not) and leaves an instruction of its stream in flight outside the LSQ, then that cycle, calm after this iteration, and finitely many cycles without an interrupt end in the panic the source calls impossible. The condition is the negation of the one in `NeverPanics`; if anything is in the LSQ, `memoryCommitLimit` must not be 0 |
| `SleepRuns.AsleepPanics` | ece565/programming_assignment/part_2_solutions/execute.cc:936-941 | The same from any state in which the thread sleeps and an instruction of its stream is in flight outside the LSQ, wherever in the queue and in its unit it is, whatever barrier is remembered and whatever is in the LSQ ahead of it |
| `SleepExamples.FreshSleeperPanics` | ece565/programming_assignment/part_2_solutions/execute.cc:936-941 | From every fresh system: for every no-cost first instruction that puts its thread to sleep without a change of stream, faulting or not, a possible run that panics |
| `SleepExamples.PredictedCallPanics` | ece565/gem5_org/src/cpu/minor/fetch2.cc:193-195 | Such an instruction: a serializing system call that faults and was predicted taken to the PC its fault leads to |
| `SleepExamples.BehindBranchPanics` | ece565/programming_assignment/part_2_solutions/execute.cc:1024-1050 | Another: any instruction of a unit that is neither a memory reference nor a quiesce, was not predicted taken and does not branch, committing behind a correctly predicted branch of another unit in the same cycle, so that the wire is taken |
| `SleepExamples.DozeAndInterrupt` | ece565/programming_assignment/part_2_solutions/execute.cc:1034-1036 | A legal run with a thread that dozes: it is put to sleep with an interrupt pending, with the next instruction in flight, and the interrupt is taken |
| `SleepExamples.WokenTooEarly` | ece565/programming_assignment/part_2_solutions/execute.cc:1034-1036 | What the promise about waking is for: a thread that falls asleep with an interrupt pending and is woken before the stream changes executes the next instruction twice |
| `ExampleRuns.Misprediction` | ece565/programming_assignment/part_2_solutions/execute.cc:243-324 | From every fresh system a legal run in which a mispredicted branch takes effect, what was fetched behind it is squashed and its target takes effect |
| `ExampleRuns.DrainAndResume` | ece565/programming_assignment/part_2_solutions/execute.cc:1806-1869 | From every fresh system a legal run that drains, halts fetch, resumes and goes on in the new stream |
| `MemoryRuns.EarlyAccess` | ece565/programming_assignment/part_2_solutions/execute.cc:1198-1223 | A legal run in which a memory reference enters the LSQ while an older instruction is still in flight |
| `MemoryRuns.OvertakenBetween` | ece565/gem5_org/src/cpu/minor/lsq.cc:1701-1711 | A legal run in which a reference between two barriers is handed to the LSQ while the older barrier, committed, still waits in the store buffer: issuing the younger one made the LSQ forget it |
| `MemoryRuns.OvertakenForgotten` | ece565/gem5_org/src/cpu/minor/lsq.cc:915-930 | A legal run in which a younger barrier on a wrong path is dropped, which clears `lastMemBarrier`, and a later reference passes the older waiting barrier |
| `SequentialTheorems.EventSys` | ece565/programming_assignment/part_2_solutions/execute.cc:1446-1527 | Each kind of event keeps the sequential invariant: the front end is on the thread's path, or a signal on its way will put it there |
| `SequentialTheorems.IssueCurrent` | ece565/programming_assignment/part_2_solutions/execute.cc:606-867 | Issuing neither loses nor reorders an instruction of the current stream |
| `CycleTheorems.EvaluateKeeps` | ece565/programming_assignment/part_2_solutions/execute.cc:1446-1527 | Every cycle keeps every invariant of the stage; the stream number never falls, and any stream change on the wire carries the number the thread ends the cycle with. Exactly when that is an interrupt or a halt is in `InterruptsExactly` and `HaltsExactly` |
| `CycleTheorems.CommitPhaseKeeps` | ece565/programming_assignment/part_2_solutions/execute.cc:1473-1506 | The same for each of the four drain states' use of `commit` |
| `CycleTheorems.DumpIsEmpty` | ece565/programming_assignment/part_2_solutions/execute.cc:1494-1495 | Popping while there is input empties the buffer and resets `inputIndex` |
| `CycleTheorems.DrainKeeps` | ece565/programming_assignment/part_2_solutions/execute.cc:1806-1869 | Drain requests and resumes keep every invariant |
| `CycleTheorems.StepLSQKeeps` | ece565/gem5_org/src/cpu/minor/lsq.cc:254-265 | Whatever barriers the store buffer lets go of, `lastMemBarrier` still covers every barrier in flight |
| `CommitTheorems.IterKeeps` | ece565/programming_assignment/part_2_solutions/execute.cc:1113-1436 | Every iteration of the commit loop keeps the invariant that ties both queues, the `inLSQ` marks, the units, the scoreboard, the barriers and the wait marks together |
| `CommitTheorems.IterShrinks` | ece565/programming_assignment/part_2_solutions/execute.cc:1113-1404 | An iteration that completes an instruction makes |inFlightInsts| + |inFUMemInsts| smaller |
| `CommitTheorems.CommitUpToKeeps` | ece565/programming_assignment/part_2_solutions/execute.cc:1106-1437 | After any number of iterations: invariant, both limits respected, the stream changed at most once and only if the wire says so, carrying the new number and the thread's PC |
| `CommitTheorems.CommitLoopEnds` | ece565/programming_assignment/part_2_solutions/execute.cc:1106-1437 | The loop ends within |inFlightInsts| + |inFUMemInsts| + 1 iterations, with its guard false |
| `CommitTheorems.IterWithinLimits` | ece565/programming_assignment/part_2_solutions/execute.cc:1406-1434 | Never more than `commitLimit` costed instructions or `memoryCommitLimit` memory references |
| `CommitTheorems.IterStream` | ece565/programming_assignment/part_2_solutions/execute.cc:326-350 | Each commit call changes stream at most once |
| `CommitTheorems.IterEffects` | ece565/programming_assignment/part_2_solutions/execute.cc:1158-1404 | What an iteration can do to the history: nothing; drop a head of another stream; a PC event, after an instruction that ended a macro-op and with no access in flight; or let the head take effect, which is then of the current stream, not being discarded, and is the very instruction popped. `lastCommitWasEndOfMacroop` follows the last one popped. `TakesEffectExactly` says exactly when the last case happens |
| `CommitLaws.TakesEffectExactly` | ece565/programming_assignment/part_2_solutions/execute.cc:923-1054 | An iteration lets the head take effect if and only if no PC event strikes, nothing is discarded, it is of the current stream, and: its response has come within `memoryCommitLimit`; or it is at the end of its unit or needs none, no early reference goes first, it is not kept for the end of a macro-op, delayed or asleep, and if a memory reference its access is tried and refused, if a barrier the store buffer has room, if a quiesce nothing is signalled yet |
| `CommitLaws.SendsThread` | ece565/programming_assignment/part_2_solutions/execute.cc:243-275 | Where it then sends the thread: to the next PC after the one execution left, or where its fault leads; and a fault ends the call |
| `CommitLaws.Serializes` | ece565/programming_assignment/part_2_solutions/execute.cc:252-265 | A serializing last op that takes effect and leaves the thread awake changes the stream, predicted or not |
| `CommitLaws.DropsExactly` | ece565/programming_assignment/part_2_solutions/execute.cc:1264-1285 | Exactly when the head is dropped without effect: discarding or of another stream, and its response has come or its unit lets go of it; no barrier, delay, store buffer or sleeping thread holds it |
| `CommitLaws.SendsExactly` | ece565/programming_assignment/part_2_solutions/execute.cc:1186-1261 | Exactly when a reference is handed to the LSQ, in terms of what is at the end of the units |
| `CommitLaws.RedirectsExactly` | ece565/programming_assignment/part_2_solutions/execute.cc:1137-1157 | A PC event strikes exactly if one is due, the last instruction is complete and no access is in flight; then the thread is there in a new stream and the queues are untouched |
| `CommitLaws.TeachesExactly` | ece565/gem5_org/src/cpu/minor/fetch2.cc:123-181 | After an instruction takes effect, what the signal tells the predictor makes it hold what really happened, if and only if no correct prediction was thrown away by the degrade function and no branch was signalled only because the instruction serializes |
| `CallLaws.CommitStopsExactly` | ece565/programming_assignment/part_2_solutions/execute.cc:1406-1437 | A commit call stops exactly where it must: after k iterations nothing is in flight, a new stream is signalled, what took effect faulted, the last iteration moved nothing, or `commitLimit` is reached; and none of the first four held before |
| `CallLaws.CountsExactly` | ece565/programming_assignment/part_2_solutions/execute.cc:1406-1434 | What an iteration counts: what takes effect and costs a slot, and what takes effect from a response; not a fault at issue or at its access, and nothing that is dropped |
| `CallLaws.GoesOnExactly` | ece565/programming_assignment/part_2_solutions/execute.cc:1355-1437 | One iteration: the loop variables say to go on exactly if something left or was handed over and did not fault |
| `CommitTheorems.IterCase` | ece565/programming_assignment/part_2_solutions/execute.cc:1137-1353 | Whatever is picked is in flight; an early reference is a memory reference of the current stream, is never discarded and never leaves the queue in that iteration, so a pop always removes the instruction just completed |
| `CommitTheorems.SentSafely` | ece565/programming_assignment/part_2_solutions/execute.cc:1198-1223 | A reference is handed to the LSQ only as the head of `inFUMemInsts`, in the current stream, and only when no older memory barrier and no older writer of its sources is still in flight |
| `BarrierTheorems.OvertakenOnlyBetween` | ece565/programming_assignment/part_2_solutions/execute.cc:1307-1317 | From a fresh system, by any possible run in which the store buffer clears oldest first and no step forgets a barrier: a reference is handed over past an older waiting barrier only if a barrier at least as young as the reference has been issued, which then waits or is in flight and is the one remembered |
| `BarrierTheorems.RunRemembers` | ece565/programming_assignment/part_2_solutions/execute.cc:1307-1317 | In every such run each barrier that waits is at most as young as the one remembered |
| `BarrierTheorems.Overtakes` | ece565/programming_assignment/part_2_solutions/execute.cc:1307-1317 | One iteration: when a reference is handed over while an older committed barrier waits, that barrier has been forgotten or a barrier at least as young as the reference has been issued |
| `BarrierTheorems.IterRemembers` | ece565/programming_assignment/part_2_solutions/execute.cc:1392-1402 | A commit iteration keeps every waiting barrier remembered if and only if it does not drop the youngest barrier (of another stream, discarded, or faulted on access) while another waits |
| `BarrierTheorems.IssueRemembers` | ece565/gem5_org/src/cpu/minor/lsq.cc:1701-1711 | Issue always keeps them remembered |
| `BarrierTheorems.RememberDiscard` | ece565/gem5_org/src/cpu/minor/lsq.cc:915-930 | Dropping a barrier keeps the waiting ones remembered exactly if there are none or a younger one has been issued |
| `BarrierTheorems.RememberStep` | ece565/gem5_org/src/cpu/minor/lsq.cc:254-265 | Letting barriers go oldest first keeps the others remembered |
| `CommitCalls.CommitCall` | ece565/programming_assignment/part_2_solutions/execute.cc:1056-1437 | A whole call of commit: the first n in flight complete, in order; only they take effect, in the stream the call began with, none when discarding, no more costed ones than `commitLimit`, and no more references than `memoryCommitLimit`, but for one whose access is refused |
| `EarlyTheorems.HandsOverRuns` | ece565/programming_assignment/part_2_solutions/execute.cc:1198-1223 | In every iteration of every cycle of every possible run, a reference is handed to the LSQ if and only if it is the oldest not handed over, of the current stream and out of its unit, there is room, no older barrier is remembered, no PC event, response, delay, refusal or sleeping thread is in the way, and it is the head or may go early with nothing in flight that must precede it: the single number in `instToWaitFor` stands for exactly the barriers and writers it depends on |
| `EarlyTheorems.HandsOverExactly` | ece565/programming_assignment/part_2_solutions/execute.cc:1198-1223 | The same of one iteration; and a reference loses its leave to go early exactly if its access is refused then |
| `EarlyTheorems.EarlyExactly` | ece565/programming_assignment/part_2_solutions/execute.cc:1208-1212 | The comparison with `instToWaitFor` succeeds exactly if nothing in flight must precede the reference |
| `EarlyTheorems.RunTight` | ece565/programming_assignment/part_2_solutions/execute.cc:750-773 | In every run each mark is past or names something in flight that must precede its reference; none may go early if `allowEarlyMemIssue` is off |
| `EarlyTheorems.MarkTight` | ece565/programming_assignment/part_2_solutions/execute.cc:750-773 | So is the mark when it is made |
| `EarlyTheorems.IterIssueMarks` | ece565/programming_assignment/part_2_solutions/execute.cc:750-773 | Exactly the references issued to a unit are marked, if the configuration allows it |
| `CommitTheorems.EarlyWaits` | ece565/programming_assignment/part_2_solutions/execute.cc:1208-1212 | A reference chosen to go early has nothing in flight that must precede it |
| `CommitTheorems.OutcomeShape` | ece565/programming_assignment/part_2_solutions/execute.cc:1264-1353 | Possible outcomes per way of picking; discarded implies completed |
| `IssueTheorems.IssueLoopEnds` | ece565/programming_assignment/part_2_solutions/execute.cc:577-867 | `issue` ends, and `IssueStopsExactly` says where; it consumes a prefix of the buffered slots and appends to `inFlightInsts` exactly the non-bubble, current-stream, unsuspended instructions of that prefix, in order; it counts them; both limits hold; `inputIndex` stays in range; every invariant is kept |
| `IssueLaws.IssueStopsExactly` | ece565/programming_assignment/part_2_solutions/execute.cc:842-864 | How far `issue` goes, without its loop variables: it stops with no input left, with a line used up if it takes only one, with `issueLimit` or `memoryIssueLimit` reached, with the next acceptable instruction refused by every unit, or with the last one in the last unit; and neither of the line and last-unit reasons held before |
| `IssueTheorems.IssueUpToKeeps` | ece565/programming_assignment/part_2_solutions/execute.cc:606-864 | The same after any number of iterations |
| `IssueTheorems.IterIssueKeeps` | ece565/programming_assignment/part_2_solutions/execute.cc:606-864 | One iteration keeps every invariant |
| `IssueTheorems.NextSlotStep` | ece565/programming_assignment/part_2_solutions/execute.cc:842-858 | Stepping `inputIndex` and popping a finished line is stepping along the flattened stream of slots |
| `IssueSpec.FindFU` | ece565/programming_assignment/part_2_solutions/execute.cc:639-806 | The unit chosen accepts the instruction and no earlier unit does |
| `QueueInvariants.QueueSend` | ece565/programming_assignment/part_2_solutions/execute.cc:1355-1369 | Handing the oldest unsent reference to the LSQ keeps the split of the references between the two queues and the order of sending |
| `QueueInvariants.QueueLeave` | ece565/programming_assignment/part_2_solutions/execute.cc:1363-1404 | Popping the head keeps it too, on the response, no-cost, unit, fault and discard paths |
| `QueueInvariants.QueueIssue` | ece565/programming_assignment/part_2_solutions/execute.cc:736-799 | Issuing keeps it |
| `UnitInvariants.EarlyIsNext` | ece565/programming_assignment/part_2_solutions/execute.cc:1198-1223 | The instruction at the end of the unit of the oldest unsent reference, if it qualifies, is that reference |
| `UnitInvariants.HeadAtEnd` | ece565/programming_assignment/part_2_solutions/execute.cc:1233-1261 | If the head's unit has an instruction with its number at the end, that is the head |
| `UnitInvariants.UnitAdvance` | ece565/gem5_org/src/cpu/minor/buffers.hh:345-362 | A clock edge loses no instruction still to be executed: a unit shifts only after its far end was dealt with |
| `UnitInvariants.UnitIssueSlots` | ece565/programming_assignment/part_2_solutions/execute.cc:677-783 | Pushing into a free unit keeps its contents in order |
| `DependencyInvariants.ScoreIssue` | ece565/gem5_org/src/cpu/minor/scoreboard.cc:107-149 | Marking destinations keeps: pending counts are the in-flight writers, the named writer is the youngest |
| `DependencyInvariants.ScoreLeave` | ece565/gem5_org/src/cpu/minor/scoreboard.cc:180-213 | Clearing the destinations of the head keeps it, and never takes a count below zero |
| `DependencyInvariants.WaitMark` | ece565/programming_assignment/part_2_solutions/execute.cc:750-773 | `instToWaitFor` covers every in-flight older barrier and every in-flight writer of a source, and lies before the instruction |
| `DependencyInvariants.BarrierLeave` | ece565/gem5_org/src/cpu/minor/lsq.cc:915-930 | Completing a barrier, committed or not, leaves every barrier in flight covered by `lastMemBarrier` |
| `DependencyInvariants.BarrierIssue` | ece565/gem5_org/src/cpu/minor/lsq.cc:1701-1711 | Issuing a barrier does too |
| `ExecuteStage.Execute.constructor` | ece565/programming_assignment/part_2_solutions/execute.cc:60-189 | A stage with one empty unit per operation latency, satisfying every invariant |
| `ExecuteStage.Execute.CommitMemRef` | ece565/programming_assignment/part_2_solutions/execute.cc:952-990 | A memory reference at the end of its unit, early or at the head |
| `ExecuteStage.Execute.CommitOneInst` | ece565/programming_assignment/part_2_solutions/execute.cc:923-1054 | All branches of `commitInst`, with the flags it returns; it completes exactly if the thread is awake or interrupted and: a fault; a reference there is room for whose early access is not refused; or an instruction that finds room in the store buffer if a barrier and the wire free if a quiesce |
| `ExecuteStage.Execute.TryResponse` | ece565/programming_assignment/part_2_solutions/execute.cc:1162-1181 | A response is discarded or completed |
| `ExecuteStage.Execute.TryToCommit` | ece565/programming_assignment/part_2_solutions/execute.cc:1263-1343 | Discard, barrier wait, delay or commit, then unstall; discarded implies completed |
| `ExecuteStage.Execute.TryPicked` | ece565/programming_assignment/part_2_solutions/execute.cc:1158-1353 | Both of these, with the source's own assertion about discards |
| `ExecuteStage.Execute.CommitStep` | ece565/programming_assignment/part_2_solutions/execute.cc:1113-1436 | One loop body is one step of the specification |
| `ExecuteStage.Execute.IssueToUnits` | ece565/programming_assignment/part_2_solutions/execute.cc:635-806 | The search through the units finds the first that accepts |
| `ExecuteStage.Execute.IssueStep` | ece565/programming_assignment/part_2_solutions/execute.cc:606-864 | One loop body is one step of the specification, whose loop goes exactly as far as `IssueStopsExactly` says |
| `ExecuteStage.Execute.CommitInsts` | ece565/programming_assignment/part_2_solutions/execute.cc:1056-1437 | The loop ends by its measure |inFlightInsts| + |inFUMemInsts|; it completes a prefix of the queue, keeps both limits, changes stream at most once with a signal that carries the thread's number and PC, lets only completed instructions of the starting stream take effect, none under `discard`, and keeps the invariant; it stops exactly where it must |
| `ExecuteStage.Execute.IssueInsts` | ece565/programming_assignment/part_2_solutions/execute.cc:577-867 | The loop consumes a prefix of the buffered slots, appends exactly the acceptable instructions among them, returns how many, keeps both limits and leaves the index in range and everything else alone; it stops only for one of the reasons of `IssueStopsExactly` |
| `ExecuteStage.Execute.EvaluateCycle` | ece565/programming_assignment/part_2_solutions/execute.cc:1446-1527 | A whole cycle keeps every invariant, takes the drain protocol forward, and any stream change on the wire carries the thread's number; in terms of the history, an interrupt or a halt goes out exactly when one is due |
| `ExecuteStage.Execute.DumpAllInput` | ece565/programming_assignment/part_2_solutions/execute.cc:1494-1495 | All input is dropped |
| `ExecuteStage.Execute.CommitForDrainState` | ece565/programming_assignment/part_2_solutions/execute.cc:1482-1516 | Commit as the drain state directs, then the halt |
| `ExecuteStage.Execute.RequestDrain` | ece565/programming_assignment/part_2_solutions/execute.cc:1849-1869 | The drain state requested |
| `ExecuteStage.Execute.ResumeFromDrain` | ece565/programming_assignment/part_2_solutions/execute.cc:1806-1816 | Back to not draining |
| `PortBinder.BindExactly` | ece565/gem5_org/configs/example/read_config.py:300-346 | On a list with both directions of every connection, without repeats and self pairs, in any walking order: the pass succeeds if and only if no connection joins two elements of one port and some choice of one direction each, in the order of the walk, binds every port's elements as 0, 1, 2, ... |
| `PortBinder.BindSound` | ece565/gem5_org/configs/example/read_config.py:300-346 | On such lists no unknown port is looked up, every port's elements are bound as 0, 1, 2, ..., and success means one direction of every connection was bound |
| `PortBinder.BindPorts` | ece565/gem5_org/configs/example/read_config.py:300-346 | The pass itself, for every list; on such lists the promises above |
| `PortBinder.KeepsUp` | ece565/gem5_org/configs/example/read_config.py:331-341 | The indices of the greedy pass never fall behind those of any possible binding |
| `PortBinder.GivesUpTooEarly` | ece565/gem5_org/configs/example/read_config.py:321-346 | Three connections whose sorted walk raises, although another order of the same connections binds all of them; the comment there says that sorting makes every pair bindable |
| `PortBinder.SomeWalkGivesUp` | ece565/gem5_org/configs/example/read_config.py:321-346 | Such connections exist |
| `PortBinder.ChainSorted` | ece565/gem5_org/configs/example/read_config.py:158-160 | That walk is the sorted one, by object name, port name and index |
| `PortBinder.ShowRoundTrip` | ece565/gem5_org/configs/example/read_config.py:144-156 | A printed port reads back exactly if and only if its port name is not empty and has no dot or bracket and its object name has no line break |
| `PortBinder.ReadsWithoutIndex` | ece565/gem5_org/configs/example/read_config.py:144-151 | A reference without an index is to element 0 |
| `PortBinder.IndexExactly` | ece565/gem5_org/configs/example/read_config.py:146-151 | What follows a port name is read as an index exactly if it is a number in brackets, and stands for 0 otherwise |
| `PortBinder.BindKeeps` | ece565/gem5_org/configs/example/read_config.py:331-341 | Binding a connection whose two ends are both next keeps the elements of each port in order and shares no port with an earlier one |
| `PortBinder.HalfIsAll` | ece565/gem5_org/configs/example/read_config.py:343-346 | Half the connections were bound exactly when all pairs were |
| `PipeView.OutputSorted` | ece565/gem5_org/util/o3-pipeview.py:45-66 | If no instruction arrives after more than `min_threshold` younger ones, everything leaves the queue, and is printed, in order of sequence numbers, for all thresholds and filters |
| `PipeView.OutputComplete` | ece565/gem5_org/util/o3-pipeview.py:155-186 | Every queued instruction leaves exactly once by the final flush |
| `PipeView.Printed` | ece565/gem5_org/util/o3-pipeview.py:164-186 | What is printed is, as often as it arrived, every arrival within the bounds that are set, committed if only those are asked for, and nothing else |
| `PipeView.PrintInOrder` | ece565/gem5_org/util/o3-pipeview.py:164-168 | A round of printing keeps the order because `min_threshold` instructions stay behind |
| `PipeView.SortSorts` | ece565/gem5_org/util/o3-pipeview.py:151-153 | The sort by sequence number sorts and permutes |
| `PipeView.SortStable` | ece565/gem5_org/util/o3-pipeview.py:151-153 | Instructions with the same number stay in the order they arrived in |
| `PipeView.QueueBound` | ece565/gem5_org/util/o3-pipeview.py:155-162 | The queue never stays longer than `max_threshold`, and nothing leaves it before it was |
| `PipeView.Viewer.PrintInsts` | ece565/gem5_org/util/o3-pipeview.py:164-186 | Sort, pop, filter: what leaves, what stays, what is printed |
| `PipeView.Viewer.QueueInst` | ece565/gem5_org/util/o3-pipeview.py:155-162 | Queue, and print when the queue is too long |
| `TraceLines.ProcessTrace` | ece565/gem5_org/util/o3-pipeview.py:68-147 | A whole trace, line by line: skipping to the start, collecting records, stopping. It raises exactly at a fetch past the stopping point (line 132 passes an argument too few), and then leaves the queue unprinted; otherwise every wanted instruction of the whole file is printed as often as it is there, and in order under the bound on disorder |
| `TraceLines.SkipLosesNothing` | ece565/gem5_org/util/o3-pipeview.py:81-103 | What is skipped at the start holds nothing that is wanted |
| `TraceLines.QueuedIs` | ece565/gem5_org/util/o3-pipeview.py:120-141 | What is queued at a retirement: number, tick and text of the last fetch, the tick of the retirement, and a mark if that is 0 |
| `TraceLines.ArrivalsSplit` | ece565/gem5_org/util/o3-pipeview.py:124-141 | Collecting begins afresh at each fetch: a record takes nothing over from the lines before it |
| `Upgrader.Migrate` | ece565/gem5_org/util/cpt_upgrader.py:239-251 | Ends; either every missing upgrade was applied once, each one after everything it depends on that the checkpoint did not have, and the tags are the old ones plus all known ones, or it aborts and no order at all does that |
| `Upgrader.KnotBlocks` | ece565/gem5_org/util/cpt_upgrader.py:241-245 | A set of tags each of which waits for another of them or for something unknown rules out every order |
| `Upgrader.StuckIsKnot` | ece565/gem5_org/util/cpt_upgrader.py:240-245 | What is left on an abort is such a set |
| `Upgrader.ApplyRound` | ece565/gem5_org/util/cpt_upgrader.py:247-251 | A round may be walked in any order |
| `Upgrader.LoadAll` | ece565/gem5_org/util/cpt_upgrader.py:172-184 | Loading succeeds exactly when every named tag exists; then the dependencies of each tag are its own plus the tags that name it as following them, in whatever order the scripts are visited |
| `Upgrader.ResolveForward` | ece565/gem5_org/util/cpt_upgrader.py:173-179 | One script's forward dependencies are turned round |
| `Upgrader.Audit` | ece565/gem5_org/util/cpt_upgrader.py:180-184 | Every dependency names a known tag |
| `Framing.FramesRoundTrip` | ece565/gem5_org/util/protolib.py:128-163 | A list of messages below 2^32 bytes reads back up to its first empty message; as the whole list exactly if none is empty |
| `Framing.VarintRoundTrip` | ece565/gem5_org/util/protolib.py:98-155 | A written varint reads back exactly if and only if it is below 2^32, modulo 2^32 below 2^63, and leaves what follows alone |
| `Framing.VarintReads` | ece565/gem5_org/util/protolib.py:98-126 | For every number: from 2^63 on it reads as negative, and from 2^70 on it has too many bytes |
| `Framing.FrameCut` | ece565/gem5_org/util/protolib.py:128-141 | A message that is cut off reads as the end of the file if its length is, and otherwise as what there is of it |
| `Framing.HugeLength` | ece565/gem5_org/util/protolib.py:128-141 | A length that reads as negative takes all that is left of the file |
| `Framing.FrameRoundTrip` | ece565/gem5_org/util/protolib.py:128-163 | One message reads back; an empty one reads as the end of the file |
| `Framing.EncodeVarint` | ece565/gem5_org/util/protolib.py:143-155 | The loop writes the base-128 groups |
| `Framing.DecodeVarint` | ece565/gem5_org/util/protolib.py:98-126 | The loop reads the number whose groups they are, for every byte stream: end of file, too many bytes and sign included |
| `Framing.EncodeMessage` | ece565/gem5_org/util/protolib.py:157-163 | Length, then message |
| `Framing.DecodeMessage` | ece565/gem5_org/util/protolib.py:128-141 | The next message, or none |
| `Framing.DecodeAll` | ece565/gem5_org/util/decode_inst_dep_trace.py:154 | Reading until there is no more |
| `DepTrace.LineRoundTrip` | ece565/gem5_org/util/encode_inst_dep_trace.py:147-194 | A printed record reads back, with pc 0 and weight 1 filled in, exactly if it is a load or store with address, size and flags or another valid record with none of them, and has no virtual address and no address space |
| `DepTrace.TraceRoundTrip` | ece565/gem5_org/util/encode_inst_dep_trace.py:147-194 | A trace of such records of any length, with dependency lists of any length, reads back record for record |
| `DepTrace.ParsedIsComplete` | ece565/gem5_org/util/encode_inst_dep_trace.py:152-179 | Every record the parser accepts is of that kind |
| `DepTrace.ParseAround` | ece565/gem5_org/util/encode_inst_dep_trace.py:148 | Blanks around a line do not matter |
| `DepTrace.PrintRecord` | ece565/gem5_org/util/decode_inst_dep_trace.py:157-203 | The line, written piece by piece |
| `DepTrace.PrintDeps` | ece565/gem5_org/util/decode_inst_dep_trace.py:190-201 | Each dependency behind a comma |
| `DepTrace.ParseLine` | ece565/gem5_org/util/encode_inst_dep_trace.py:148-192 | The record, or an error |
| `DepTrace.ParseDeps` | ece565/gem5_org/util/encode_inst_dep_trace.py:181-192 | Empty items are skipped |
| `DepTrace.PrintTrace` | ece565/gem5_org/util/decode_inst_dep_trace.py:154-203 | All lines |
| `DepTrace.ParseTrace` | ece565/gem5_org/util/encode_inst_dep_trace.py:147-195 | All records |
| `Aggregator.Relocated` | ece565/gem5_org/util/checkpoint_aggregator.py:94-109 | Every byte of every checkpoint's pages is in the merged image at its address plus the offset added to that checkpoint's `paddr` entries |
| `Aggregator.AddressFollows` | ece565/gem5_org/util/checkpoint_aggregator.py:69-74 | A cpu section's moved `paddr` leads to the byte the old one led to, and its other entries are unchanged |
| `Aggregator.RegionsApart` | ece565/gem5_org/util/checkpoint_aggregator.py:95-96 | The pages of two checkpoints do not overlap |
| `Aggregator.ImagesLength` | ece565/gem5_org/util/checkpoint_aggregator.py:95-109 | The copied length is the pages recorded exactly if no image is short |
| `Aggregator.NamesDistinct` | ece565/gem5_org/util/checkpoint_aggregator.py:58-92 | No two sections of the merged file have the same name |
| `Aggregator.RenameBack` | ece565/gem5_org/util/checkpoint_aggregator.py:65-67 | The old name and the tag can be recovered from a renamed section |
| `Aggregator.PartTags` | ece565/gem5_org/util/checkpoint_aggregator.py:56-67 | The tag tells which checkpoint a section comes from |
| `Aggregator.CopyPages` | ece565/gem5_org/util/checkpoint_aggregator.py:102-109 | The page loop copies the pages, or what there is of them |
| `Aggregator.Pad` | ece565/gem5_org/util/checkpoint_aggregator.py:118-126 | Padding up to the memory size with pages of the character 0 |
| `Aggregator.CopySections` | ece565/gem5_org/util/checkpoint_aggregator.py:64-89 | Which sections are kept, renamed and moved |
| `Aggregator.Aggregate` | ece565/gem5_org/util/checkpoint_aggregator.py:41-134 | The merge: all sections with all their entries, moved addresses, process numbers, the new `system` and `Globals` sections, `range_size` in the last checkpoint's store section; the image is all pages, then padding, and is as long as `range_size` exactly if no input image is short; errors for no checkpoints and for a missing store section |
| `Aggregator.MergedReads` | ece565/gem5_org/util/checkpoint_aggregator.py:114-134 | What is written anew reads back: `pagePtr` is the number of all pages, `nextPID` that of the checkpoints, `curTick` the latest tick, and `range_size` of the store the size of the padded image |
| `Aggregator.ProcessNumbers` | ece565/gem5_org/util/checkpoint_aggregator.py:76-77 | A cpu section keeps its process number, unless its name ends in workload, any character and FdMap256: then it gets the number of its checkpoint |
| `Aggregator.LastIsKept` | ece565/gem5_org/util/checkpoint_aggregator.py:86-89 | Every other section of the last checkpoint is kept as it is, but for system and Globals |
| `Aggregator.PaddedLeast` | ece565/gem5_org/util/checkpoint_aggregator.py:118-126 | The padding reaches the memory size with the fewest pages |
| `Aggregator.MaxTickIsLatest` | ece565/gem5_org/util/checkpoint_aggregator.py:81-84 | The merged tick is the latest of all checkpoints, or 0 |
| `CacheTree.TreeTesters` | ece565/gem5_org/configs/example/memtest.py:116-127 | The testers the recursion creates are as many as the closed form counts |
| `CacheTree.WidthProduct` | ece565/gem5_org/configs/example/memtest.py:239-240 | Subsystems per level are the product of the cache numbers below |
| `CacheTree.NumTesters` | ece565/gem5_org/configs/example/memtest.py:116-127 | The two loops compute the closed form |
| `CacheTree.CheckSpec` | ece565/gem5_org/configs/example/memtest.py:152-177 | Accepts exactly the valid specifications, and otherwise names a problem they have |
| `CacheTree.ScalePrototypes` | ece565/gem5_org/configs/example/memtest.py:179-214 | One prototype per level, each scaled by the product of the cache numbers, latencies by powers of ten, inclusivity alternating |
| `CacheTree.NameInjective` | ece565/gem5_org/configs/example/memtest.py:245 | Level and index can be recovered from a subsystem's name |
| `CacheTree.Builder.MakeCacheLevel` | ece565/gem5_org/configs/example/memtest.py:236-297 | A subtree: testers created, indices used, names all different, the error exit never taken, no list indexed out of range |
| `CacheTree.Builder.MakeSubtrees` | ece565/gem5_org/configs/example/memtest.py:273-279 | One subtree per cache |
| `CacheTree.Builder.Build` | ece565/gem5_org/configs/example/memtest.py:299-300 | The whole tree has exactly `numtesters` testers, at most 64, and its subsystems have different names |
| `YearRanges.YearsRoundTrip` | ece565/gem5_org/util/find_copyrights.py:98-116 | Reading a printed set of years gives it back exactly if all neighbouring years in it have four digits |
| `YearRanges.RunsAreFewest` | ece565/gem5_org/util/find_copyrights.py:175-199 | No other list of ranges for the same years is shorter than the printed one |
| `YearRanges.DateStr` | ece565/gem5_org/util/find_copyrights.py:175-199 | The printed ranges hold exactly the years, increase, are disjoint and never adjacent; the text reads back as the same set exactly if all neighbouring years in it have four digits; nothing can be printed for no years |
| `YearRanges.ProcessDates` | ece565/gem5_org/util/find_copyrights.py:98-116 | Ranges, single years and unreadable entries, for every text |
| `YearRanges.SpacedRoundTrip` | ece565/gem5_org/util/find_copyrights.py:98-99 | The same of a text with blanks around its ranges |
| `YearRanges.BlanksDoNotMatter` | ece565/gem5_org/util/find_copyrights.py:99 | Blanks around the entries of any list do not change what is read |
| `YearRanges.MatchesSpelled` | ece565/gem5_org/util/find_copyrights.py:97 | Four digits, a dash among blanks and four digits are a range, whatever follows |
| `YearRanges.SpelledIfMatches` | ece565/gem5_org/util/find_copyrights.py:97 | Nothing else is |
| `YearRanges.EntryRange` | ece565/gem5_org/util/find_copyrights.py:97-106 | How a printed range reads back, also when an end has more or fewer than four digits |

## Left out

- More than one hardware thread: thread choice and its fairness, and the missing thread test in the early-issue condition (`execute.cc` lines 1208-1212), which only matters then.
- `checkInterrupts` is one decision per cycle: with one thread its loop does not move on when an interrupt is pending and not taken, so it needs a controller that then withdraws the interrupt.
- The insides of the LSQ, the ISA, the branch predictor and the timing of units: booleans of the environment; `extraCommitDelay` and `minimumCommitCycle` are the boolean `delayed`, operand readiness and unit capability are `accepts`. What the LSQ does with a reference that was handed over past a barrier is not modelled.
- The probability in `degrade_branch_predictor`: its answer is arbitrary.
- Statistics, tracing, activity recording, the need-to-tick decision and `lastPredictionSeqNum`.
- A signal left on the wire at the start of a cycle: with one thread the wire is always empty then.
- Progress of runs that are not draining, and of `DrainCurrentInst` while it waits for fetch, memory or an interrupt. A wake-up or a PC event while everything is being drained, and a halt signal still under way at a resume, are covered and safe, but fetch may then wait for ever.
- Lines on their way through Fetch2 and Decode: delivery is one step, so a thread that dozes may be handed instructions of its stream at any time, and waking it is only promised not to happen before the stream changes.
- Whether a sleeping thread that is being drained comes to panic: a drain may change the stream first.
- The example runs use instructions that need no functional unit, apart from the memory references and the branch and sleeper of one cycle.
- PortBinder.BindPorts: takes the walking order as an argument instead of sorting, since its promises hold for every order; the assignment of ports to objects is not modelled.
- TraceLines.ProcessTrace: starts from lines already split into fields; a field that is no number raises in the original. The drawing of timelines and store completions are not modelled.
- Downgraders: the comment in `cpt_upgrader.py` lines 56-61 says that depending on a tag with a downgrader means insisting on its removal, which `ready` does not do. The legacy version chain is not modelled either.
- Message serialisation: a message is the bytes it serialises to. Field widths of trace records are not bounded.
- DepTrace.ParseLine: blanks after a sign and a trailing `L`, which `long()` accepts in Python 2, are errors here.
- Aggregator.Aggregate: `paddr`, `pagePtr` and `curTick` entries are numbers; the original raises where they are not. Compression is the identity on images.
- The memory tester's random topologies, clocks, ports and intervals.
- Cache, Ruby, full-system and simulation configuration scripts, style and kernel scripts: wiring and user interface that would only add easy members.
