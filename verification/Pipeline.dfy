/**
  Execute together with the front of the pipeline.  The front end (Fetch1,
  Fetch2, Decode and the latches between them) is reduced to what Execute can
  observe: it delivers instructions of one stream along its own predictions
  until a signal from Execute reaches it, any number of cycles later.
 */
module Pipeline {
  import opened Options
  import opened MinorTypes
  import opened CommitSpec
  import opened IssueSpec
  import opened CycleSpec
  import opened QueueLemmas
  import opened CommitTheorems
  import opened IssueTheorems
  import opened CycleTheorems

  datatype FetchState = Running | Waiting | Halted

  /** The next instruction delivered is at `pc` in `stream`; `signals` are the
      stream changes on their way from Execute, oldest first. */
  datatype Front = Front(stream: SeqNum, pc: PC, state: FetchState, signals: seq<BranchData>)

  datatype System = System(ex: State, fr: Front)

  /** Where the front end goes after an instruction. */
  function Next(cfg: Config, i: Inst): PC {
    if i.predictedTaken then i.predictedTarget else cfg.advance(i, i.pc)
  }

  /** q starts at pc and follows its own predictions. */
  ghost predicate Path(cfg: Config, pc: PC, q: seq<Inst>)
    decreases q
  {
    q == [] || (q[0].pc == pc && Path(cfg, Next(cfg, q[0]), q[1..]))
  }

  ghost function End(cfg: Config, pc: PC, q: seq<Inst>): PC
    decreases q
  {
    if q == [] then pc else End(cfg, Next(cfg, q[0]), q[1..])
  }

  ghost function OfStream(q: seq<Inst>, stream: SeqNum): seq<Inst> {
    if q == [] then []
    else (if q[0].stream == stream then [q[0]] else []) + OfStream(q[1..], stream)
  }

  /** Instructions of the current stream that the thread may still execute, in
      order: those in flight and, unless it dozes, those to be issued. */
  ghost function Current(s: State, dozing: bool): seq<Inst> {
    OfStream(s.q.inFlight + (if dozing then [] else Pending(s.inp)), s.th.stream)
  }

  // ---------- Steps ----------

  datatype Event =
    | Cycle(env: CycleEnv)
    | TakeSignal(woken: bool)     // a signal reaches the front end
    | Wake                        // the sleeping thread is activated
    | RequestDrain(accesses: bool)
    | Resume

  ghost function Deliver(cfg: Config, fr: Front, line: seq<Option<Inst>>): Front {
    if BubbleLine(line) then fr else fr.(pc := End(cfg, fr.pc, Reals(line)))
  }

  function Wire(b: BranchData): seq<BranchData> {
    if IsStreamChange(b.reason) then [b] else []
  }

  function React(fr: Front, woken: bool): Front
    requires fr.signals != []
  {
    var b := fr.signals[0];
    if fr.state == Halted then fr.(signals := fr.signals[1..])
    else
      Front(b.newStream, b.target,
            match b.reason { case HaltFetch => Halted
                             case SuspendThread => if woken then Running else Waiting
                             case _ => Running },
            fr.signals[1..])
  }

  ghost function Apply(cfg: Config, sys: System, ev: Event): System
    requires ev.TakeSignal? ==> sys.fr.signals != []
  {
    match ev
    case Cycle(e) =>
      var fr := Deliver(cfg, sys.fr, e.line);
      var ex := Evaluate(cfg, sys.ex, e);
      System(ex, fr.(signals := fr.signals + Wire(ex.th.branch)))
    case TakeSignal(woken) => System(sys.ex, React(sys.fr, woken))
    case Wake =>
      System(sys.ex.(th := sys.ex.th.(suspended := false)), sys.fr.(pc := sys.ex.th.pc, state := Running))
    case RequestDrain(accesses) => System(Drain(sys.ex, accesses), sys.fr)
    case Resume =>
      System(DrainResume(sys.ex.(th := sys.ex.th.(suspended := false))), sys.fr.(pc := sys.ex.th.pc, state := Running))
  }

  // ---------- What can happen ----------

  /** Decode hands over the front end's next instructions, freshly numbered. */
  ghost predicate Delivers(cfg: Config, sys: System, line: seq<Option<Inst>>) {
    BubbleLine(line)
    || (&& sys.fr.state == Running
        && Increasing((sys.ex.q.issued + Pending(sys.ex.inp)) + Reals(line))
        && (forall i | i in Reals(line) :: WellFormed(i) && i.stream == sys.fr.stream)
        && Path(cfg, sys.fr.pc, Reals(line)))
  }

  /** What can happen, whatever instructions do to their thread. */
  ghost predicate Possible(cfg: Config, sys: System, ev: Event) {
    match ev
    case Cycle(e) => Delivers(cfg, sys, e.line)
    case TakeSignal(woken) => sys.fr.signals != [] && (woken ==> !sys.ex.th.suspended)
    case Wake => sys.ex.th.suspended
    case RequestDrain(_) => true
    case Resume => sys.fr.state != Running && sys.ex.q.inFlight == [] && sys.ex.inp.lines == []
  }

  ghost predicate PossibleRun(cfg: Config, sys: System, evs: seq<Event>)
    decreases |evs|
  {
    evs != [] ==> Possible(cfg, sys, evs[0]) && PossibleRun(cfg, Apply(cfg, sys, evs[0]), evs[1..])
  }

  ghost function Run(cfg: Config, sys: System, evs: seq<Event>): System
    requires PossibleRun(cfg, sys, evs)
    decreases |evs|
  {
    if evs == [] then sys else Run(cfg, Apply(cfg, sys, evs[0]), evs[1..])
  }

  /** What arrives is fresh and of no stream yet to come. */
  lemma PossibleLine(cfg: Config, sys: System, line: seq<Option<Inst>>)
    requires sys.fr.stream <= sys.ex.th.stream && Delivers(cfg, sys, line)
    ensures BubbleLine(line) || LineOK(sys.ex, line)
  {
    hide Path, Increasing, Pending, Reals;
  }

  lemma RunCons(cfg: Config, sys: System, ev: Event, evs: seq<Event>)
    requires Possible(cfg, sys, ev) && PossibleRun(cfg, Apply(cfg, sys, ev), evs)
    ensures PossibleRun(cfg, sys, [ev] + evs) && Run(cfg, sys, [ev] + evs) == Run(cfg, Apply(cfg, sys, ev), evs)
  {
    hide Apply, Possible;
    assert ([ev] + evs)[1..] == evs && ([ev] + evs)[0] == ev;
  }

  /** One run after another. */
  lemma {:induction false} RunOn(cfg: Config, sys: System, evs: seq<Event>, more: seq<Event>)
    requires PossibleRun(cfg, sys, evs) && PossibleRun(cfg, Run(cfg, sys, evs), more)
    ensures PossibleRun(cfg, sys, evs + more)
    ensures Run(cfg, sys, evs + more) == Run(cfg, Run(cfg, sys, evs), more)
    decreases |evs|
  {
    hide Apply, Delivers, Evaluate, React;
    if evs == [] {
      assert evs + more == more;
    } else {
      assert (evs + more)[1..] == evs[1..] + more && (evs + more)[0] == evs[0];
      RunOn(cfg, Apply(cfg, sys, evs[0]), evs[1..], more);
    }
  }

  // ---------- The commit call of a cycle ----------

  /** The commit call of this cycle, if there is one. */
  ghost function CommitArgs(s: State, e: CycleEnv): (State, bool, bool) {
    if s.drain == DrainAllInsts then (s.(inp := DumpInput(s.inp)), false, true)
    else (s, s.drain == DrainCurrentInst || e.interrupted, false)
  }

  /** The cycle has a commit call. */
  ghost predicate CallsCommit(s: State, e: CycleEnv) { s.drain != DrainHaltFetch && !InterruptTaken(s, e) }

  lemma DumpedArgs(s: State, e: CycleEnv)
    ensures Dumped(Dumped(s)) == Dumped(s) && CommitArgs(Dumped(s), e) == CommitArgs(s, e)
    ensures CallsCommit(Dumped(s), e) == CallsCommit(s, e)
  {
    DumpTwice(s.inp);
    hide DumpInput;
  }

  // ---------- What is promised about sleeping threads ----------

  /** A thread dozes if an instruction put it to sleep and the stream has not
      changed since: what was fetched behind that instruction is still current.
      From th to th', dozing before or not. */
  ghost predicate DozesOn(dozing: bool, th: Thread, th': Thread) {
    th'.suspended && th'.stream == th.stream && (dozing || !th.suspended)
  }

  /** Nothing is fetched for a sleeping thread: only one that dozes is still handed
      instructions of its stream. */
  ghost predicate Quiet(sys: System, dozing: bool, line: seq<Option<Inst>>) {
    BubbleLine(line) || !sys.ex.th.suspended || dozing || sys.fr.stream != sys.ex.th.stream
  }

  /** A thread that dozes is woken only once the stream has changed. */
  ghost predicate Legal(cfg: Config, sys: System, dozing: bool, ev: Event) {
    Possible(cfg, sys, ev) &&
    match ev
    case Cycle(e) => Quiet(sys, dozing, e.line)
    case Wake => !dozing
    case _ => true
  }

  ghost predicate LegalFrom(cfg: Config, sys: System, dozing: bool, evs: seq<Event>): (legal: bool)
    ensures legal ==> PossibleRun(cfg, sys, evs)
    decreases |evs|
  {
    evs != [] ==>
      && Legal(cfg, sys, dozing, evs[0])
      && var sys' := Apply(cfg, sys, evs[0]);
         LegalFrom(cfg, sys', DozesOn(dozing, sys.ex.th, sys'.ex.th), evs[1..])
  }

  /** From a thread that does not doze. */
  ghost predicate LegalRun(cfg: Config, sys: System, evs: seq<Event>): (legal: bool)
    ensures legal ==> PossibleRun(cfg, sys, evs)
  {
    LegalFrom(cfg, sys, false, evs)
  }

  // ---------- Falling asleep ----------

  /** Some instruction in flight is of the thread's stream and not in the LSQ. */
  ghost predicate Unfinished(s: State) {
    exists i | i in s.q.inFlight :: i.stream == s.th.stream && i.id !in s.q.inLSQ
  }

  /** In this iteration the head takes effect and puts its thread to sleep. */
  ghost predicate PutsToSleep(cfg: Config, s: State, c: Ctl, onlyMicroops: bool, discard: bool, e: IterEnv)
    requires s.q.inFlight != []
  {
    e.suspends && !HasPCEvent(s, e) && CommitIter(cfg, s, c, onlyMicroops, discard, e).0.th.log != s.th.log
  }

  /** The head changes the stream if it puts its thread to sleep. */
  ghost predicate HeadResteers(cfg: Config, s: State, e: IterEnv)
    requires s.q.inFlight != []
  {
    Resteers(cfg, s.th, s.q.inFlight[0], s.q.inFlight[0].id in s.q.inLSQ, e)
  }

  /** Behind the head nothing of the thread's stream is in flight outside the LSQ. */
  ghost predicate NoneBehind(s: State)
    requires s.q.inFlight != []
  {
    forall i | i in s.q.inFlight[1..] :: i.stream == s.th.stream ==> i.id in s.q.inLSQ
  }
}
