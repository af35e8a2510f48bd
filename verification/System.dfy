/** Many callers, one reader thread, a pipe and tmux, one atomic step at a time.  Threads
    interleave between steps; only the lock keeps a step from happening. */
module Systems {
  import opened Text
  import opened Parsers
  import opened Engines
  import opened Streams
  import opened Transcripts
  import opened Drivers

  /** Where a call of `command` is: inside the critical section with its id and
      `put` bytes of its line written, blocked on its reply channel, or back at its caller. */
  datatype Phase = Writing(id: CommandId, put: nat) | Waiting(id: CommandId) | Returned(result: CommandResult)

  datatype Call = Call(cmd: string, phase: Phase)

  datatype Reader = Running | Ending | Stopped

  /** tmux's reply to one command line. */
  datatype Answer = Answer(line: string, result: CommandResult)

  /** The lock's content and holder, the calls, the reader thread with the chunk it holds,
      and the bytes in the pipe.  The rest is history: the registered commands and their
      callers in id order, how much of a command's line went out before its write failed,
      what tmux wrote and answered, and the bytes fed to the engine. */
  datatype System = System(
    shared: SharedState, lock: Option<CallId>, calls: map<CallId, Call>,
    reader: Reader, inHand: string, pipe: string,
    cmds: seq<string>, owners: seq<CallId>, failed: Option<nat>,
    items: seq<Item>, answers: seq<Answer>, fed: string)

  const INITIAL := System(SharedState(NEW_DRIVER, true), None, map[], Running, "", "", [], [], None, [], [], "")

  const READ_SIZE: nat := 8192

  datatype Step =
    | Start(call: CallId, cmd: string)
    | Put(n: nat)
    | PutFails
    | Park
    | Wake(call: CallId, delivery: nat)
    | Emit(item: Item)
    | Read(n: nat)
    | ReadInterrupted
    | ReadEnds
    | Dispatch
    | Disconnect

  /** The call inside the critical section. */
  function Holding(s: System): Option<Call> {
    if s.lock.Some? && s.lock.value in s.calls && s.calls[s.lock.value].phase.Writing?
    then Some(s.calls[s.lock.value]) else None
  }

  predicate IsControl(item: Item) { item.Block? && item.flags != 0 }

  /** A caller brings one non-empty line; tmux answers the complete lines it was sent, one
      control block each, in order; a read returns some of the pipe's bytes, or ends. */
  predicate Enabled(s: System, step: Step) {
    match step
    case Start(call, cmd) => s.lock.None? && call !in s.calls && cmd != "" && '\n' !in cmd
    case Put(n) => Holding(s).Some? && 1 <= n && Holding(s).value.phase.put + n <= |Holding(s).value.cmd| + 1
    case PutFails => Holding(s).Some?
    case Park => Holding(s).Some? && Holding(s).value.phase.put == |Holding(s).value.cmd| + 1
    case Wake(call, k) =>
      && call in s.calls && s.calls[call].phase.Waiting?
      && k < |s.shared.driver.sent| && s.shared.driver.sent[k].call == call
    case Emit(item) =>
      && Writable(item) && (item.Block? ==> item.closed)
      && (IsControl(item) ==> |s.answers| < |Lines(s.shared.driver.written)|)
    case Read(n) => s.reader.Running? && s.inHand == "" && 1 <= n <= |s.pipe| && n <= READ_SIZE
    case ReadInterrupted => s.reader.Running? && s.inHand == ""
    case ReadEnds => s.reader.Running? && s.inHand == ""
    case Dispatch => s.reader.Running? && s.inHand != "" && s.lock.None?
    case Disconnect => s.reader.Ending? && s.lock.None?
  }

  function Moved(s: System, call: CallId, phase: Phase): map<CallId, Call>
    requires call in s.calls
  {
    s.calls[call := s.calls[call].(phase := phase)]
  }

  function Started(s: System, call: CallId, cmd: string): System {
    if !s.shared.connected then s.(calls := s.calls[call := Call(cmd, Returned(Disconnected))])
    else s.(lock := Some(call), calls := s.calls[call := Call(cmd, Writing(s.shared.driver.engine.nextId, 0))],
            shared := s.shared.(driver := s.shared.driver.(engine := AfterRegister(s.shared.driver.engine))),
            cmds := s.cmds + [cmd], owners := s.owners + [call])
  }

  function PutMore(s: System, n: nat): System
    requires Enabled(s, Put(n))
  {
    var Call(cmd, Writing(id, put)) := Holding(s).value;
    var driver := s.shared.driver;
    s.(calls := Moved(s, s.lock.value, Writing(id, put + n)),
       shared := s.shared.(driver := driver.(written := driver.written + CommandLine(cmd)[put..put + n])))
  }

  function WriteFailed(s: System): System
    requires Enabled(s, PutFails)
  {
    s.(calls := Moved(s, s.lock.value, Returned(Disconnected)), lock := None,
       shared := s.shared.(connected := false), failed := Some(Holding(s).value.phase.put))
  }

  function Parked(s: System): System
    requires Enabled(s, Park)
  {
    var driver := s.shared.driver;
    var id := Holding(s).value.phase.id;
    s.(calls := Moved(s, s.lock.value, Waiting(id)), lock := None,
       shared := s.shared.(driver := driver.(waiters := driver.waiters[id := s.lock.value])))
  }

  /** A control block answers the next line in turn. */
  function AnswersAfter(answers: seq<Answer>, lines: seq<string>, item: Item): seq<Answer>
    requires IsControl(item) ==> |answers| < |lines|
  {
    if IsControl(item) then answers + [Answer(lines[|answers|], ResultOf(item))] else answers
  }

  function Emitted(s: System, item: Item): System
    requires Enabled(s, Emit(item))
  {
    var lines := Lines(s.shared.driver.written);
    s.(items := s.items + [item], pipe := s.pipe + Unlines(ItemLines(item)),
       answers := AnswersAfter(s.answers, lines, item))
  }

  function After(s: System, step: Step): System
    requires Enabled(s, step)
  {
    match step
    case Start(call, cmd) => Started(s, call, cmd)
    case Put(n) => PutMore(s, n)
    case PutFails => WriteFailed(s)
    case Park => Parked(s)
    case Wake(call, k) => s.(calls := Moved(s, call, Returned(s.shared.driver.sent[k].result)))
    case Emit(item) => Emitted(s, item)
    case Read(n) => s.(inHand := s.pipe[..n], pipe := s.pipe[n..])
    case ReadInterrupted => s
    case ReadEnds => s.(reader := Ending)
    case Dispatch =>
      s.(shared := s.shared.(driver := Arrived(s.shared.driver, s.inHand)), inHand := "", fed := s.fed + s.inHand)
    case Disconnect => s.(shared := AfterDisconnect(s.shared), reader := Stopped)
  }

  predicate Possible(s: System, steps: seq<Step>)
    decreases |steps|
  {
    steps == [] || (Enabled(s, steps[0]) && Possible(After(s, steps[0]), steps[1..]))
  }

  /** The state after a run. */
  function Run(s: System, steps: seq<Step>): System
    requires Possible(s, steps)
    decreases |steps|
  {
    if steps == [] then s else Run(After(s, steps[0]), steps[1..])
  }
}
