/** Every interleaving of callers and reader thread leaves the shared state as some
    one-at-a-time schedule of whole calls and whole chunks does, so what is proved of the
    drivers' methods on schedules holds of the threads. */
module Linearization {
  import opened Text
  import opened Notifications
  import opened Engines
  import opened Streams
  import opened Transcripts
  import opened Drivers
  import opened DriverTheorems
  import opened Systems
  import opened SystemInvariant

  /** The call or chunk whose effect on the shared state a step completes. */
  function EvOf(s: System, step: Step): seq<Ev>
    requires Enabled(s, step)
  {
    match step
    case PutFails => [Ask(s.lock.value, Holding(s).value.cmd, Broken(Holding(s).value.phase.put))]
    case Park => [Ask(s.lock.value, Holding(s).value.cmd, Complete)]
    case Dispatch => [Arrive(s.inHand)]
    case _ => []
  }

  function Schedule(s: System, steps: seq<Step>): seq<Ev>
    requires Possible(s, steps)
    decreases |steps|
  {
    if steps == [] then [] else EvOf(s, steps[0]) + Schedule(After(s, steps[0]), steps[1..])
  }

  function AfterEvs(s: SharedState, evs: seq<Ev>): SharedState
    decreases |evs|
  {
    if evs == [] then s else AfterEvs(AfterEv(s, evs[0]), evs[1..])
  }

  lemma {:induction false} AfterEvsAppend(s: SharedState, a: seq<Ev>, b: seq<Ev>)
    ensures AfterEvs(s, a + b) == AfterEvs(AfterEvs(s, a), b)
    decreases |a|
  {
    hide AfterEv;
    if a == [] {
      assert a + b == b;
    } else {
      assert (a + b)[1..] == a[1..] + b;
      AfterEvsAppend(AfterEv(s, a[0]), a[1..], b);
    }
  }

  /** The shared state while a call is registered and has written part of its line. */
  function InSection(base: SharedState, cmd: string, put: nat): SharedState
    requires put <= |cmd| + 1
  {
    base.(driver := base.driver.(engine := AfterRegister(base.driver.engine),
                                 written := base.driver.written + CommandLine(cmd)[..put]))
  }

  /** The shared state is `base`, or `base` with the holder's call under way, or `base`
      disconnected for good. */
  predicate Staged(s: System, base: SharedState) {
    match Holding(s)
    case Some(Call(cmd, Writing(id, put))) =>
      base.connected && id == base.driver.engine.nextId && put <= |cmd| + 1 && s.shared == InSection(base, cmd, put)
    case _ => s.shared == if s.reader.Stopped? then AfterDisconnect(base) else base
  }

  /** A locked client has a call in the critical section, and a stopped one is unlocked. */
  lemma Unlocked(s: System)
    requires Consistent(s)
    ensures s.lock.Some? <==> Holding(s).Some?
    ensures s.reader.Stopped? ==> s.lock.None? && !s.shared.connected
  {
    hide PipeOk, EngineOk, WireOk, ServerOk, DeliveryOk, Seen;
  }

  lemma SectionBegins(base: SharedState, cmd: string)
    requires base.connected
    ensures InSection(base, cmd, 0) == SharedState(base.driver.(engine := AfterRegister(base.driver.engine)), true)
  {
    assert CommandLine(cmd)[..0] == "" && base.driver.written + "" == base.driver.written;
  }

  lemma SectionGrows(base: SharedState, cmd: string, put: nat, n: nat)
    requires put + n <= |cmd| + 1
    ensures var d := InSection(base, cmd, put).driver;
            InSection(base, cmd, put + n)
            == SharedState(d.(written := d.written + CommandLine(cmd)[put..put + n]), base.connected)
    ensures InSection(base, cmd, put).connected == base.connected
  {
    var line := CommandLine(cmd);
    ConcatAssoc(base.driver.written, line[..put], line[put..put + n]);
    assert line[..put] + line[put..put + n] == line[..put + n];
  }

  lemma SectionBreaks(base: SharedState, call: CallId, cmd: string, put: nat)
    requires base.connected && put <= |cmd| + 1
    ensures AfterCommand(base, call, cmd, Broken(put)) == SharedState(InSection(base, cmd, put).driver, false)
  {
    hide AfterRegister;
  }

  lemma SectionEnds(base: SharedState, call: CallId, cmd: string)
    requires base.connected
    ensures var d := InSection(base, cmd, |cmd| + 1).driver;
            AfterCommand(base, call, cmd, Complete)
            == SharedState(d.(waiters := d.waiters[base.driver.engine.nextId := call]), true)
  {
    hide AfterRegister;
    assert CommandLine(cmd)[..|cmd| + 1] == CommandLine(cmd);
  }

  lemma StagedStart(s: System, base: SharedState, call: CallId, cmd: string)
    requires Consistent(s) && Staged(s, base) && Enabled(s, Start(call, cmd))
    ensures Staged(Started(s, call, cmd), base)
  {
    hide Consistent, Writable, ItemLines, Lines;
    Unlocked(s);
    hide InSection, AfterDisconnect, AfterRegister;
    if s.shared.connected {
      SectionBegins(base, cmd);
    }
  }

  lemma StagedPut(s: System, base: SharedState, n: nat)
    requires Consistent(s) && Staged(s, base) && Enabled(s, Put(n))
    ensures Staged(PutMore(s, n), base)
  {
    hide Consistent, Writable, ItemLines, Lines, InSection, AfterDisconnect;
    SectionGrows(base, Holding(s).value.cmd, Holding(s).value.phase.put, n);
  }

  lemma StagedPutFails(s: System, base: SharedState)
    requires Consistent(s) && Staged(s, base) && Enabled(s, PutFails)
    ensures var Call(cmd, Writing(_, put)) := Holding(s).value;
            Staged(WriteFailed(s), AfterEv(base, Ask(s.lock.value, cmd, Broken(put))))
  {
    hide Consistent, Writable, ItemLines, Lines;
    Unlocked(s);
    hide InSection, AfterDisconnect, AfterCommand;
    SectionBreaks(base, s.lock.value, Holding(s).value.cmd, Holding(s).value.phase.put);
  }

  lemma StagedPark(s: System, base: SharedState)
    requires Consistent(s) && Staged(s, base) && Enabled(s, Park)
    ensures Staged(Parked(s), AfterEv(base, Ask(s.lock.value, Holding(s).value.cmd, Complete)))
  {
    hide Consistent, Writable, ItemLines, Lines;
    Unlocked(s);
    hide InSection, AfterDisconnect, AfterCommand;
    SectionEnds(base, s.lock.value, Holding(s).value.cmd);
  }

  lemma StagedStep(s: System, base: SharedState, step: Step)
    requires Consistent(s) && Staged(s, base) && Enabled(s, step)
    ensures Staged(After(s, step), AfterEvs(base, EvOf(s, step)))
  {
    hide Writable, Lines;
    OneEv(s, base, step);
    hide Consistent, Staged, Started, PutMore, WriteFailed, Parked, Emitted, Enabled;
    hide AfterEvs, AfterEv, EvOf, Arrived, AfterDisconnect;
    match step {
      case Start(call, cmd) => StagedStart(s, base, call, cmd);
      case Put(n) => StagedPut(s, base, n);
      case PutFails => StagedPutFails(s, base);
      case Park => StagedPark(s, base);
      case Wake(call, k) => StagedWake(s, base, call, k);
      case Emit(item) => StagedElsewhere(s, base, step);
      case Read(n) => StagedElsewhere(s, base, step);
      case ReadInterrupted => StagedElsewhere(s, base, step);
      case ReadEnds => StagedElsewhere(s, base, step);
      case Dispatch => StagedDispatch(s, base);
      case Disconnect => StagedDisconnect(s, base);
    }
  }

  lemma OneEv(s: System, base: SharedState, step: Step)
    requires Enabled(s, step)
    ensures AfterEvs(base, EvOf(s, step)) == match step
              case PutFails =>
                AfterEv(base, Ask(s.lock.value, Holding(s).value.cmd, Broken(Holding(s).value.phase.put)))
              case Park => AfterEv(base, Ask(s.lock.value, Holding(s).value.cmd, Complete))
              case Dispatch => AfterEv(base, Arrive(s.inHand))
              case _ => base
  {
    hide AfterEv, Writable, Lines;
    var evs := EvOf(s, step);
    assert evs != [] ==> evs[1..] == [];
  }

  lemma StagedWake(s: System, base: SharedState, call: CallId, k: nat)
    requires Consistent(s) && Staged(s, base) && Enabled(s, Wake(call, k))
    ensures Staged(After(s, Wake(call, k)), base)
  {
    hide Consistent, Writable, ItemLines, Lines, InSection, AfterDisconnect;
  }

  lemma StagedElsewhere(s: System, base: SharedState, step: Step)
    requires Consistent(s) && Staged(s, base) && Enabled(s, step)
    requires step.Emit? || step.Read? || step.ReadInterrupted? || step.ReadEnds?
    ensures Staged(After(s, step), base)
  {
    hide Consistent, Writable, ItemLines, Lines, InSection, AfterDisconnect;
  }

  lemma StagedDispatch(s: System, base: SharedState)
    requires Consistent(s) && Staged(s, base) && Enabled(s, Dispatch)
    ensures Staged(After(s, Dispatch), AfterEv(base, Arrive(s.inHand)))
  {
    hide Consistent, Writable, ItemLines, Lines, InSection, AfterDisconnect, Arrived;
  }

  lemma StagedDisconnect(s: System, base: SharedState)
    requires Consistent(s) && Staged(s, base) && Enabled(s, Disconnect)
    ensures Staged(After(s, Disconnect), base)
  {
    hide Consistent, Writable, ItemLines, Lines, InSection, AfterDisconnect;
  }

  lemma {:induction false} StagedRun(s: System, base: SharedState, steps: seq<Step>)
    requires Consistent(s) && Staged(s, base) && Possible(s, steps)
    ensures Staged(Run(s, steps), AfterEvs(base, Schedule(s, steps)))
    decreases |steps|
  {
    hide Consistent, Staged, After, Enabled, EvOf;
    if steps != [] {
      StagedStep(s, base, steps[0]);
      StepKeeps(s, steps[0]);
      StagedRun(After(s, steps[0]), AfterEvs(base, EvOf(s, steps[0])), steps[1..]);
      AfterEvsAppend(base, EvOf(s, steps[0]), Schedule(After(s, steps[0]), steps[1..]));
    }
  }

  const CONNECTED := SharedState(NEW_DRIVER, true)

  /** Whenever the lock is free, the shared state is what the run's calls and chunks, whole
      and one at a time, would have made it. */
  lemma Linearizable(steps: seq<Step>)
    requires Possible(INITIAL, steps) && Run(INITIAL, steps).lock.None?
    ensures var s := Run(INITIAL, steps);
            var serial := AfterEvs(CONNECTED, Schedule(INITIAL, steps));
            s.shared == if s.reader.Stopped? then AfterDisconnect(serial) else serial
  {
    hide Consistent, Possible, Run, Schedule, AfterEvs, AfterDisconnect;
    InitialIsConsistent();
    StagedRun(INITIAL, CONNECTED, steps);
  }

  lemma {:induction false} BlockingRunIs(s: SharedState, evs: seq<Ev>)
    ensures BlockingRun(s, evs) == AfterDisconnect(AfterEvs(s, evs))
    decreases |evs|
  {
    hide AfterEv, AfterDisconnect;
    if evs != [] {
      BlockingRunIs(AfterEv(s, evs[0]), evs[1..]);
    }
  }

  lemma {:induction false} AllWrittenRun(s: System, steps: seq<Step>)
    requires Possible(s, steps) && Run(s, steps).failed.None?
    ensures s.failed.None? && AllWritten(Schedule(s, steps))
    decreases |steps|
  {
    hide Writable, ItemLines, Lines, Arrived, AfterDisconnect, CommandLine;
    if steps != [] {
      var later := Schedule(After(s, steps[0]), steps[1..]);
      AllWrittenRun(After(s, steps[0]), steps[1..]);
    }
  }

  /** An actor given the same calls and chunks as any finished run of the threads in which
      no write failed sends every caller the same result and the same notifications. */
  lemma ActorAgreesWithThreads(steps: seq<Step>, detach: Write)
    requires Possible(INITIAL, steps)
    requires var s := Run(INITIAL, steps);
             s.lock.None? && s.reader.Stopped? && s.failed.None?
    ensures var threads := Run(INITIAL, steps).shared.driver;
            var actor := ActorRun(NEW_DRIVER, TurnsOf(Schedule(INITIAL, steps)) + [Turn.Read(EndOfStream)], detach);
            actor.sent == threads.sent && actor.events == threads.events
            && actor.written == threads.written + PutOf("", detach)
  {
    hide Possible, Run, Schedule, AfterEvs, AfterDisconnect, ActorRun, TurnsOf, AllWritten, BlockingRun;
    var evs := Schedule(INITIAL, steps);
    Linearizable(steps);
    BlockingRunIs(CONNECTED, evs);
    AllWrittenRun(INITIAL, steps);
    DriversAgree(NEW_DRIVER, evs, detach);
  }
}
