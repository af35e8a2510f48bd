/** The two drivers over the engine: the lock-based one, whose callers and reader thread
    share one state, and the actor that owns its state and takes one step at a time. */
module Drivers {
  import opened Text
  import opened Notifications
  import opened Parsers
  import opened Engines
  import opened Streams

  /** One call of `command`. */
  type CallId = nat

  /** A result sent on the reply channel of a call. */
  datatype Delivery = Delivery(call: CallId, result: CommandResult)

  /** What both drivers hold: the engine, the reply channel of each outstanding command,
      and what went out so far on reply channels, on the event channel and to tmux. */
  datatype Driver = Driver(
    engine: EngineState, waiters: map<CommandId, CallId>,
    sent: seq<Delivery>, events: seq<Notification>, written: string)

  const NEW_DRIVER := Driver(NEW_ENGINE, map[], [], [], "")

  /** How the write of a command line ends: completely, or after some of its bytes. */
  datatype Write = Complete | Broken(put: nat)

  function CommandLine(cmd: string): string { cmd + "\n" }

  function PutOf(cmd: string, write: Write): string {
    match write
    case Complete => CommandLine(cmd)
    case Broken(put) => if put <= |cmd| + 1 then CommandLine(cmd)[..put] else CommandLine(cmd)
  }

  /** Register, write, and on success remember whom to wake. */
  function Asked(d: Driver, call: CallId, cmd: string, write: Write): Driver {
    Driver(AfterRegister(d.engine), if write.Complete? then d.waiters[d.engine.nextId := call] else d.waiters,
           d.sent, d.events, d.written + PutOf(cmd, write))
  }

  function HandleOne(d: Driver, incoming: Incoming): Driver {
    match incoming
    case Note(n) => d.(events := d.events + [n])
    case Resolved(id, result) =>
      if id in d.waiters then d.(waiters := d.waiters - {id}, sent := d.sent + [Delivery(d.waiters[id], result)]) else d
  }

  function HandleAll(d: Driver, incoming: seq<Incoming>): Driver
    decreases |incoming|
  {
    if incoming == [] then d else HandleAll(HandleOne(d, incoming[0]), incoming[1..])
  }

  /** A chunk arrives. */
  function Arrived(d: Driver, bytes: string): Driver {
    var fed := AfterFeed(d.engine, bytes);
    HandleAll(d.(engine := fed.engine), fed.out)
  }

  /** The stream ends: every outstanding command is resolved as disconnected. */
  function Ended(d: Driver): Driver {
    var fed := AfterEof(d.engine);
    HandleAll(d.(engine := fed.engine), fed.out)
  }

  // ---- What handling does, in closed form ----------------------------------------

  /** The results that reach a waiter. */
  function Deliveries(waiters: map<CommandId, CallId>, resolutions: seq<Resolution>): seq<Delivery>
    decreases |resolutions|
  {
    if resolutions == [] then []
    else if resolutions[0].id in waiters then
      [Delivery(waiters[resolutions[0].id], resolutions[0].result)]
      + Deliveries(waiters - {resolutions[0].id}, resolutions[1..])
    else Deliveries(waiters, resolutions[1..])
  }

  function Remaining(waiters: map<CommandId, CallId>, resolutions: seq<Resolution>): map<CommandId, CallId>
    decreases |resolutions|
  {
    if resolutions == [] then waiters else Remaining(waiters - {resolutions[0].id}, resolutions[1..])
  }

  lemma NothingRemoved(waiters: map<CommandId, CallId>, id: CommandId)
    requires id !in waiters
    ensures waiters - {id} == waiters
  {
  }

  /** Handling touches neither the engine nor the wire; results go to their waiters, in
      order, and notifications to the event channel, in order. */
  lemma {:induction false} HandledClosed(d: Driver, incoming: seq<Incoming>)
    ensures HandleAll(d, incoming) == Driver(
              d.engine, Remaining(d.waiters, Resolutions(incoming)),
              d.sent + Deliveries(d.waiters, Resolutions(incoming)), d.events + Notes(incoming), d.written)
    decreases |incoming|
  {
    if incoming == [] {
      assert d.sent + [] == d.sent && d.events + [] == d.events;
    } else {
      var first, later := incoming[0], incoming[1..];
      var d' := HandleOne(d, first);
      HandledClosed(d', later);
      match first {
        case Note(n) =>
          ConcatAssoc(d.events, [n], Notes(later));
          assert [] + Resolutions(later) == Resolutions(later);
        case Resolved(id, result) =>
          TailOfCons(Resolution(id, result), Resolutions(later));
          assert [] + Notes(later) == Notes(later);
          if id in d.waiters {
            ConcatAssoc(d.sent, [Delivery(d.waiters[id], result)], Deliveries(d'.waiters, Resolutions(later)));
          } else {
            NothingRemoved(d.waiters, id);
          }
      }
    }
  }

  // ---- The lock-based driver -----------------------------------------------------

  /** What one `read` of the reader thread yields. */
  datatype ReadResult = Got(chunk: string) | EndOfStream | Interrupted | Fault

  datatype SharedState = SharedState(driver: Driver, connected: bool)

  function AfterCommand(s: SharedState, call: CallId, cmd: string, write: Write): SharedState {
    if !s.connected then s else SharedState(Asked(s.driver, call, cmd, write), write.Complete?)
  }

  function AfterDisconnect(s: SharedState): SharedState { SharedState(Ended(s.driver), false) }

  /** The reader thread: chunks are dispatched, interruptions retried, anything else ends
      the session. */
  function AfterReads(s: SharedState, polls: seq<ReadResult>): SharedState
    decreases |polls|
  {
    if polls == [] then AfterDisconnect(s)
    else
      match polls[0]
      case Got(chunk) => AfterReads(s.(driver := Arrived(s.driver, chunk)), polls[1..])
      case Interrupted => AfterReads(s, polls[1..])
      case EndOfStream => AfterDisconnect(s)
      case Fault => AfterDisconnect(s)
  }

  class Shared {
    const engine: Engine
    var waiters: map<CommandId, CallId>
    var connected: bool
    var sent: seq<Delivery>
    var events: seq<Notification>
    var written: string

    ghost function State(): SharedState
      reads this, engine, engine.parser
    {
      SharedState(Driver(engine.State(), waiters, sent, events, written), connected)
    }

    constructor ()
      ensures State() == SharedState(NEW_DRIVER, true) && fresh(engine) && fresh(engine.parser)
    {
      engine := new Engine();
      waiters, connected, sent, events, written := map[], true, [], [], "";
    }

    method Resolve(id: CommandId, result: CommandResult)
      modifies this
      ensures State() == old(State()).(driver := HandleOne(old(State()).driver, Resolved(id, result)))
    {
      if id in waiters {
        sent := sent + [Delivery(waiters[id], result)];
        waiters := waiters - {id};
      }
    }

    /** The critical section of `command`; `write` is how the transport answers the write.
        Either the caller goes on to wait for its reply, or it returns at once. */
    method Command(call: CallId, cmd: string, write: Write) returns (now: Option<CommandResult>)
      modifies this, engine
      ensures State() == AfterCommand(old(State()), call, cmd, write)
      ensures now == if old(connected) && write.Complete? then None else Some(Disconnected)
    {
      if !connected {
        return Some(Disconnected);
      }
      var id := engine.RegisterCommand();
      written := written + PutOf(cmd, write);
      if write.Broken? {
        connected := false;
        return Some(Disconnected);
      }
      waiters := waiters[id := call];
      now := None;
    }

    method Dispatch(bytes: string)
      modifies this, engine, engine.parser
      ensures State() == old(State()).(driver := Arrived(old(State()).driver, bytes))
    {
      var incoming := engine.Feed(bytes);
      Handle(incoming);
    }

    /** The loop over what the engine surfaced. */
    method Handle(incoming: seq<Incoming>)
      modifies this
      ensures State() == old(State()).(driver := HandleAll(old(State()).driver, incoming))
    {
      for k := 0 to |incoming|
        invariant HandleAll(State().driver, incoming[k..]) == HandleAll(old(State()).driver, incoming)
        invariant connected == old(connected)
      {
        assert incoming[k..][1..] == incoming[k + 1..];
        match incoming[k] {
          case Note(notification) => events := events + [notification];
          case Resolved(id, result) => Resolve(id, result);
        }
      }
    }

    method Disconnect()
      modifies this, engine
      ensures State() == AfterDisconnect(old(State()))
    {
      connected := false;
      var incoming := engine.OnEof();
      Handle(incoming);
    }

    /** The reader thread, with no caller in between. */
    method ReadLoop(polls: seq<ReadResult>)
      modifies this, engine, engine.parser
      ensures State() == AfterReads(old(State()), polls)
    {
      var k := 0;
      while k < |polls|
        invariant 0 <= k <= |polls|
        invariant AfterReads(State(), polls[k..]) == AfterReads(old(State()), polls)
      {
        assert polls[k..][1..] == polls[k + 1..];
        match polls[k] {
          case EndOfStream => break;
          case Got(chunk) => Dispatch(chunk);
          case Interrupted =>
          case Fault => break;
        }
        k := k + 1;
      }
      Disconnect();
    }
  }

  // ---- The actor -----------------------------------------------------------------

  /** What one turn of the actor's select resolves to. */
  datatype Turn = Request(call: CallId, cmd: string, write: Write) | NoMoreRequests | Read(result: ReadResult)

  /** Teardown: a best-effort empty line, then every outstanding command fails. */
  function TornDown(d: Driver, detach: Write): Driver {
    Ended(d.(written := d.written + PutOf("", detach)))
  }

  /** The actor's run over a schedule of turns; a schedule that runs out is the end of all
      client handles. */
  function ActorRun(d: Driver, turns: seq<Turn>, detach: Write): Driver
    decreases |turns|
  {
    if turns == [] then TornDown(d, detach)
    else
      match turns[0]
      case Request(call, cmd, write) =>
        var d' := Asked(d, call, cmd, write);
        if write.Complete? then ActorRun(d', turns[1..], detach)
        else TornDown(d'.(sent := d'.sent + [Delivery(call, Disconnected)]), detach)
      case NoMoreRequests => TornDown(d, detach)
      case Read(Got(chunk)) => ActorRun(Arrived(d, chunk), turns[1..], detach)
      case Read(_) => TornDown(d, detach)
  }

  /** What the loop over the engine's outcomes does to the actor's local state. */
  method HandleLocally(waiters0: map<CommandId, CallId>, sent0: seq<Delivery>, events0: seq<Notification>,
                       incoming: seq<Incoming>, ghost d: Driver)
    returns (waiters: map<CommandId, CallId>, sent: seq<Delivery>, events: seq<Notification>)
    requires d.waiters == waiters0 && d.sent == sent0 && d.events == events0
    ensures HandleAll(d, incoming) == d.(waiters := waiters, sent := sent, events := events)
  {
    waiters, sent, events := waiters0, sent0, events0;
    for k := 0 to |incoming|
      invariant HandleAll(d, incoming)
             == HandleAll(d.(waiters := waiters, sent := sent, events := events), incoming[k..])
    {
      assert incoming[k..][1..] == incoming[k + 1..];
      match incoming[k] {
        case Note(notification) => events := events + [notification];
        case Resolved(id, result) =>
          if id in waiters {
            sent := sent + [Delivery(waiters[id], result)];
            waiters := waiters - {id};
          }
      }
    }
  }

  method OwnerTask(turns: seq<Turn>, detach: Write)
    returns (waiters: map<CommandId, CallId>, sent: seq<Delivery>, events: seq<Notification>, written: string)
    ensures var end := ActorRun(NEW_DRIVER, turns, detach);
            waiters == end.waiters && sent == end.sent && events == end.events && written == end.written
  {
    hide AfterFeed, HandleAll;
    var engine := new Engine();
    waiters, sent, events, written := map[], [], [], "";
    var k := 0;
    while k < |turns|
      invariant 0 <= k <= |turns|
      invariant fresh(engine) && fresh(engine.parser)
      invariant ActorRun(Driver(engine.State(), waiters, sent, events, written), turns[k..], detach)
             == ActorRun(NEW_DRIVER, turns, detach)
    {
      assert turns[k..][1..] == turns[k + 1..];
      match turns[k] {
        case NoMoreRequests => break;
        case Request(call, cmd, write) =>
          var id := engine.RegisterCommand();
          written := written + PutOf(cmd, write);
          if write.Broken? {
            sent := sent + [Delivery(call, Disconnected)];
            break;
          }
          waiters := waiters[id := call];
        case Read(Got(chunk)) =>
          var incoming := engine.Feed(chunk);
          ghost var d := Driver(engine.State(), waiters, sent, events, written);
          waiters, sent, events := HandleLocally(waiters, sent, events, incoming, d);
        case Read(_) => break;
      }
      k := k + 1;
    }
    written := written + PutOf("", detach);
    var incoming := engine.OnEof();
    ghost var d := Driver(engine.State(), waiters, sent, events, written);
    waiters, sent, events := HandleLocally(waiters, sent, events, incoming, d);
  }
}
