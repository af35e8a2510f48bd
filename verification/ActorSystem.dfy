/** The actor against the same serial tmux: its turns and tmux's writes in any order. */
module ActorSystem {
  import opened Text
  import opened Parsers
  import opened Engines
  import opened Streams
  import opened Transcripts
  import opened Drivers
  import opened DriverTheorems
  import opened Systems
  import opened SystemInvariant

  /** A turn of the actor's loop, or something tmux writes. */
  datatype Act = Turned(turn: Turn) | Wrote(item: Item)

  /** The actor's state while it runs and the bytes in the pipe; then history: the commands
      taken up and their callers in id order, what tmux wrote and answered, the bytes fed,
      and the turn that ended the loop, if one did. */
  datatype World = World(
    driver: Driver, pipe: string, cmds: seq<string>, owners: seq<CallId>,
    items: seq<Item>, answers: seq<Answer>, fed: string, last: Option<Turn>)

  const BEGINNING := World(NEW_DRIVER, "", [], [], [], [], "", None)

  predicate NewCommand(w: World, call: CallId, cmd: string) { call !in w.owners && cmd != "" && '\n' !in cmd }

  /** Requests bring one non-empty line each; a read returns some of the pipe's bytes, ends
      or fails; tmux answers complete lines in order, one control block each. */
  predicate CanHappen(w: World, act: Act) {
    w.last.None? &&
    match act
    case Turned(Request(call, cmd, _)) => NewCommand(w, call, cmd)
    case Turned(NoMoreRequests) => true
    case Turned(Read(Got(chunk))) => 1 <= |chunk| <= READ_SIZE && chunk <= w.pipe
    case Turned(Read(_)) => true
    case Wrote(item) =>
      && Writable(item) && (item.Block? ==> item.closed)
      && (IsControl(item) ==> |w.answers| < |Lines(w.driver.written)|)
  }

  function Requested(w: World, call: CallId, cmd: string): World {
    w.(driver := Asked(w.driver, call, cmd, Complete), cmds := w.cmds + [cmd], owners := w.owners + [call])
  }

  function Received(w: World, chunk: string): World
    requires chunk <= w.pipe
  {
    w.(driver := Arrived(w.driver, chunk), pipe := w.pipe[|chunk|..], fed := w.fed + chunk)
  }

  function Written(w: World, item: Item): World
    requires CanHappen(w, Wrote(item))
  {
    var lines := Lines(w.driver.written);
    w.(items := w.items + [item], pipe := w.pipe + Unlines(ItemLines(item)),
       answers := AnswersAfter(w.answers, lines, item))
  }

  function Next(w: World, act: Act): World
    requires CanHappen(w, act)
  {
    match act
    case Turned(Request(call, cmd, Complete)) => Requested(w, call, cmd)
    case Turned(Read(Got(chunk))) => Received(w, chunk)
    case Turned(turn) => w.(last := Some(turn))
    case Wrote(item) => Written(w, item)
  }

  predicate CanRun(w: World, acts: seq<Act>)
    decreases |acts|
  {
    acts == [] || (CanHappen(w, acts[0]) && CanRun(Next(w, acts[0]), acts[1..]))
  }

  function RunActs(w: World, acts: seq<Act>): World
    requires CanRun(w, acts)
    decreases |acts|
  {
    if acts == [] then w else RunActs(Next(w, acts[0]), acts[1..])
  }

  /** The actor's own view of a run: its turns. */
  function TurnsIn(acts: seq<Act>): seq<Turn> {
    if acts == [] then [] else (if acts[0].Turned? then [acts[0].turn] else []) + TurnsIn(acts[1..])
  }

  // ---- The invariant -------------------------------------------------------------

  /** While the loop runs everything lines up, and every registered command has its waiter. */
  ghost predicate InLine(w: World) {
    && |w.owners| == |w.cmds| && Distinct(w.owners)
    && PipeOk(w.items, w.fed, w.pipe)
    && EngineOk(w.driver, w.fed, |w.owners|, false)
    && WireOk(w.driver.written, w.cmds, None)
    && ServerOk(w.items, w.answers, Lines(w.driver.written))
    && DeliveryOk(w.driver, w.owners, |w.owners|, Seen(w.fed), false)
  }

  lemma RequestedKeeps(w: World, call: CallId, cmd: string)
    requires InLine(w) && NewCommand(w, call, cmd)
    ensures InLine(Requested(w, call, cmd))
  {
    hide PipeOk, EngineOk, WireOk, ServerOk, DeliveryOk, Seen, Lines, CommandLine;
    var d, n, line := w.driver, |w.owners|, CommandLine(cmd);
    WireStart(d.written, w.cmds, cmd);
    LineLength(cmd);
    WirePut(d.written, w.cmds + [cmd], 0, |line|);
    assert line[0..0 + |line|] == line;
    WirePark(d.written + line, w.cmds + [cmd], |line|);
    RegisterKeeps(d, w.fed, w.owners, call);
    var d1 := d.(engine := AfterRegister(d.engine));
    WaiterAdded(d1, w.fed, w.owners + [call]);
    var d2 := d1.(waiters := d1.waiters[n := call]);
    WrittenIsElsewhere(d2, d.written + line, w.fed, w.owners + [call], n + 1);
    MoreLines(d.written, line);
    ServerMoreLines(w.items, w.answers, Lines(d.written), Lines(d.written + line));
    assert Asked(d, call, cmd, Complete) == d2.(written := d.written + line);
  }

  lemma LineLength(cmd: string)
    ensures |CommandLine(cmd)| == |cmd| + 1
  {
  }

  /** Replies seen are answers given, to commands taken up. */
  lemma SeenAreAnswers(w: World, fed: string, ahead: string)
    requires PipeOk(w.items, fed, ahead) && WireOk(w.driver.written, w.cmds, None)
    requires ServerOk(w.items, w.answers, Lines(w.driver.written))
    ensures |Seen(fed)| <= |w.answers| <= |Lines(w.driver.written)| <= |w.cmds|
    ensures Seen(fed) <= Replies(w.items) && Lines(w.driver.written) == w.cmds[..|Lines(w.driver.written)|]
  {
    hide Writable, Seen, Replies, Lines, WireOk, PipeOk;
    FedIsPrefix(w.items, fed, ahead);
    WireLines(w.driver.written, w.cmds, None);
  }

  lemma ReceivedKeeps(w: World, chunk: string)
    requires InLine(w) && chunk <= w.pipe
    ensures InLine(Received(w, chunk))
  {
    hide Writable, EngineOk, WireOk, ServerOk, DeliveryOk, Seen, Lines, Arrived, Unlines;
    var pipe' := w.pipe[|chunk|..];
    assert w.pipe == chunk + pipe';
    ConcatAssoc(w.fed, chunk, pipe');
    assert PipeOk(w.items, w.fed + chunk, pipe');
    SeenAreAnswers(w, w.fed + chunk, pipe');
    DispatchKeeps(w.driver, w.fed, chunk, w.owners, |w.owners|);
  }

  lemma WrittenKeeps(w: World, item: Item)
    requires InLine(w) && CanHappen(w, Wrote(item))
    ensures InLine(Written(w, item))
  {
    hide Writable, PipeOk, EngineOk, WireOk, ServerOk, DeliveryOk, Seen, Lines;
    var more := Unlines(ItemLines(item));
    assert "" + w.pipe == w.pipe && "" + (w.pipe + more) == w.pipe + more;
    PipeEmit(w.items, item, w.fed, "", w.pipe);
    ServerUnfold(w.items, w.answers, Lines(w.driver.written));
    ServerEmit(w.items, item, w.answers, Lines(w.driver.written));
  }

  lemma NextKeeps(w: World, act: Act)
    requires InLine(w) && CanHappen(w, act)
    ensures InLine(Next(w, act))
  {
    hide Writable, Lines, Requested, Received, Written;
    match act {
      case Turned(Request(call, cmd, Complete)) => RequestedKeeps(w, call, cmd);
      case Turned(Read(Got(chunk))) => ReceivedKeeps(w, chunk);
      case Turned(_) => OnlyLast(w, act.turn);
      case Wrote(item) => WrittenKeeps(w, item);
    }
  }

  lemma OnlyLast(w: World, turn: Turn)
    requires InLine(w)
    ensures InLine(w.(last := Some(turn)))
  {
    hide PipeOk, EngineOk, WireOk, ServerOk, DeliveryOk, Seen, Lines;
  }

  lemma BeginningInLine()
    ensures InLine(BEGINNING)
  {
    EmptyText();
    assert Scan(None, []) == Scanned(None, []);
    assert Bytes([]) == "" && "" + "" == "";
    assert Replies([]) == [] && Unlines([]) == "";
  }

  lemma {:induction false} RunInLine(w: World, acts: seq<Act>)
    requires InLine(w) && CanRun(w, acts)
    ensures InLine(RunActs(w, acts))
    decreases |acts|
  {
    hide InLine, CanHappen, Next;
    if acts != [] {
      NextKeeps(w, acts[0]);
      RunInLine(Next(w, acts[0]), acts[1..]);
    }
  }

  // ---- The run is the actor's ----------------------------------------------------

  /** How a run ends for the actor: by the turn that ended its loop, or by the end of all
      client handles. */
  function EndOf(w: World, detach: Write): Driver {
    match w.last
    case Some(turn) => ActorRun(w.driver, [turn], detach)
    case None => ActorRun(w.driver, [], detach)
  }

  /** A turn that ends the loop does so whatever comes after. */
  lemma EndingTurn(d: Driver, turn: Turn, later: seq<Turn>, detach: Write)
    requires EndsLoop(turn)
    ensures ActorRun(d, [turn] + later, detach) == ActorRun(d, [turn], detach)
  {
    hide Asked, TornDown;
    TailOfCons(turn, later);
    assert [turn][0] == turn;
  }

  /** A run against tmux is, for the actor, exactly the run over its own turns. */
  lemma {:induction false} SameAsTurns(w: World, acts: seq<Act>, detach: Write)
    requires CanRun(w, acts) && w.last.None?
    ensures ActorRun(w.driver, TurnsIn(acts), detach) == EndOf(RunActs(w, acts), detach)
    decreases |acts|
  {
    hide Writable, Lines, Unlines, ItemLines, Asked, Arrived, TornDown;
    if acts != [] {
      var act, later := acts[0], acts[1..];
      match act {
        case Wrote(item) =>
          assert [] + TurnsIn(later) == TurnsIn(later);
          SameAsTurns(Next(w, act), later, detach);
        case Turned(Request(call, cmd, Complete)) =>
          TailOfCons(act.turn, TurnsIn(later));
          SameAsTurns(Next(w, act), later, detach);
        case Turned(Read(Got(chunk))) =>
          TailOfCons(act.turn, TurnsIn(later));
          SameAsTurns(Next(w, act), later, detach);
        case Turned(turn) =>
          EndingTurn(w.driver, turn, TurnsIn(later), detach);
          assert later == [];
      }
    }
  }

  // ---- What callers get ----------------------------------------------------------

  /** tmux answered this call's own line, line `id` on the wire, with this result. */
  predicate AnsweredAs(w: World, id: nat, d: Delivery) {
    && id < |w.owners| && w.owners[id] == d.call && |w.cmds| == |w.owners|
    && id < |w.answers| && w.answers[id] == Answer(w.cmds[id], d.result)
    && id < |Lines(w.driver.written)| && Lines(w.driver.written)[id] == w.cmds[id]
  }

  lemma FinishedAdds(w: World, detach: Write) returns (more: seq<Delivery>)
    requires w.last.Some? ==> EndsLoop(w.last.value)
    ensures EndOf(w, detach).sent == w.driver.sent + more && AllDisconnected(more)
  {
    hide Ended, PutOf;
    var d := w.driver;
    if w.last.Some? && w.last.value.Request? {
      var Request(call, cmd, write) := w.last.value;
      var own := [Delivery(call, Disconnected)];
      var d' := Asked(d, call, cmd, write);
      var drained := EndedAdds(d'.(sent := d'.sent + own, written := d'.written + PutOf("", detach)));
      ConcatAssoc(d.sent, own, drained);
      more := own + drained;
    } else {
      more := EndedAdds(d.(written := d.written + PutOf("", detach)));
    }
  }

  /** The loop ended with a turn that ends loops. */
  lemma {:induction false} LastEnds(w: World, acts: seq<Act>)
    requires CanRun(w, acts) && w.last.None?
    ensures RunActs(w, acts).last.Some? ==> EndsLoop(RunActs(w, acts).last.value)
    decreases |acts|
  {
    hide Writable, Lines, Unlines, ItemLines, Asked, Arrived;
    if acts != [] {
      if Next(w, acts[0]).last.None? {
        LastEnds(Next(w, acts[0]), acts[1..]);
      } else {
        assert acts[1..] == [];
      }
    }
  }

  lemma SentAreAnswers(w: World, k: nat)
    requires InLine(w) && k < |w.driver.sent|
    ensures AnsweredAs(w, k, w.driver.sent[k])
  {
    hide Writable, PipeOk, EngineOk, WireOk, Seen, Replies, Lines, WaitersAre, Outcome;
    SeenAreAnswers(w, w.fed, w.pipe);
  }

  /** No cross-delivery for the actor: on any schedule against the serial tmux, a failed
      write or read included, each result other than a disconnect that it ever sends is
      tmux's answer to the line of the very call it is sent to, and of no other. */
  lemma ActorNoCrossDelivery(acts: seq<Act>, detach: Write, k: nat)
    requires CanRun(BEGINNING, acts)
    requires var sent := ActorRun(NEW_DRIVER, TurnsIn(acts), detach).sent;
             k < |sent| && sent[k].result != Disconnected
    ensures var w, sent := RunActs(BEGINNING, acts), ActorRun(NEW_DRIVER, TurnsIn(acts), detach).sent;
            AnsweredAs(w, k, sent[k]) && forall j :: 0 <= j < |w.owners| && w.owners[j] == sent[k].call ==> j == k
  {
    hide CanRun, RunActs, ActorRun, TurnsIn, AnsweredAs, EndOf, PipeOk, EngineOk, WireOk, ServerOk, DeliveryOk, Seen;
    var w := RunActs(BEGINNING, acts);
    BeginningInLine();
    RunInLine(BEGINNING, acts);
    SameAsTurns(BEGINNING, acts, detach);
    LastEnds(BEGINNING, acts);
    var more := FinishedAdds(w, detach);
    NotAdded(w.driver.sent, more, k);
    SentAreAnswers(w, k);
    OwnerOfAnswered(w, k, w.driver.sent[k]);
  }

  lemma NotAdded(sent: seq<Delivery>, more: seq<Delivery>, k: nat)
    requires k < |sent + more| && (sent + more)[k].result != Disconnected && AllDisconnected(more)
    ensures k < |sent| && (sent + more)[k] == sent[k]
  {
  }

  lemma OwnerOfAnswered(w: World, id: nat, d: Delivery)
    ensures AnsweredAs(w, id, d) ==> id < |w.owners| && w.owners[id] == d.call
  {
    hide Lines;
  }
}
