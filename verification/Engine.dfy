/** The sans-IO engine: framing buffer, line parser and FIFO of outstanding commands. */
module Engines {
  import opened Text
  import opened Notifications
  import opened Parsers

  /** A command's id: the number of commands registered before it. */
  type CommandId = nat

  datatype CommandResult = Output(lines: seq<string>) | Failed(lines: seq<string>) | Disconnected

  datatype Incoming = Note(notification: Notification) | Resolved(id: CommandId, result: CommandResult)

  /** The engine's fields as one value. */
  datatype EngineState = EngineState(
    parser: Option<PendingReply>, pending: seq<CommandId>, nextId: CommandId, buf: string, lastNumber: Option<u64>)

  const NEW_ENGINE := EngineState(None, [], 0, "", None)

  function Outcome(reply: Reply): CommandResult {
    if reply.error then Failed(reply.output) else CommandResult.Output(reply.output)
  }

  function AfterRegister(e: EngineState): EngineState {
    e.(nextId := e.nextId + 1, pending := e.pending + [e.nextId])
  }

  datatype Stepped = Stepped(engine: EngineState, out: Option<Incoming>)

  /** A control reply resolves the front of the FIFO; any other reply is passed over. */
  function AfterCorrelate(e: EngineState, reply: Reply): Stepped {
    if !reply.control then Stepped(e, None)
    else
      var e' := e.(lastNumber := Some(reply.number));
      if e.pending == [] then Stepped(e', None)
      else Stepped(e'.(pending := e.pending[1..]), Some(Resolved(e.pending[0], Outcome(reply))))
  }

  function AfterLine(e: EngineState, line: string): Stepped {
    var pushed := AfterPush(e.parser, line);
    var e' := e.(parser := pushed.pending);
    match pushed.event
    case None => Stepped(e', None)
    case Some(Notice(n)) => Stepped(e', Some(Note(n)))
    case Some(Finished(reply)) => AfterCorrelate(e', reply)
  }

  datatype Fed = Fed(engine: EngineState, out: seq<Incoming>)

  function AsSeq<T>(o: Option<T>): seq<T> { if o.None? then [] else [o.value] }

  /** One line after another. */
  function AfterLines(e: EngineState, lines: seq<string>): Fed
    decreases |lines|
  {
    if lines == [] then Fed(e, [])
    else
      var first := AfterLine(e, lines[0]);
      var others := AfterLines(first.engine, lines[1..]);
      Fed(others.engine, AsSeq(first.out) + others.out)
  }

  /** What feeding a chunk means: run every line the buffered text and the chunk complete,
      and keep the rest. */
  function AfterFeed(e: EngineState, bytes: string): Fed {
    var fed := AfterLines(e, Lines(e.buf + bytes));
    Fed(fed.engine.(buf := Tail(e.buf + bytes)), fed.out)
  }

  function Drained(pending: seq<CommandId>): (out: seq<Incoming>)
    ensures |out| == |pending|
    ensures forall k :: 0 <= k < |pending| ==> out[k] == Resolved(pending[k], Disconnected)
  {
    seq(|pending|, k requires 0 <= k < |pending| => Resolved(pending[k], Disconnected))
  }

  function AfterEof(e: EngineState): Fed { Fed(e.(pending := []), Drained(e.pending)) }

  lemma LinesCons(e: EngineState, line: string, lines: seq<string>)
    ensures var first := AfterLine(e, line);
            var others := AfterLines(first.engine, lines);
            AfterLines(e, [line] + lines) == Fed(others.engine, AsSeq(first.out) + others.out)
  {
    TailOfCons(line, lines);
  }

  /** Handling a line touches neither the buffer nor the id counter, and ignores the buffer. */
  lemma LineFrame(e: EngineState, line: string, buf: string)
    ensures AfterLine(e, line).engine.buf == e.buf && AfterLine(e, line).engine.nextId == e.nextId
    ensures AfterLine(e.(buf := buf), line)
         == Stepped(AfterLine(e, line).engine.(buf := buf), AfterLine(e, line).out)
  {
  }

  lemma {:induction false} LinesFrame(e: EngineState, lines: seq<string>, buf: string)
    ensures AfterLines(e, lines).engine.buf == e.buf && AfterLines(e, lines).engine.nextId == e.nextId
    ensures AfterLines(e.(buf := buf), lines)
         == Fed(AfterLines(e, lines).engine.(buf := buf), AfterLines(e, lines).out)
    decreases |lines|
  {
    if lines != [] {
      LineFrame(e, lines[0], buf);
      LinesFrame(AfterLine(e, lines[0]).engine, lines[1..], buf);
    }
  }

  /** One turn of the framing loop: the first line is handled with the buffer already
      cut down, and nothing else changes what the remaining lines do. */
  lemma DrainStep(e: EngineState, newline: nat)
    requires newline == IndexOf(e.buf, '\n') < |e.buf|
    ensures var rest := e.buf[newline + 1..];
            var first := AfterLine(e.(buf := rest), e.buf[..newline]);
            var others, all := AfterLines(first.engine, Lines(rest)), AfterLines(e, Lines(e.buf));
            && all.out == AsSeq(first.out) + others.out
            && others.engine == all.engine.(buf := rest)
            && first.engine.buf == rest && Tail(rest) == Tail(e.buf)
  {
    hide AfterLine;
    var line, rest := e.buf[..newline], e.buf[newline + 1..];
    assert Lines(e.buf) == [line] + Lines(rest);
    LinesFrame(e, Lines(e.buf), rest);
    LinesCons(e.(buf := rest), line, Lines(rest));
    LineFrame(e.(buf := rest), line, rest);
  }

  class Engine {
    const parser: Parser
    var pending: seq<CommandId>
    var nextId: CommandId
    var buf: string
    var lastNumber: Option<u64>

    ghost function State(): EngineState
      reads this, parser
    {
      EngineState(parser.pending, pending, nextId, buf, lastNumber)
    }

    constructor ()
      ensures State() == NEW_ENGINE && fresh(parser)
    {
      parser := new Parser();
      pending, nextId, buf, lastNumber := [], 0, "", None;
    }

    method RegisterCommand() returns (id: CommandId)
      modifies this
      ensures State() == AfterRegister(old(State()))
      ensures id == old(nextId)
    {
      id := nextId;
      nextId := nextId + 1;
      pending := pending + [id];
    }

    method Feed(bytes: string) returns (out: seq<Incoming>)
      modifies this, parser
      ensures Fed(State(), out) == AfterFeed(old(State()), bytes)
    {
      buf := buf + bytes;
      ghost var start, target := State(), AfterLines(State(), Lines(buf));
      LinesFrame(old(State()), Lines(buf), buf);
      out := [];
      var newline := IndexOf(buf, '\n');
      while newline < |buf|
        invariant newline == IndexOf(buf, '\n')
        invariant Tail(buf) == Tail(start.buf)
        invariant target.out == out + AfterLines(State(), Lines(buf)).out
        invariant AfterLines(State(), Lines(buf)).engine == target.engine.(buf := buf)
        decreases |buf|
      {
        DrainStep(State(), newline);
        ghost var before := State();
        var line := buf[..newline];
        buf := buf[newline + 1..];
        assert State() == before.(buf := buf);
        var incoming := OnLine(line);
        assert buf == before.buf[newline + 1..];
        ConcatAssoc(out, AsSeq(incoming), AfterLines(State(), Lines(buf)).out);
        if incoming.Some? {
          out := out + [incoming.value];
        } else {
          assert out + [] == out;
        }
        newline := IndexOf(buf, '\n');
      }
      assert out + [] == out;
    }

    method OnLine(line: string) returns (out: Option<Incoming>)
      modifies this, parser
      ensures Stepped(State(), out) == AfterLine(old(State()), line)
    {
      var event := parser.Push(line);
      match event {
        case None => out := None;
        case Some(Notice(notification)) => out := Some(Note(notification));
        case Some(Finished(reply)) => out := Correlate(reply);
      }
    }

    method Correlate(reply: Reply) returns (out: Option<Incoming>)
      modifies this
      ensures Stepped(State(), out) == AfterCorrelate(old(State()), reply)
    {
      if !reply.control {
        return None;
      }
      lastNumber := Some(reply.number);
      if pending == [] {
        return None;
      }
      var id := pending[0];
      pending := pending[1..];
      var result := if reply.error then Failed(reply.output) else CommandResult.Output(reply.output);
      out := Some(Resolved(id, result));
    }

    method OnEof() returns (out: seq<Incoming>)
      modifies this
      ensures Fed(State(), out) == AfterEof(old(State()))
    {
      out := Drained(pending);
      pending := [];
    }
  }
}
