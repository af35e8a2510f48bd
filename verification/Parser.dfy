/** The incremental line parser: `%begin`…`%end`/`%error` blocks, and notifications. */
module Parsers {
  import opened Text
  import opened Notifications

  datatype GuardKind = Begin | End | Error

  datatype Guard = Guard(kind: GuardKind, number: u64, control: bool)

  function GuardName(kind: GuardKind): string {
    match kind case Begin => "begin" case End => "end" case Error => "error"
  }

  function GuardKindOf(name: string): Option<GuardKind> {
    if name == "begin" then Some(Begin)
    else if name == "end" then Some(End)
    else if name == "error" then Some(Error)
    else None
  }

  /** `%<kind> <timestamp> <number> <flags>` and nothing else; the timestamp is any token. */
  function GuardOfFields(fields: seq<string>): Option<Guard>
    requires |fields| >= 1
  {
    var kind :- GuardKindOf(fields[0]);
    if |fields| != 4 then None
    else
      var number :- ParseUint(fields[2], U64_MAX);
      var flags :- ParseUint(fields[3], U32_MAX);
      Some(Guard(kind, number, flags != 0))
  }

  function ParseGuard(line: string): Option<Guard> {
    if line == "" || line[0] != '%' then None else GuardOfFields(Split(line[1..], ' '))
  }

  function PrintGuard(kind: GuardKind, timestamp: string, number: u64, flags: u32): string {
    "%" + (GuardName(kind) + " " + (timestamp + " " + (Decimal(number) + " " + Decimal(flags))))
  }

  datatype Reply = Reply(number: u64, control: bool, output: seq<string>, error: bool)

  datatype Event = Notice(notification: Notification) | Finished(reply: Reply)

  /** The block being buffered. */
  datatype PendingReply = PendingReply(number: u64, control: bool, output: seq<string>)

  function Close(block: PendingReply, error: bool): Reply {
    Reply(block.number, block.control, block.output, error)
  }

  datatype Pushed = Pushed(pending: Option<PendingReply>, event: Option<Event>)

  function PushedAtTopLevel(line: string): Pushed {
    if line == "" then Pushed(None, None)
    else
      match ParseGuard(line)
      case Some(Guard(Begin, number, control)) => Pushed(Some(PendingReply(number, control, [])), None)
      case _ => Pushed(None, Some(Notice(ParseNotification(line))))
  }

  function PushedWithinBlock(block: PendingReply, line: string): Pushed {
    match ParseGuard(line)
    case Some(Guard(End, _, _)) => Pushed(None, Some(Finished(Close(block, false))))
    case Some(Guard(Error, _, _)) => Pushed(None, Some(Finished(Close(block, true))))
    case Some(Guard(Begin, number, control)) =>
      Pushed(Some(PendingReply(number, control, [])), Some(Finished(Close(block, true))))
    case None => Pushed(Some(block.(output := block.output + [line])), None)
  }

  /** What one line does to the block in progress, and what it surfaces. */
  function AfterPush(pending: Option<PendingReply>, line: string): Pushed {
    match pending
    case Some(block) => PushedWithinBlock(block, line)
    case None =>
      match ParseOutputLine(line)
      case Some(n) => Pushed(None, Some(Notice(n)))
      case None => PushedAtTopLevel(line)
  }

  class Parser {
    var pending: Option<PendingReply>

    constructor ()
      ensures pending == None
    {
      pending := None;
    }

    method Push(line: string) returns (event: Option<Event>)
      modifies this
      ensures Pushed(pending, event) == AfterPush(old(pending), line)
    {
      if pending.None? {
        var output := ParseOutputLine(line);
        if output.Some? {
          return Some(Notice(output.value));
        }
        event := PushAtTopLevel(line);
      } else {
        event := PushWithinBlock(line);
      }
    }

    method PushAtTopLevel(line: string) returns (event: Option<Event>)
      requires pending.None?
      modifies this
      ensures Pushed(pending, event) == PushedAtTopLevel(line)
    {
      if line == "" {
        return None;
      }
      var guard := ParseGuard(line);
      if guard.Some? && guard.value.kind.Begin? {
        pending := Some(PendingReply(guard.value.number, guard.value.control, []));
        return None;
      }
      event := Some(Notice(ParseNotification(line)));
    }

    method PushWithinBlock(line: string) returns (event: Option<Event>)
      requires pending.Some?
      modifies this
      ensures Pushed(pending, event) == PushedWithinBlock(old(pending).value, line)
    {
      match ParseGuard(line) {
        case Some(Guard(End, _, _)) =>
          event := CloseBlock(false);
        case Some(Guard(Error, _, _)) =>
          event := CloseBlock(true);
        case Some(Guard(Begin, number, control)) =>
          event := CloseBlock(true);
          pending := Some(PendingReply(number, control, []));
        case None =>
          pending := Some(pending.value.(output := pending.value.output + [line]));
          event := None;
      }
    }

    method CloseBlock(error: bool) returns (event: Option<Event>)
      modifies this
      ensures pending == None
      ensures event == if old(pending).None? then None else Some(Finished(Close(old(pending).value, error)))
    {
      if pending.None? {
        return None;
      }
      event := Some(Finished(Close(pending.value, error)));
      pending := None;
    }
  }
}
