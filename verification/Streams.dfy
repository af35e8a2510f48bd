/** Whole streams: what any line stream, cut into any chunks, makes the engine surface. */
module Streams {
  import opened Text
  import opened Notifications
  import opened Parsers
  import opened Engines

  // ---- The parser alone, over many lines -----------------------------------------

  datatype Scanned = Scanned(parser: Option<PendingReply>, events: seq<Event>)

  function Scan(p: Option<PendingReply>, lines: seq<string>): Scanned
    decreases |lines|
  {
    if lines == [] then Scanned(p, [])
    else
      var first := AfterPush(p, lines[0]);
      var others := Scan(first.pending, lines[1..]);
      Scanned(others.parser, AsSeq(first.event) + others.events)
  }

  lemma ScanCons(p: Option<PendingReply>, line: string, lines: seq<string>)
    ensures var first := AfterPush(p, line);
            var others := Scan(first.pending, lines);
            Scan(p, [line] + lines) == Scanned(others.parser, AsSeq(first.event) + others.events)
  {
    hide AfterPush;
    TailOfCons(line, lines);
  }

  lemma {:induction false} ScanAppend(p: Option<PendingReply>, a: seq<string>, b: seq<string>)
    ensures var front := Scan(p, a);
            var back := Scan(front.parser, b);
            Scan(p, a + b) == Scanned(back.parser, front.events + back.events)
    decreases |a|
  {
    hide AfterPush;
    if a == [] {
      assert a + b == b && [] + Scan(p, b).events == Scan(p, b).events;
    } else {
      var first := AfterPush(p, a[0]);
      ConcatAssoc([a[0]], a[1..], b);
      HeadTail(a);
      ScanCons(p, a[0], a[1..] + b);
      ScanAppend(first.pending, a[1..], b);
      ConcatAssoc(AsSeq(first.event), Scan(first.pending, a[1..]).events, Scan(Scan(p, a).parser, b).events);
    }
  }

  // ---- Correlation ---------------------------------------------------------------

  /** The control replies among the events, in order. */
  function Controls(events: seq<Event>): seq<Reply> {
    if events == [] then []
    else (if events[0].Finished? && events[0].reply.control then [events[0].reply] else []) + Controls(events[1..])
  }

  function Notices(events: seq<Event>): seq<Notification> {
    if events == [] then []
    else (if events[0].Notice? then [events[0].notification] else []) + Notices(events[1..])
  }

  lemma {:induction false} ControlsAppend(a: seq<Event>, b: seq<Event>)
    ensures Controls(a + b) == Controls(a) + Controls(b)
    decreases |a|
  {
    if a == [] {
      assert a + b == b && [] + Controls(b) == Controls(b);
    } else {
      assert (a + b)[1..] == a[1..] + b;
      ControlsAppend(a[1..], b);
      ConcatAssoc(if a[0].Finished? && a[0].reply.control then [a[0].reply] else [], Controls(a[1..]), Controls(b));
    }
  }

  lemma {:induction false} NoticesAppend(a: seq<Event>, b: seq<Event>)
    ensures Notices(a + b) == Notices(a) + Notices(b)
    decreases |a|
  {
    if a == [] {
      assert a + b == b && [] + Notices(b) == Notices(b);
    } else {
      assert (a + b)[1..] == a[1..] + b;
      NoticesAppend(a[1..], b);
      ConcatAssoc(if a[0].Notice? then [a[0].notification] else [], Notices(a[1..]), Notices(b));
    }
  }

  datatype Resolution = Resolution(id: CommandId, result: CommandResult)

  /** The replies the engine surfaced, in order. */
  function Resolutions(out: seq<Incoming>): seq<Resolution> {
    if out == [] then []
    else (if out[0].Resolved? then [Resolution(out[0].id, out[0].result)] else []) + Resolutions(out[1..])
  }

  function Notes(out: seq<Incoming>): seq<Notification> {
    if out == [] then []
    else (if out[0].Note? then [out[0].notification] else []) + Notes(out[1..])
  }

  lemma {:induction false} ResolutionsAppend(a: seq<Incoming>, b: seq<Incoming>)
    ensures Resolutions(a + b) == Resolutions(a) + Resolutions(b)
    decreases |a|
  {
    if a == [] {
      assert a + b == b && [] + Resolutions(b) == Resolutions(b);
    } else {
      assert (a + b)[1..] == a[1..] + b;
      ResolutionsAppend(a[1..], b);
      var own := if a[0].Resolved? then [Resolution(a[0].id, a[0].result)] else [];
      ConcatAssoc(own, Resolutions(a[1..]), Resolutions(b));
    }
  }

  /** The events of a stream with each control reply bound to the next outstanding id. */
  function Bind(pending: seq<CommandId>, events: seq<Event>): seq<Incoming>
    decreases |events|
  {
    if events == [] then []
    else
      match events[0]
      case Notice(n) => [Note(n)] + Bind(pending, events[1..])
      case Finished(reply) =>
        if !reply.control || pending == [] then Bind(pending, events[1..])
        else [Resolved(pending[0], Outcome(reply))] + Bind(pending[1..], events[1..])
  }

  /** The ids still outstanding after a number of control replies. */
  function Outstanding(pending: seq<CommandId>, replies: nat): seq<CommandId> {
    if replies <= |pending| then pending[replies..] else []
  }

  function LastNumber(last: Option<u64>, events: seq<Event>): Option<u64> {
    var replies := Controls(events);
    if replies == [] then last else Some(replies[|replies| - 1].number)
  }

  lemma LastNumberAppend(last: Option<u64>, a: seq<Event>, b: seq<Event>)
    ensures LastNumber(last, a + b) == LastNumber(LastNumber(last, a), b)
  {
    hide Controls;
    ControlsAppend(a, b);
  }

  lemma AfterEvent(e: EngineState, line: string)
    ensures var pushed := AfterPush(e.parser, line);
            AfterLine(e, line) == match pushed.event
              case None => Stepped(e.(parser := pushed.pending), None)
              case Some(Notice(n)) => Stepped(e.(parser := pushed.pending), Some(Note(n)))
              case Some(Finished(reply)) => AfterCorrelate(e.(parser := pushed.pending), reply)
  {
    hide AfterPush;
  }

  /** One event moves the FIFO as `Bind` says. */
  lemma BindOne(e: EngineState, event: Option<Event>, later: seq<Event>)
    ensures var s := match event
              case None => Stepped(e, None)
              case Some(Notice(n)) => Stepped(e, Some(Note(n)))
              case Some(Finished(reply)) => AfterCorrelate(e, reply);
            var events := AsSeq(event) + later;
            && Bind(e.pending, events) == AsSeq(s.out) + Bind(s.engine.pending, later)
            && Outstanding(e.pending, |Controls(events)|) == Outstanding(s.engine.pending, |Controls(later)|)
            && LastNumber(e.lastNumber, events) == LastNumber(s.engine.lastNumber, later)
            && s.engine == e.(pending := s.engine.pending, lastNumber := s.engine.lastNumber)
  {
    if event.None? {
      assert AsSeq(event) + later == later;
      assert [] + Bind(e.pending, later) == Bind(e.pending, later);
    } else {
      TailOfCons(event.value, later);
      assert [] + Bind(e.pending, later) == Bind(e.pending, later);
      assert [] + Controls(later) == Controls(later);
    }
  }

  /** The engine is its parser followed by positional correlation: nothing but the parsed
      events moves the FIFO, and nothing in the FIFO moves the parser. */
  lemma {:induction false} EngineIsScanThenBind(e: EngineState, lines: seq<string>)
    ensures var scanned := Scan(e.parser, lines);
            AfterLines(e, lines) == Fed(
              e.(parser := scanned.parser,
                 pending := Outstanding(e.pending, |Controls(scanned.events)|),
                 lastNumber := LastNumber(e.lastNumber, scanned.events)),
              Bind(e.pending, scanned.events))
    decreases |lines|
  {
    hide AfterPush, AfterLine;
    if lines != [] {
      var pushed, first := AfterPush(e.parser, lines[0]), AfterLine(e, lines[0]);
      AfterEvent(e, lines[0]);
      EngineIsScanThenBind(first.engine, lines[1..]);
      BindOne(e.(parser := pushed.pending), pushed.event, Scan(pushed.pending, lines[1..]).events);
    }
  }

  /** One event of `Bind`: what it adds, and to which FIFO the rest is bound. */
  lemma BindStep(pending: seq<CommandId>, event: Event, later: seq<Event>)
    ensures var events := [event] + later;
            var takes := event.Finished? && event.reply.control && pending != [];
            var rest := Bind(if takes then pending[1..] else pending, later);
            && Resolutions(Bind(pending, events))
            == (if takes then [Resolution(pending[0], Outcome(event.reply))] else []) + Resolutions(rest)
            && Notes(Bind(pending, events)) == (if event.Notice? then [event.notification] else []) + Notes(rest)
            && Controls(events)
               == (if event.Finished? && event.reply.control then [event.reply] else []) + Controls(later)
            && Notices(events) == (if event.Notice? then [event.notification] else []) + Notices(later)
  {
    TailOfCons(event, later);
    var takes := event.Finished? && event.reply.control && pending != [];
    var rest := Bind(if takes then pending[1..] else pending, later);
    assert [] + Resolutions(rest) == Resolutions(rest) && [] + Notes(rest) == Notes(rest);
    if event.Notice? {
      TailOfCons(Note(event.notification), rest);
    } else if takes {
      TailOfCons(Resolved(pending[0], Outcome(event.reply)), rest);
    }
  }

  /** Each reply with the id at its own position, as far as both go. */
  function Zip(ids: seq<CommandId>, replies: seq<Reply>): (r: seq<Resolution>)
    ensures |r| == if |replies| <= |ids| then |replies| else |ids|
    ensures forall k :: 0 <= k < |r| ==> r[k] == Resolution(ids[k], Outcome(replies[k]))
  {
    if ids == [] || replies == [] then []
    else [Resolution(ids[0], Outcome(replies[0]))] + Zip(ids[1..], replies[1..])
  }

  /** Binding in closed form: the k-th control reply goes to the k-th outstanding id. */
  lemma {:induction false} BindIsPositional(pending: seq<CommandId>, events: seq<Event>)
    ensures Resolutions(Bind(pending, events)) == Zip(pending, Controls(events))
    decreases |events|
  {
    if events != [] {
      var event, later := events[0], events[1..];
      var takes := event.Finished? && event.reply.control && pending != [];
      HeadTail(events);
      BindStep(pending, event, later);
      BindIsPositional(if takes then pending[1..] else pending, later);
      hide Bind, Resolutions, Controls;
      if takes {
        TailOfCons(event.reply, Controls(later));
      } else {
        assert [] + Zip(pending, Controls(later)) == Zip(pending, Controls(later));
        assert [] + Controls(later) == Controls(later);
        assert pending == [] ==> Zip(pending, Controls(events)) == [];
      }
    }
  }

  lemma {:induction false} IdsOfZip(ids: seq<CommandId>, replies: seq<Reply>)
    ensures Ids(Zip(ids, replies)) + Outstanding(ids, |replies|) == ids
  {
    var n := |Zip(ids, replies)|;
    assert Ids(Zip(ids, replies)) == ids[..n];
    assert Outstanding(ids, |replies|) == ids[n..];
  }

  /** Notifications pass through untouched, in order. */
  lemma {:induction false} BindKeepsNotices(pending: seq<CommandId>, events: seq<Event>)
    ensures Notes(Bind(pending, events)) == Notices(events)
    decreases |events|
  {
    if events != [] {
      var event, later := events[0], events[1..];
      var takes := event.Finished? && event.reply.control && pending != [];
      HeadTail(events);
      BindStep(pending, event, later);
      BindKeepsNotices(if takes then pending[1..] else pending, later);
    }
  }

  /** The ids bound and the ids left make up the FIFO. */
  lemma BoundThenOutstanding(pending: seq<CommandId>, events: seq<Event>)
    ensures var left := Outstanding(pending, |Controls(events)|);
            && |left| <= |pending| && left == pending[|pending| - |left|..]
            && Ids(Resolutions(Bind(pending, events))) + left == pending
  {
    BindIsPositional(pending, events);
    IdsOfZip(pending, Controls(events));
  }

  // ---- Chunks --------------------------------------------------------------------

  lemma {:induction false} AfterLinesAppend(e: EngineState, a: seq<string>, b: seq<string>)
    ensures var front := AfterLines(e, a);
            var back := AfterLines(front.engine, b);
            AfterLines(e, a + b) == Fed(back.engine, front.out + back.out)
    decreases |a|
  {
    hide AfterLine;
    if a == [] {
      assert a + b == b && [] + AfterLines(e, b).out == AfterLines(e, b).out;
    } else {
      var first := AfterLine(e, a[0]);
      ConcatAssoc([a[0]], a[1..], b);
      HeadTail(a);
      Engines.LinesCons(e, a[0], a[1..] + b);
      AfterLinesAppend(first.engine, a[1..], b);
      ConcatAssoc(AsSeq(first.out), AfterLines(first.engine, a[1..]).out, AfterLines(AfterLines(e, a).engine, b).out);
    }
  }

  /** Feeding two chunks is feeding their concatenation. */
  lemma {:induction false} FeedTwice(e: EngineState, a: string, b: string)
    ensures var first := AfterFeed(e, a);
            var second := AfterFeed(first.engine, b);
            AfterFeed(e, a + b) == Fed(second.engine, first.out + second.out)
  {
    hide AfterLine;
    var whole, tail := e.buf + a, Tail(e.buf + a);
    ConcatAssoc(e.buf, a, b);
    Text.LinesAppend(whole, b);
    AfterLinesAppend(e, Lines(whole), Lines(tail + b));
    var front := AfterLines(e, Lines(whole)).engine;
    LinesFrame(front, Lines(tail + b), tail);
  }

  function Concat(chunks: seq<string>): string {
    if chunks == [] then "" else chunks[0] + Concat(chunks[1..])
  }

  function AfterFeeds(e: EngineState, chunks: seq<string>): Fed
    decreases |chunks|
  {
    if chunks == [] then Fed(e, [])
    else
      var first := AfterFeed(e, chunks[0]);
      var others := AfterFeeds(first.engine, chunks[1..]);
      Fed(others.engine, first.out + others.out)
  }

  /** However a stream is cut, the engine ends in the same state having surfaced the same
      outcomes in the same order; the buffer then holds exactly the unfinished line. */
  lemma {:induction false} ChunkInvariance(e: EngineState, chunks: seq<string>)
    requires '\n' !in e.buf
    ensures AfterFeeds(e, chunks) == AfterFeed(e, Concat(chunks))
    ensures AfterFeeds(e, chunks).engine.buf == Tail(e.buf + Concat(chunks))
    decreases |chunks|
  {
    hide AfterFeed;
    FeedNothing(e);
    FeedLeavesTail(e, Concat(chunks));
    if chunks != [] {
      FeedLeavesTail(e, chunks[0]);
      FeedTwice(e, chunks[0], Concat(chunks[1..]));
      ChunkInvariance(AfterFeed(e, chunks[0]).engine, chunks[1..]);
    }
  }

  lemma FeedNothing(e: EngineState)
    requires '\n' !in e.buf
    ensures AfterFeed(e, "") == Fed(e, [])
  {
    assert e.buf + "" == e.buf;
    IndexOfNone(e.buf, '\n');
  }

  lemma FeedLeavesTail(e: EngineState, bytes: string)
    ensures AfterFeed(e, bytes).engine.buf == Tail(e.buf + bytes)
  {
    hide AfterLines;
  }

  // ---- Any line stream -----------------------------------------------------------

  datatype Opened = Opened(number: u64, control: bool)

  predicate IsBegin(line: string) { ParseGuard(line).Some? && ParseGuard(line).value.kind.Begin? }

  /** The `%begin` guards of a stream, in order. */
  function Begins(lines: seq<string>): seq<Opened> {
    if lines == [] then []
    else
      (if !IsBegin(lines[0]) then []
       else [Opened(ParseGuard(lines[0]).value.number, ParseGuard(lines[0]).value.control)])
      + Begins(lines[1..])
  }

  /** The blocks the events close, in order. */
  function Closed(events: seq<Event>): seq<Opened> {
    if events == [] then []
    else (if events[0].Finished? then [Opened(events[0].reply.number, events[0].reply.control)] else [])
         + Closed(events[1..])
  }

  function StillOpen(p: Option<PendingReply>): seq<Opened> {
    if p.None? then [] else [Opened(p.value.number, p.value.control)]
  }

  /** Is the reader inside a block after this line? */
  predicate InsideAfter(inside: bool, line: string) {
    if inside then ParseGuard(line).None? || ParseGuard(line).value.kind.Begin? else IsBegin(line)
  }

  /** The lines that fall inside blocks and are not guards. */
  function ContentLines(inside: bool, lines: seq<string>): seq<string>
    decreases |lines|
  {
    if lines == [] then []
    else (if inside && ParseGuard(lines[0]).None? then [lines[0]] else [])
         + ContentLines(InsideAfter(inside, lines[0]), lines[1..])
  }

  /** The non-blank lines that fall outside blocks and open none. */
  function NoticeLines(inside: bool, lines: seq<string>): seq<string>
    decreases |lines|
  {
    if lines == [] then []
    else (if !inside && lines[0] != "" && !IsBegin(lines[0]) then [lines[0]] else [])
         + NoticeLines(InsideAfter(inside, lines[0]), lines[1..])
  }

  /** All output the events carry, in order. */
  function Outputs(events: seq<Event>): seq<string> {
    if events == [] then []
    else (if events[0].Finished? then events[0].reply.output else []) + Outputs(events[1..])
  }

  function OpenOutput(p: Option<PendingReply>): seq<string> {
    if p.None? then [] else p.value.output
  }

  function ParseAll(lines: seq<string>): seq<Notification> {
    if lines == [] then [] else [ParseLine(lines[0])] + ParseAll(lines[1..])
  }

  /** A `%begin` guard is never taken for an output line. */
  lemma BeginIsNoOutput(line: string)
    requires IsBegin(line)
    ensures ParseOutputLine(line) == None
  {
    var name := Split(line[1..], ' ')[0];
    SplitHead(line[1..], ' ');
    assert name == "begin" && line[1] == name[0];
    NotAnOutputLine(line);
  }

  /** Outside a block a line is a `%begin`, blank, or a notification. */
  lemma PushOutside(line: string)
    ensures AfterPush(None, line) ==
            if IsBegin(line) then
              Pushed(Some(PendingReply(ParseGuard(line).value.number, ParseGuard(line).value.control, [])), None)
            else if line == "" then Pushed(None, None)
            else Pushed(None, Some(Notice(ParseLine(line))))
  {
    GuardStarts(line);
    hide ParseGuard, ParseNotification, ParseOutputLine;
    if IsBegin(line) {
      BeginIsNoOutput(line);
    }
  }

  lemma GuardStarts(line: string)
    ensures ParseGuard(line).Some? ==> line != "" && line[0] == '%'
    ensures ParseOutputLine("") == None
  {
  }

  lemma PushInside(block: PendingReply, line: string)
    ensures AfterPush(Some(block), line) == PushedWithinBlock(block, line)
  {
    hide PushedWithinBlock;
  }

  /** A blank line vanishes exactly outside blocks; inside one it is a line of output. */
  lemma BlankLine(p: Option<PendingReply>)
    ensures AfterPush(p, "") == Pushed(if p.None? then None else Some(p.value.(output := p.value.output + [""])), None)
  {
    GuardStarts("");
    hide ParseGuard, ParseOutputLine, ParseNotification;
  }

  /** The three ledgers of one line: blocks opened and closed, block output, notifications. */
  lemma PushLedger(p: Option<PendingReply>, line: string)
    ensures var pushed := AfterPush(p, line);
            var events := AsSeq(pushed.event);
            && Closed(events) + StillOpen(pushed.pending) == StillOpen(p) + Begins([line])
            && Outputs(events) + OpenOutput(pushed.pending) == OpenOutput(p) + ContentLines(p.Some?, [line])
            && Notices(events) == ParseAll(NoticeLines(p.Some?, [line]))
            && pushed.pending.Some? == InsideAfter(p.Some?, line)
  {
    hide ParseGuard, ParseLine, AfterPush;
    assert [line][1..] == [];
    match p {
      case None => PushOutside(line);
      case Some(block) => PushInside(block, line);
    }
  }

  lemma LedgersCons(inside: bool, line: string, lines: seq<string>)
    ensures Begins([line] + lines) == Begins([line]) + Begins(lines)
    ensures ContentLines(inside, [line] + lines)
         == ContentLines(inside, [line]) + ContentLines(InsideAfter(inside, line), lines)
    ensures NoticeLines(inside, [line] + lines)
         == NoticeLines(inside, [line]) + NoticeLines(InsideAfter(inside, line), lines)
  {
    hide ParseGuard;
    TailOfCons(line, lines);
    assert [line][1..] == [];
  }

  lemma {:induction false} EventLedgersAppend(a: seq<Event>, b: seq<Event>)
    ensures Closed(a + b) == Closed(a) + Closed(b)
    ensures Outputs(a + b) == Outputs(a) + Outputs(b)
    decreases |a|
  {
    if a == [] {
      assert a + b == b;
    } else {
      assert (a + b)[1..] == a[1..] + b;
      EventLedgersAppend(a[1..], b);
      var closed := if a[0].Finished? then [Opened(a[0].reply.number, a[0].reply.control)] else [];
      ConcatAssoc(closed, Closed(a[1..]), Closed(b));
      ConcatAssoc(if a[0].Finished? then a[0].reply.output else [], Outputs(a[1..]), Outputs(b));
    }
  }

  lemma {:induction false} ParseAllAppend(a: seq<string>, b: seq<string>)
    ensures ParseAll(a + b) == ParseAll(a) + ParseAll(b)
    decreases |a|
  {
    hide ParseLine;
    if a == [] {
      assert a + b == b;
    } else {
      assert (a + b)[1..] == a[1..] + b;
      ParseAllAppend(a[1..], b);
      ConcatAssoc([ParseLine(a[0])], ParseAll(a[1..]), ParseAll(b));
    }
  }

  /** On any stream at all: the blocks closed, then the one still open, are the `%begin`
      guards seen, in order; their output is the content lines, none lost, moved or
      reordered; the notifications are the lines outside blocks, in order. */
  lemma {:induction false} Correspondence(p: Option<PendingReply>, lines: seq<string>)
    ensures var scanned := Scan(p, lines);
            && Closed(scanned.events) + StillOpen(scanned.parser) == StillOpen(p) + Begins(lines)
            && Outputs(scanned.events) + OpenOutput(scanned.parser) == OpenOutput(p) + ContentLines(p.Some?, lines)
            && Notices(scanned.events) == ParseAll(NoticeLines(p.Some?, lines))
    decreases |lines|
  {
    hide ParseGuard, ParseLine, AfterPush;
    if lines == [] {
      assert StillOpen(p) + [] == [] + StillOpen(p) && OpenOutput(p) + [] == [] + OpenOutput(p);
    } else {
      var line, later := lines[0], lines[1..];
      var pushed := AfterPush(p, line);
      var events, rest := AsSeq(pushed.event), Scan(pushed.pending, later);
      HeadTail(lines);
      PushLedger(p, line);
      LedgersCons(p.Some?, line, later);
      Correspondence(pushed.pending, later);
      EventLedgersAppend(events, rest.events);
      NoticesAppend(events, rest.events);
      ParseAllAppend(NoticeLines(p.Some?, [line]), NoticeLines(pushed.pending.Some?, later));
      Regroup(Closed(events), Closed(rest.events), StillOpen(rest.parser), StillOpen(pushed.pending),
              Begins(later), StillOpen(p), Begins([line]));
      Regroup(Outputs(events), Outputs(rest.events), OpenOutput(rest.parser), OpenOutput(pushed.pending),
              ContentLines(pushed.pending.Some?, later), OpenOutput(p), ContentLines(p.Some?, [line]));
    }
  }

  lemma Regroup<T>(first: seq<T>, later: seq<T>, end: seq<T>, mid: seq<T>, rest: seq<T>, start: seq<T>, head: seq<T>)
    requires later + end == mid + rest
    requires first + mid == start + head
    ensures (first + later) + end == start + (head + rest)
  {
    ConcatAssoc(first, later, end);
    ConcatAssoc(first, mid, rest);
    ConcatAssoc(start, head, rest);
  }

  // ---- The desync tripwire -------------------------------------------------------

  /** Does this line make the debug assertion of `correlate` fire? */
  predicate Trips(e: EngineState, line: string) {
    match AfterPush(e.parser, line).event
    case Some(Finished(reply)) => reply.control && e.lastNumber.Some? && reply.number <= e.lastNumber.value
    case _ => false
  }

  predicate Quiet(e: EngineState, lines: seq<string>)
    decreases |lines|
  {
    lines == [] || (!Trips(e, lines[0]) && Quiet(AfterLine(e, lines[0]).engine, lines[1..]))
  }

  /** The reply numbers increase strictly, from `last` on. */
  predicate Increasing(last: Option<u64>, replies: seq<Reply>)
    decreases |replies|
  {
    replies == [] ||
    ((last.Some? ==> replies[0].number > last.value) && Increasing(Some(replies[0].number), replies[1..]))
  }

  /** The assertion stays quiet exactly when the control replies' numbers increase. */
  lemma {:induction false} QuietExactly(e: EngineState, lines: seq<string>)
    ensures Quiet(e, lines) <==> Increasing(e.lastNumber, Controls(Scan(e.parser, lines).events))
    decreases |lines|
  {
    hide AfterPush, AfterLine;
    if lines != [] {
      var pushed, first := AfterPush(e.parser, lines[0]), AfterLine(e, lines[0]);
      var later := Scan(pushed.pending, lines[1..]).events;
      AfterEvent(e, lines[0]);
      QuietExactly(first.engine, lines[1..]);
      ControlsAppend(AsSeq(pushed.event), later);
      assert [] + Controls(later) == Controls(later);
      if pushed.event.Some? && pushed.event.value.Finished? && pushed.event.value.reply.control {
        TailOfCons(pushed.event.value.reply, Controls(later));
      }
    }
  }

  /** The numbers of the control `%begin` guards, in order. */
  function ControlNumbers(blocks: seq<Opened>): seq<u64> {
    if blocks == [] then []
    else (if blocks[0].control then [blocks[0].number] else []) + ControlNumbers(blocks[1..])
  }

  predicate StrictlyIncreasing(ns: seq<u64>) {
    forall i, j :: 0 <= i < j < |ns| ==> ns[i] < ns[j]
  }

  lemma {:induction false} ControlNumbersAppend(a: seq<Opened>, b: seq<Opened>)
    ensures ControlNumbers(a + b) == ControlNumbers(a) + ControlNumbers(b)
    decreases |a|
  {
    if a == [] {
      assert a + b == b && [] + ControlNumbers(b) == ControlNumbers(b);
    } else {
      assert (a + b)[1..] == a[1..] + b;
      ControlNumbersAppend(a[1..], b);
      ConcatAssoc(if a[0].control then [a[0].number] else [], ControlNumbers(a[1..]), ControlNumbers(b));
    }
  }

  lemma NumbersOfControls(events: seq<Event>)
    ensures |ControlNumbers(Closed(events))| == |Controls(events)|
    ensures forall k :: 0 <= k < |Controls(events)| ==> ControlNumbers(Closed(events))[k] == Controls(events)[k].number
  {
    if events != [] {
      var later := Closed(events[1..]);
      NumbersOfControls(events[1..]);
      if events[0].Finished? {
        TailOfCons(Opened(events[0].reply.number, events[0].reply.control), later);
      } else {
        assert [] + later == later;
      }
    }
  }

  lemma {:induction false} IncreasingFrom(last: Option<u64>, replies: seq<Reply>)
    requires forall i, j :: 0 <= i < j < |replies| ==> replies[i].number < replies[j].number
    requires last.Some? && replies != [] ==> last.value < replies[0].number
    ensures Increasing(last, replies)
    decreases |replies|
  {
    if replies != [] {
      assert |replies| > 1 ==> replies[1..][0] == replies[1];
      IncreasingFrom(Some(replies[0].number), replies[1..]);
    }
  }

  // ---- FIFO accounting -----------------------------------------------------------

  datatype Op = Register | Chunk(bytes: string) | Eof

  function AfterOp(e: EngineState, op: Op): Fed {
    match op
    case Register => Fed(AfterRegister(e), [])
    case Chunk(bytes) => AfterFeed(e, bytes)
    case Eof => AfterEof(e)
  }

  function AfterOps(e: EngineState, ops: seq<Op>): Fed
    decreases |ops|
  {
    if ops == [] then Fed(e, [])
    else
      var first := AfterOp(e, ops[0]);
      var others := AfterOps(first.engine, ops[1..]);
      Fed(others.engine, first.out + others.out)
  }

  /** The ids from `lo` up to `hi`, `hi` excluded. */
  function Range(lo: nat, hi: nat): (r: seq<nat>)
    requires lo <= hi
    ensures |r| == hi - lo && forall k :: 0 <= k < |r| ==> r[k] == lo + k
  {
    seq(hi - lo, k requires 0 <= k => lo + k)
  }

  function Ids(resolutions: seq<Resolution>): (ids: seq<CommandId>)
    ensures |ids| == |resolutions| && forall k :: 0 <= k < |ids| ==> ids[k] == resolutions[k].id
  {
    if resolutions == [] then [] else [resolutions[0].id] + Ids(resolutions[1..])
  }

  /** The outstanding ids are the last ones handed out. */
  predicate Contiguous(e: EngineState) {
    |e.pending| <= e.nextId && e.pending == Range(e.nextId - |e.pending|, e.nextId)
  }

  lemma {:induction false} ResolutionsOfDrainedAre(pending: seq<CommandId>)
    ensures |Resolutions(Drained(pending))| == |pending|
    ensures forall k :: 0 <= k < |pending| ==> Resolutions(Drained(pending))[k] == Resolution(pending[k], Disconnected)
    decreases |pending|
  {
    if pending != [] {
      assert Drained(pending)[1..] == Drained(pending[1..]);
      ResolutionsOfDrainedAre(pending[1..]);
    }
  }

  lemma {:induction false} ResolutionsOfDrained(pending: seq<CommandId>)
    ensures Ids(Resolutions(Drained(pending))) == pending
    decreases |pending|
  {
    if pending != [] {
      assert Drained(pending)[1..] == Drained(pending[1..]);
      ResolutionsOfDrained(pending[1..]);
      var later := Resolutions(Drained(pending[1..]));
      assert Resolutions(Drained(pending)) == [Resolution(pending[0], Disconnected)] + later;
      TailOfCons(Resolution(pending[0], Disconnected), later);
      HeadTail(pending);
    }
  }

  /** Feeding resolves ids from the front of the FIFO and leaves the others. */
  lemma FeedAccounting(e: EngineState, bytes: string)
    ensures var fed := AfterFeed(e, bytes);
            && Ids(Resolutions(fed.out)) + fed.engine.pending == e.pending
            && |fed.engine.pending| <= |e.pending|
            && fed.engine.pending == e.pending[|e.pending| - |fed.engine.pending|..]
            && fed.engine.nextId == e.nextId
  {
    hide AfterLines, Scan, AfterPush;
    hide Bind, Controls, Resolutions, Outstanding;
    var lines := Lines(e.buf + bytes);
    EngineIsScanThenBind(e, lines);
    BoundThenOutstanding(e.pending, Scan(e.parser, lines).events);
  }

  /** One operation keeps the FIFO contiguous, and resolves ids from its front. */
  lemma OpAccounting(e: EngineState, op: Op)
    requires Contiguous(e)
    ensures var fed := AfterOp(e, op);
            && Contiguous(fed.engine) && fed.engine.nextId >= e.nextId
            && Ids(Resolutions(fed.out)) + fed.engine.pending
            == Range(e.nextId - |e.pending|, fed.engine.nextId)
  {
    hide AfterFeed, AfterEof;
    match op {
      case Register => RegisterAccounting(e);
      case Chunk(bytes) => FeedAccounting(e, bytes);
      case Eof => EofAccounting(e);
    }
  }

  lemma RegisterAccounting(e: EngineState)
    requires Contiguous(e)
    ensures Contiguous(AfterRegister(e))
    ensures Ids(Resolutions([])) + AfterRegister(e).pending == Range(e.nextId - |e.pending|, e.nextId + 1)
  {
    var pending := AfterRegister(e).pending;
    assert pending == Range(e.nextId - |e.pending|, e.nextId + 1);
    assert Ids(Resolutions([])) == [] && [] + pending == pending;
  }

  lemma EofAccounting(e: EngineState)
    requires Contiguous(e)
    ensures Contiguous(AfterEof(e).engine)
    ensures AfterEof(e).engine.nextId == e.nextId
    ensures Ids(Resolutions(AfterEof(e).out)) + AfterEof(e).engine.pending == Range(e.nextId - |e.pending|, e.nextId)
  {
    ResolutionsOfDrained(e.pending);
    assert e.pending + [] == e.pending;
  }

  lemma {:induction false} IdsAppend(a: seq<Resolution>, b: seq<Resolution>)
    ensures Ids(a + b) == Ids(a) + Ids(b)
    decreases |a|
  {
    if a == [] {
      assert a + b == b && [] + Ids(b) == Ids(b);
    } else {
      assert (a + b)[1..] == a[1..] + b;
      IdsAppend(a[1..], b);
      ConcatAssoc([a[0].id], Ids(a[1..]), Ids(b));
    }
  }

  lemma {:induction false} OpsAccounting(e: EngineState, ops: seq<Op>)
    requires Contiguous(e)
    ensures var fed := AfterOps(e, ops);
            && Contiguous(fed.engine) && fed.engine.nextId >= e.nextId
            && Ids(Resolutions(fed.out)) + fed.engine.pending
            == Range(e.nextId - |e.pending|, fed.engine.nextId)
    decreases |ops|
  {
    hide AfterOp, Resolutions, Ids;
    NoneResolved();
    if ops == [] {
      assert [] + e.pending == e.pending;
    } else {
      var first := AfterOp(e, ops[0]);
      OpAccounting(e, ops[0]);
      OpsAccounting(first.engine, ops[1..]);
      var others := AfterOps(first.engine, ops[1..]);
      ResolutionsAppend(first.out, others.out);
      var ids, ids' := Ids(Resolutions(first.out)), Ids(Resolutions(others.out));
      IdsAppend(Resolutions(first.out), Resolutions(others.out));
      ConcatAssoc(ids, ids', others.engine.pending);
      JoinRanges(ids, e.nextId - |e.pending|, first.engine.nextId, first.engine.pending, others.engine.nextId);
    }
  }

  lemma NoneResolved()
    ensures Ids(Resolutions([])) == []
  {
  }

  lemma JoinRanges(ids: seq<nat>, lo: nat, mid: nat, pending: seq<nat>, hi: nat)
    requires lo <= mid <= hi && |pending| <= mid
    requires ids + pending == Range(lo, mid) && pending == Range(mid - |pending|, mid)
    ensures ids + Range(mid - |pending|, hi) == Range(lo, hi)
  {
    assert forall k :: 0 <= k < |ids| ==> (ids + pending)[k] == ids[k];
  }

  /** Over any run of a fresh engine, the ids resolved so far followed by those still
      outstanding are 0, 1, 2, … up to the number registered: each command is resolved at
      most once, in order, and after an end of stream exactly once. */
  lemma {:induction false} FifoAccounting(ops: seq<Op>)
    ensures var fed := AfterOps(NEW_ENGINE, ops);
            && Ids(Resolutions(fed.out)) + fed.engine.pending == Range(0, fed.engine.nextId)
            && (ops != [] && ops[|ops| - 1] == Eof ==>
                Ids(Resolutions(fed.out)) == Range(0, fed.engine.nextId))
  {
    hide AfterOp;
    OpsAccounting(NEW_ENGINE, ops);
    if ops != [] && ops[|ops| - 1] == Eof {
      EofLast(NEW_ENGINE, ops);
      var ids := Ids(Resolutions(AfterOps(NEW_ENGINE, ops).out));
      assert ids + [] == ids;
    }
  }

  lemma {:induction false} EofLast(e: EngineState, ops: seq<Op>)
    requires ops != [] && ops[|ops| - 1] == Eof
    ensures AfterOps(e, ops).engine.pending == []
    decreases |ops|
  {
    hide AfterFeed;
    if |ops| > 1 {
      EofLast(AfterOp(e, ops[0]).engine, ops[1..]);
    }
  }

  // ---- The desync tripwire over whole runs ---------------------------------------

  /** The bytes fed over a run, in one piece. */
  function BytesOf(ops: seq<Op>): string {
    if ops == [] then "" else (if ops[0].Chunk? then ops[0].bytes else "") + BytesOf(ops[1..])
  }

  /** Does the assertion stay quiet on every line of a run, each handled by the engine that
      the registrations, chunks and ends of stream before it left? */
  predicate QuietRun(e: EngineState, ops: seq<Op>)
    decreases |ops|
  {
    ops == [] ||
    ((ops[0].Chunk? ==> Quiet(e, Lines(e.buf + ops[0].bytes))) && QuietRun(AfterOp(e, ops[0]).engine, ops[1..]))
  }

  function LastOf(last: Option<u64>, replies: seq<Reply>): Option<u64> {
    if replies == [] then last else Some(replies[|replies| - 1].number)
  }

  lemma {:induction false} IncreasingAppend(last: Option<u64>, a: seq<Reply>, b: seq<Reply>)
    ensures Increasing(last, a + b) <==> Increasing(last, a) && Increasing(LastOf(last, a), b)
    decreases |a|
  {
    if a == [] {
      assert a + b == b;
    } else {
      assert (a + b)[1..] == a[1..] + b;
      IncreasingAppend(Some(a[0].number), a[1..], b);
    }
  }

  /** Over any run the assertion stays quiet exactly when the numbers of the control replies
      in the bytes fed increase, however they are cut and whatever is registered between. */
  lemma {:induction false} QuietRunExactly(e: EngineState, ops: seq<Op>)
    requires '\n' !in e.buf
    ensures QuietRun(e, ops) <==> Increasing(e.lastNumber, Controls(Scan(e.parser, Lines(e.buf + BytesOf(ops))).events))
    decreases |ops|
  {
    hide AfterLines, Scan, Lines, Tail, Controls, Quiet, Bind;
    if ops == [] {
      QuietNothing(e);
    } else {
      var rest := BytesOf(ops[1..]);
      QuietRunExactly(AfterOp(e, ops[0]).engine, ops[1..]);
      match ops[0] {
        case Chunk(bytes) =>
          var lines := Lines(e.buf + bytes);
          var events := Scan(e.parser, lines).events;
          EngineIsScanThenBind(e, lines);
          QuietExactly(e, lines);
          ConcatAssoc(e.buf, bytes, rest);
          Text.LinesAppend(e.buf + bytes, rest);
          ScanAppend(e.parser, lines, Lines(Tail(e.buf + bytes) + rest));
          var events' := Scan(Scan(e.parser, lines).parser, Lines(Tail(e.buf + bytes) + rest)).events;
          ControlsAppend(events, events');
          IncreasingAppend(e.lastNumber, Controls(events), Controls(events'));
        case Register =>
          assert "" + rest == rest;
        case Eof =>
          assert "" + rest == rest;
      }
    }
  }

  lemma QuietNothing(e: EngineState)
    requires '\n' !in e.buf
    ensures Scan(e.parser, Lines(e.buf + "")) == Scanned(e.parser, []) && Controls([]) == []
  {
    assert e.buf + "" == e.buf;
    IndexOfNone(e.buf, '\n');
  }

  /** If the control `%begin` numbers in the bytes fed strictly increase, the assertion never
      fires in any run of a new engine, whatever is registered when, however the bytes are
      cut, whatever else they hold and whatever closing guards they lost. */
  lemma {:induction false} TripwireSound(ops: seq<Op>)
    requires StrictlyIncreasing(ControlNumbers(Begins(Lines(BytesOf(ops)))))
    ensures QuietRun(NEW_ENGINE, ops)
  {
    hide ParseGuard, AfterPush, AfterLine, Lines, Quiet, QuietRun, Scan, Controls;
    var lines := Lines(BytesOf(ops));
    var scanned := Scan(None, lines);
    var replies := Controls(scanned.events);
    Correspondence(None, lines);
    ControlNumbersAppend(Closed(scanned.events), StillOpen(scanned.parser));
    NumbersOfControls(scanned.events);
    var ns := ControlNumbers(Begins(lines));
    assert [] + Begins(lines) == Begins(lines);
    forall i, j | 0 <= i < j < |replies| ensures replies[i].number < replies[j].number {
      assert ns[i] < ns[j];
    }
    IncreasingFrom(None, replies);
    assert "" + BytesOf(ops) == BytesOf(ops);
    QuietRunExactly(NEW_ENGINE, ops);
  }
}
