/** Transcripts of a control session: what tmux writes, and what the engine makes of it,
    with every closing guard in place or with some of them lost. */
module Transcripts {
  import opened Text
  import opened Notifications
  import opened NotificationTheorems
  import opened Parsers
  import opened Engines
  import opened Streams

  /** What tmux writes: a notification line, or a command's reply block.  `closed` says
      whether the block's closing guard reaches the reader. */
  datatype Item =
    | Said(line: string)
    | Block(timestamp: string, number: u64, flags: u32, content: seq<string>, failed: bool, closed: bool)

  function OpeningGuard(b: Item): string
    requires b.Block?
  {
    PrintGuard(Begin, b.timestamp, b.number, b.flags)
  }

  function ClosingGuard(b: Item): string
    requires b.Block?
  {
    PrintGuard(if b.failed then Error else End, b.timestamp, b.number, b.flags)
  }

  function ItemLines(item: Item): seq<string> {
    match item
    case Said(line) => [line]
    case Block(_, _, _, content, _, closed) =>
      [OpeningGuard(item)] + (content + (if closed then [ClosingGuard(item)] else []))
  }

  function StreamLines(items: seq<Item>): seq<string> {
    if items == [] then [] else ItemLines(items[0]) + StreamLines(items[1..])
  }

  predicate ContentLine(line: string) { '\n' !in line && ParseGuard(line).None? }

  /** What tmux may write: notification lines that are neither blank nor guards, whatever
      they say, and block output that is not guard-shaped. */
  predicate Writable(item: Item) {
    match item
    case Said(line) => '\n' !in line && line != "" && ParseGuard(line).None?
    case Block(timestamp, _, _, content, _, _) =>
      ' ' !in timestamp && '\n' !in timestamp && forall k :: 0 <= k < |content| ==> ContentLine(content[k])
  }

  predicate AllWritable(items: seq<Item>) { forall k :: 0 <= k < |items| ==> Writable(items[k]) }

  // ---- Single lines --------------------------------------------------------------

  lemma FieldsOfFour(a: string, b: string, c: string, d: string)
    requires ' ' !in a && ' ' !in b && ' ' !in c && ' ' !in d
    ensures Split(a + " " + (b + " " + (c + " " + d)), ' ') == [a, b, c, d]
  {
    SplitAppend(a, ' ', b + " " + (c + " " + d));
    ThreeFields(b, c, d);
  }

  lemma GuardFields(name: string, timestamp: string, number: u64, flags: u32)
    requires ' ' !in name && ' ' !in timestamp
    ensures Split(name + " " + (timestamp + " " + (Decimal(number) + " " + Decimal(flags))), ' ')
         == [name, timestamp, Decimal(number), Decimal(flags)]
  {
    DecimalLacks(number, ' ');
    DecimalLacks(flags, ' ');
    FieldsOfFour(name, timestamp, Decimal(number), Decimal(flags));
  }

  lemma GuardFromFields(kind: GuardKind, timestamp: string, number: u64, flags: u32)
    ensures GuardOfFields([GuardName(kind), timestamp, Decimal(number), Decimal(flags)])
         == Some(Guard(kind, number, flags != 0))
  {
    ParseUintDecimal(number, U64_MAX);
    ParseUintDecimal(flags, U32_MAX);
  }

  /** A printed guard parses back to its kind, number and control flag. */
  lemma GuardRoundTrip(kind: GuardKind, timestamp: string, number: u64, flags: u32)
    requires ' ' !in timestamp
    ensures ParseGuard(PrintGuard(kind, timestamp, number, flags)) == Some(Guard(kind, number, flags != 0))
  {
    hide GuardOfFields, Split, Decimal;
    var body := GuardName(kind) + " " + (timestamp + " " + (Decimal(number) + " " + Decimal(flags)));
    TailOfCons('%', body);
    GuardFields(GuardName(kind), timestamp, number, flags);
    GuardFromFields(kind, timestamp, number, flags);
  }

  lemma JoinLacks(a: string, b: string, c: char)
    requires c !in a && c !in b && c != ' '
    ensures c !in a + " " + b
  {
  }

  lemma GuardFitsLine(kind: GuardKind, timestamp: string, number: u64, flags: u32)
    requires '\n' !in timestamp
    ensures '\n' !in PrintGuard(kind, timestamp, number, flags)
  {
    DecimalLacks(number, '\n');
    DecimalLacks(flags, '\n');
    JoinLacks(Decimal(number), Decimal(flags), '\n');
    JoinLacks(timestamp, Decimal(number) + " " + Decimal(flags), '\n');
    JoinLacks(GuardName(kind), timestamp + " " + (Decimal(number) + " " + Decimal(flags)), '\n');
  }

  lemma {:induction false} LinesFit(items: seq<Item>)
    requires AllWritable(items)
    ensures forall k :: 0 <= k < |StreamLines(items)| ==> '\n' !in StreamLines(items)[k]
  {
    hide ParseGuard, PrintGuard;
    if items != [] {
      var item := items[0];
      if item.Block? {
        GuardFitsLine(Begin, item.timestamp, item.number, item.flags);
        GuardFitsLine(if item.failed then Error else End, item.timestamp, item.number, item.flags);
      }
      LinesFit(items[1..]);
    }
  }

  // ---- What a transcript should surface ------------------------------------------

  function BlockReply(b: Item): Reply
    requires b.Block?
  {
    Reply(b.number, b.flags != 0, b.content, b.failed)
  }

  /** What the caller of a block's command should be told: its output lines, as a failure if
      tmux ended it with `%error`. */
  function ResultOf(b: Item): CommandResult
    requires b.Block?
  {
    if b.failed then Failed(b.content) else CommandResult.Output(b.content)
  }

  lemma OutcomeOfBlock(b: Item)
    requires b.Block?
    ensures Outcome(BlockReply(b)) == ResultOf(b)
  {
  }

  /** A block cut short before its closing guard. */
  function Truncated(block: Option<PendingReply>): seq<Event> {
    if block.None? then [] else [Finished(Close(block.value, true))]
  }

  /** The events of a transcript read with `stale` still open.  An unclosed block swallows
      the lines up to the next `%begin`, which fails it and starts afresh. */
  function Expected(stale: Option<PendingReply>, items: seq<Item>): Scanned
    decreases |items|
  {
    if items == [] then Scanned(stale, [])
    else
      match items[0]
      case Said(line) =>
        if stale.None? then
          var later := Expected(None, items[1..]);
          Scanned(later.parser, [Notice(ParseLine(line))] + later.events)
        else
          Expected(Some(stale.value.(output := stale.value.output + [line])), items[1..])
      case Block(_, number, flags, content, _, closed) =>
        var later := Expected(if closed then None else Some(PendingReply(number, flags != 0, content)), items[1..]);
        var own := if closed then [Finished(BlockReply(items[0]))] else [];
        Scanned(later.parser, Truncated(stale) + (own + later.events))
  }

  lemma {:induction false} ScanContent(block: PendingReply, content: seq<string>)
    requires forall k :: 0 <= k < |content| ==> ContentLine(content[k])
    ensures Scan(Some(block), content) == Scanned(Some(block.(output := block.output + content)), [])
    decreases |content|
  {
    hide ParseGuard, AfterPush;
    if content == [] {
      assert block.output + content == block.output;
    } else {
      assert ContentLine(content[0]);
      PushInside(block, content[0]);
      var block' := block.(output := block.output + [content[0]]);
      ScanContent(block', content[1..]);
      ConcatAssoc(block.output, [content[0]], content[1..]);
      HeadTail(content);
      assert [] + Scan(Some(block'), content[1..]).events == [];
    }
  }

  lemma PushOpening(stale: Option<PendingReply>, b: Item)
    requires b.Block? && Writable(b)
    ensures AfterPush(stale, OpeningGuard(b))
         == Pushed(Some(PendingReply(b.number, b.flags != 0, [])),
                   if stale.None? then None else Some(Truncated(stale)[0]))
  {
    hide ParseGuard, AfterPush, PrintGuard;
    GuardRoundTrip(Begin, b.timestamp, b.number, b.flags);
    if stale.None? {
      PushOutside(OpeningGuard(b));
    } else {
      PushInside(stale.value, OpeningGuard(b));
    }
  }

  lemma PushClosing(block: PendingReply, b: Item)
    requires b.Block? && Writable(b)
    ensures AfterPush(Some(block), ClosingGuard(b)) == Pushed(None, Some(Finished(Close(block, b.failed))))
  {
    hide ParseGuard, AfterPush, PrintGuard;
    GuardRoundTrip(if b.failed then Error else End, b.timestamp, b.number, b.flags);
    PushInside(block, ClosingGuard(b));
  }

  lemma ScanOne(p: Option<PendingReply>, line: string)
    ensures Scan(p, [line]) == Scanned(AfterPush(p, line).pending, AsSeq(AfterPush(p, line).event))
  {
    hide AfterPush;
    assert [line][1..] == [];
    var event := AfterPush(p, line).event;
    assert AsSeq(event) + [] == AsSeq(event);
  }

  /** A block's lines, read after `stale`. */
  lemma ScanBlock(stale: Option<PendingReply>, b: Item)
    requires b.Block? && Writable(b)
    ensures Scan(stale, ItemLines(b)) == Scanned(
              if b.closed then None else Some(PendingReply(b.number, b.flags != 0, b.content)),
              Truncated(stale) + (if b.closed then [Finished(BlockReply(b))] else []))
  {
    hide ParseGuard, AfterPush, Scan, OpeningGuard, ClosingGuard;
    var begun, filled := PendingReply(b.number, b.flags != 0, []), PendingReply(b.number, b.flags != 0, b.content);
    var closing := if b.closed then [ClosingGuard(b)] else [];
    PushOpening(stale, b);
    ScanOne(stale, OpeningGuard(b));
    ScanAppend(stale, [OpeningGuard(b)], b.content + closing);
    ScanContent(begun, b.content);
    assert begun.output + b.content == b.content;
    ScanAppend(Some(begun), b.content, closing);
    if b.closed {
      PushClosing(filled, b);
      ScanOne(Some(filled), ClosingGuard(b));
    } else {
      ScanNothing(Some(filled));
    }
  }

  lemma ScanNothing(p: Option<PendingReply>)
    ensures Scan(p, []) == Scanned(p, [])
  {
  }

  lemma ScanSaid(stale: Option<PendingReply>, line: string)
    requires Writable(Said(line))
    ensures Scan(stale, [line]) ==
              if stale.None? then Scanned(None, [Notice(ParseLine(line))])
              else Scanned(Some(stale.value.(output := stale.value.output + [line])), [])
  {
    hide ParseGuard, ParseLine, AfterPush, Scan;
    ScanOne(stale, line);
    if stale.None? {
      PushOutside(line);
    } else {
      PushInside(stale.value, line);
    }
  }

  /** Reading a transcript, closing guards lost or not, surfaces the expected events. */
  lemma {:induction false} ScanTranscript(stale: Option<PendingReply>, items: seq<Item>)
    requires AllWritable(items)
    ensures Scan(stale, StreamLines(items)) == Expected(stale, items)
    decreases |items|
  {
    hide ParseGuard, ParseLine, AfterPush, Scan, Writable, ItemLines;
    if items == [] {
      ScanNothing(stale);
    } else {
      var item, later := items[0], items[1..];
      ScanAppend(stale, ItemLines(item), StreamLines(later));
      match item {
        case Said(line) =>
          assert ItemLines(item) == [line] by { LinesOfSaid(line); }
          ScanSaid(stale, line);
        case Block(_, number, flags, content, _, closed) =>
          ScanBlock(stale, item);
      }
      var mid := Scan(stale, ItemLines(item)).parser;
      ScanTranscript(mid, later);
      var events := Expected(mid, later).events;
      assert [] + events == events;
      if item.Block? {
        ConcatAssoc(Truncated(stale), if item.closed then [Finished(BlockReply(item))] else [], events);
      }
    }
  }

  lemma LinesOfSaid(line: string)
    ensures ItemLines(Said(line)) == [line]
  {
  }

  // ---- Whole transcripts ---------------------------------------------------------

  /** The transcript as tmux wrote it, every closing guard in place. */
  function Whole(items: seq<Item>): (r: seq<Item>)
    ensures |r| == |items|
  {
    if items == [] then []
    else [if items[0].Block? then items[0].(closed := true) else items[0]] + Whole(items[1..])
  }

  /** What an item means: the notification its line stands for, or the finished reply. */
  function EventOf(item: Item): Event {
    match item
    case Said(line) => Notice(ParseLine(line))
    case Block(_, _, _, _, _, _) => Finished(BlockReply(item))
  }

  function EventsOf(items: seq<Item>): seq<Event> {
    if items == [] then [] else [EventOf(items[0])] + EventsOf(items[1..])
  }

  predicate Intact(items: seq<Item>) { forall k :: 0 <= k < |items| ==> items[k].Block? ==> items[k].closed }

  lemma {:induction false} WholeIsIntact(items: seq<Item>)
    ensures Intact(Whole(items)) && EventsOf(Whole(items)) == EventsOf(items)
    ensures AllWritable(items) ==> AllWritable(Whole(items))
  {
    if items != [] {
      var item := if items[0].Block? then items[0].(closed := true) else items[0];
      WholeIsIntact(items[1..]);
      TailOfCons(item, Whole(items[1..]));
      if AllWritable(items) {
        assert Writable(items[0]);
        assert Writable(item);
      }
    }
  }

  lemma {:induction false} ExpectedOfIntact(items: seq<Item>)
    requires Intact(items)
    ensures Expected(None, items) == Scanned(None, EventsOf(items))
    decreases |items|
  {
    if items != [] {
      ExpectedOfIntact(items[1..]);
      var later := EventsOf(items[1..]);
      if items[0].Block? {
        var finished := [Finished(BlockReply(items[0]))];
        assert [] + (finished + later) == finished + later;
      }
    }
  }

  /** The reply blocks of our own commands, in order. */
  function ControlBlocks(items: seq<Item>): (blocks: seq<Item>)
    ensures forall k :: 0 <= k < |blocks| ==> blocks[k].Block?
  {
    if items == [] then []
    else (if items[0].Block? && items[0].flags != 0 then [items[0]] else []) + ControlBlocks(items[1..])
  }

  lemma {:induction false} ControlsAreBlocks(items: seq<Item>)
    ensures |Controls(EventsOf(items))| == |ControlBlocks(items)|
    ensures forall k :: 0 <= k < |ControlBlocks(items)| ==>
              Controls(EventsOf(items))[k] == BlockReply(ControlBlocks(items)[k])
    decreases |items|
  {
    hide ParseLine;
    if items != [] {
      var item, later := items[0], items[1..];
      ControlsAreBlocks(later);
      TailOfCons(EventOf(item), EventsOf(later));
      ControlOfOne(item, EventsOf(later));
      hide Controls, EventsOf, BlockReply, EventOf;
      if item.Block? && item.flags != 0 {
        assert ControlBlocks(items) == [item] + ControlBlocks(later);
      } else {
        assert ControlBlocks(items) == ControlBlocks(later);
      }
    }
  }

  lemma ControlOfOne(item: Item, later: seq<Event>)
    ensures Controls([EventOf(item)] + later)
         == (if item.Block? && item.flags != 0 then [BlockReply(item)] else []) + Controls(later)
  {
    hide ParseLine;
    TailOfCons(EventOf(item), later);
  }

  /** Each outstanding command in turn is told what its own block says. */
  predicate AnsweredBy(rs: seq<Resolution>, pending: seq<CommandId>, blocks: seq<Item>) {
    && |rs| == (if |blocks| <= |pending| then |blocks| else |pending|)
    && forall k :: 0 <= k < |rs| ==> blocks[k].Block? && rs[k] == Resolution(pending[k], ResultOf(blocks[k]))
  }

  lemma ZipAnswers(pending: seq<CommandId>, items: seq<Item>)
    ensures AnsweredBy(Zip(pending, Controls(EventsOf(items))), pending, ControlBlocks(items))
  {
    hide Controls, EventsOf, ControlBlocks, Zip, Outcome, ResultOf;
    var blocks := ControlBlocks(items);
    ControlsAreBlocks(items);
    forall k | 0 <= k < |blocks| ensures Outcome(BlockReply(blocks[k])) == ResultOf(blocks[k]) {
      OutcomeOfBlock(blocks[k]);
    }
  }

  function Bytes(items: seq<Item>): string { Unlines(StreamLines(items)) }

  predicate Idle(e: EngineState) { e.parser.None? && e.buf == "" }

  /** Any chunking of a transcript's bytes, fed to an idle engine. */
  lemma {:induction false} FeedTranscript(e: EngineState, items: seq<Item>, chunks: seq<string>)
    requires Idle(e) && AllWritable(items) && Concat(chunks) == Bytes(items)
    ensures var expected := Expected(None, items);
            AfterFeeds(e, chunks) == Fed(
              e.(parser := expected.parser,
                 pending := Outstanding(e.pending, |Controls(expected.events)|),
                 lastNumber := LastNumber(e.lastNumber, expected.events)),
              Bind(e.pending, expected.events))
  {
    hide AfterLines, Scan, Expected, Writable, StreamLines, Controls, Bind, Lines, Tail;
    var lines := StreamLines(items);
    ChunkInvariance(e, chunks);
    assert e.buf + Concat(chunks) == Unlines(lines);
    LinesFit(items);
    LinesOfUnlines(lines, "");
    EmptyText();
    assert Unlines(lines) + "" == Unlines(lines) && lines + [] == lines;
    EngineIsScanThenBind(e, lines);
    ScanTranscript(None, items);
  }

  lemma EmptyText()
    ensures Lines("") == [] && Tail("") == ""
  {
  }

  /** Printing any transcript and feeding it in any chunking yields exactly its
      notifications and control replies, in order, the k-th control reply bound to the k-th
      outstanding id, server-internal blocks invisible, and leaves the engine idle. */
  lemma {:induction false} TranscriptRoundTrip(e: EngineState, items: seq<Item>, chunks: seq<string>)
    requires Idle(e) && AllWritable(items) && Intact(items) && Concat(chunks) == Bytes(items)
    ensures var fed := AfterFeeds(e, chunks);
            && fed.out == Bind(e.pending, EventsOf(items))
            && AnsweredBy(Resolutions(fed.out), e.pending, ControlBlocks(items))
            && Resolutions(fed.out) == Zip(e.pending, Controls(EventsOf(items)))
            && Notes(fed.out) == Notices(EventsOf(items))
            && Idle(fed.engine) && fed.engine.pending == Outstanding(e.pending, |Controls(EventsOf(items))|)
  {
    hide AfterFeeds, Bytes, Writable, AnsweredBy, ControlBlocks;
    FeedTranscript(e, items, chunks);
    ExpectedOfIntact(items);
    ZipAnswers(e.pending, items);
    BindIsPositional(e.pending, EventsOf(items));
    BindKeepsNotices(e.pending, EventsOf(items));
  }
}
