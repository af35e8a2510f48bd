/** The sessions that survive: exactly those whose notifications the line grammar can
    carry and whose block output holds no line shaped like a guard. */
module TranscriptExactness {
  import opened Text
  import opened Notifications
  import opened NotificationTheorems
  import opened Parsers
  import opened Engines
  import opened Streams
  import opened Transcripts

  /** What tmux wants to say: a notification, printed as its line, or a block. */
  datatype Entry = Saying(notification: Notification, header: string) | Replying(block: Item)

  function ItemOf(entry: Entry): Item {
    match entry
    case Saying(n, header) => Said(PrintNote(n, header))
    case Replying(block) => block
  }

  function ItemsOf(entries: seq<Entry>): (items: seq<Item>)
    ensures |items| == |entries| && forall k :: 0 <= k < |entries| ==> items[k] == ItemOf(entries[k])
  {
    if entries == [] then [] else [ItemOf(entries[0])] + ItemsOf(entries[1..])
  }

  /** The event an entry should surface as. */
  function Intended(entry: Entry): Event {
    match entry
    case Saying(n, _) => Notice(n)
    case Replying(block) => EventOf(block)
  }

  function AllIntended(entries: seq<Entry>): seq<Event> {
    if entries == [] then [] else [Intended(entries[0])] + AllIntended(entries[1..])
  }

  /** One line a line: nothing is asked of what the lines say. */
  predicate Printable(entry: Entry) {
    match entry
    case Saying(n, header) =>
      && '\n' !in PrintNote(n, header)
      && (if n.Unknown? then n.line != "" && ParseGuard(n.line).None? else PlainHeader(header))
    case Replying(Said(_)) => false
    case Replying(Block(timestamp, _, _, content, _, closed)) =>
      && ' ' !in timestamp && '\n' !in timestamp && closed
      && forall k :: 0 <= k < |content| ==> '\n' !in content[k]
  }

  predicate AllPrintable(entries: seq<Entry>) { forall k :: 0 <= k < |entries| ==> Printable(entries[k]) }

  predicate HasGuard(content: seq<string>) { exists k :: 0 <= k < |content| && ParseGuard(content[k]).Some? }

  /** What the line grammar can carry. */
  predicate Carried(entry: Entry) {
    match entry
    case Saying(n, _) => if n.Unknown? then ParseLine(n.line) == n else Admissible(n)
    case Replying(Said(_)) => false
    case Replying(Block(_, _, _, content, _, _)) => !HasGuard(content)
  }

  predicate AllCarried(entries: seq<Entry>) { forall k :: 0 <= k < |entries| ==> Carried(entries[k]) }

  // ---- Notification lines --------------------------------------------------------

  lemma NotAGuard(line: string)
    requires line != "" && GuardKindOf(SplitKind(line).0) == None
    ensures ParseGuard(line) == None
  {
    hide GuardKindOf;
    SplitHead(line[1..], ' ');
    assert line[1..][..|line[1..]|] == line[1..];
  }

  lemma OutputIsNoGuard(line: string, rest: string)
    requires line == OUTPUT_PREFIX + rest || line == EXTENDED_PREFIX + rest
    ensures line != "" && ParseGuard(line) == None
  {
    if line == OUTPUT_PREFIX + rest {
      assert line[1..] == "output" + " " + rest;
      SplitOnceAppend("output", ' ', rest);
    } else {
      assert line[1..] == "extended-output" + " " + rest;
      SplitOnceAppend("extended-output", ' ', rest);
    }
    NotAGuard(line);
  }

  lemma PrintedTextIsNoGuard(n: Notification, header: string)
    requires KeywordFor(n).Some?
    ensures PrintNote(n, header) != "" && ParseGuard(PrintNote(n, header)) == None
  {
    hide ParseGuard;
    PrintedKind(n, header);
    KeywordIsNoGuard(KeywordFor(n).value);
    NotAGuard(PrintNote(n, header));
  }

  /** A printed notification is no guard, and reads back exactly when it can be carried. */
  lemma SayingLine(n: Notification, header: string)
    requires Printable(Saying(n, header))
    ensures var line := PrintNote(n, header);
            && line != "" && ParseGuard(line) == None && Writable(Said(line))
            && (ParseLine(line) == n <==> Carried(Saying(n, header)))
  {
    hide ParseGuard, ParseLine;
    if !n.Unknown? {
      NotificationTheorems.RoundTrip(n, header);
      var line := PrintNote(n, header);
      match n {
        case Output(_, _) => OutputIsNoGuard(line, line[|OUTPUT_PREFIX|..]);
        case ExtendedOutput(_, _, _) => OutputIsNoGuard(line, line[|EXTENDED_PREFIX|..]);
        case _ => PrintedTextIsNoGuard(n, header);
      }
    }
  }

  // ---- Blocks --------------------------------------------------------------------

  /** A content line shaped like a guard closes its block short. */
  lemma {:induction false} GuardCutsShort(block: PendingReply, content: seq<string>, more: seq<string>)
    requires HasGuard(content)
    ensures var events := Scan(Some(block), content + more).events;
            events != [] && events[0].Finished? && |events[0].reply.output| < |block.output| + |content|
    decreases |content|
  {
    hide ParseGuard, AfterPush;
    var first := AfterPush(Some(block), content[0]);
    PushInside(block, content[0]);
    HeadTail(content);
    ConcatAssoc([content[0]], content[1..], more);
    ScanCons(Some(block), content[0], content[1..] + more);
    if ParseGuard(content[0]).None? {
      assert HasGuard(content[1..]) by {
        var k :| 0 <= k < |content| && ParseGuard(content[k]).Some?;
        assert content[1..][k - 1] == content[k];
      }
      GuardCutsShort(first.pending.value, content[1..], more);
      var later := Scan(first.pending, content[1..] + more).events;
      assert [] + later == later;
    }
  }

  lemma OpeningPush(b: Item)
    requires b.Block? && ' ' !in b.timestamp
    ensures AfterPush(None, OpeningGuard(b)) == Pushed(Some(PendingReply(b.number, b.flags != 0, [])), None)
  {
    hide ParseGuard, AfterPush, PrintGuard;
    GuardRoundTrip(Begin, b.timestamp, b.number, b.flags);
    PushOutside(OpeningGuard(b));
  }

  /** A block that cannot be carried surfaces as some other reply. */
  lemma BlockDiffers(b: Item, more: seq<string>)
    requires b.Block? && Printable(Replying(b)) && HasGuard(b.content)
    ensures var events := Scan(None, ItemLines(b) + more).events;
            events != [] && events[0] != Finished(BlockReply(b))
  {
    hide AfterPush, ParseGuard, HasGuard, OpeningGuard, ClosingGuard, Scan;
    var closing := if b.closed then [ClosingGuard(b)] else [];
    OpeningPush(b);
    ConcatAssoc([OpeningGuard(b)], b.content + closing, more);
    ConcatAssoc(b.content, closing, more);
    ScanCons(None, OpeningGuard(b), b.content + (closing + more));
    var begun := PendingReply(b.number, b.flags != 0, []);
    GuardCutsShort(begun, b.content, closing + more);
    var later := Scan(Some(begun), b.content + (closing + more)).events;
    assert [] + later == later;
  }

  lemma BlockIsWritable(b: Item)
    requires b.Block? && Printable(Replying(b)) && Carried(Replying(b))
    ensures Writable(b) && b.closed
  {
    hide ParseGuard;
  }

  // ---- Sessions ------------------------------------------------------------------

  lemma CarriedScans(entry: Entry)
    requires Printable(entry) && Carried(entry)
    ensures Scan(None, ItemLines(ItemOf(entry))) == Scanned(None, [Intended(entry)])
    ensures Writable(ItemOf(entry)) && EventOf(ItemOf(entry)) == Intended(entry)
  {
    hide Scan, ParseLine, PrintNote;
    match entry {
      case Saying(n, header) =>
        SayingLine(n, header);
        ScanSaid(None, PrintNote(n, header));
      case Replying(block) =>
        BlockIsWritable(block);
        ScanBlock(None, block);
    }
  }

  lemma NotCarried(entry: Entry, more: seq<string>)
    requires Printable(entry) && !Carried(entry)
    ensures var events := Scan(None, ItemLines(ItemOf(entry)) + more).events;
            events != [] && events[0] != Intended(entry)
  {
    hide Scan, ParseLine, AfterPush, PrintNote, HasGuard, ParseGuard;
    match entry {
      case Saying(n, header) =>
        var line := PrintNote(n, header);
        SayingLine(n, header);
        PushOutside(line);
        ScanCons(None, line, more);
      case Replying(block) =>
        BlockDiffers(block, more);
    }
  }

  lemma FirstEvent(a: Event, later: seq<Event>, later': seq<Event>)
    ensures [a] + later == [a] + later' <==> later == later'
  {
    TailOfCons(a, later);
    TailOfCons(a, later');
  }

  /** A printed session reads back as itself, and leaves no block open, if and only if every
      entry is one the grammar can carry. */
  lemma {:induction false} SessionExactly(entries: seq<Entry>)
    requires AllPrintable(entries)
    ensures Scan(None, StreamLines(ItemsOf(entries))) == Scanned(None, AllIntended(entries)) <==> AllCarried(entries)
    decreases |entries|
  {
    hide Scan, ItemLines, Printable, Carried, Writable, Intended, EventOf;
    if entries == [] {
      ScanNothing(None);
    } else {
      var entry, later := entries[0], entries[1..];
      assert Printable(entry);
      assert ItemsOf(entries)[1..] == ItemsOf(later);
      assert forall k :: 1 <= k < |entries| ==> entries[k] == later[k - 1];
      if Carried(entry) {
        CarriedScans(entry);
        ScanAppend(None, ItemLines(ItemOf(entry)), StreamLines(ItemsOf(later)));
        SessionExactly(later);
        FirstEvent(Intended(entry), Scan(None, StreamLines(ItemsOf(later))).events, AllIntended(later));
      } else {
        NotCarried(entry, StreamLines(ItemsOf(later)));
        assert Scan(None, StreamLines(ItemsOf(entries))).events[0] != AllIntended(entries)[0];
      }
    }
  }

  lemma {:induction false} CarriedSession(entries: seq<Entry>)
    requires AllPrintable(entries) && AllCarried(entries)
    ensures AllWritable(ItemsOf(entries)) && Intact(ItemsOf(entries))
    ensures EventsOf(ItemsOf(entries)) == AllIntended(entries)
    decreases |entries|
  {
    hide ItemLines, Writable, Intended, EventOf, Carried;
    if entries != [] {
      CarriedScans(entries[0]);
      CarriedSession(entries[1..]);
      TailOfCons(ItemOf(entries[0]), ItemsOf(entries[1..]));
    }
  }

  /** Print any notifications the grammar can carry, among any reply blocks, and feed the
      bytes in any chunks: those notifications and control replies come out, in order, the
      k-th control reply for the k-th outstanding id. */
  lemma {:induction false} SessionRoundTrip(e: EngineState, entries: seq<Entry>, chunks: seq<string>)
    requires Idle(e) && AllPrintable(entries) && AllCarried(entries)
    requires Concat(chunks) == Bytes(ItemsOf(entries))
    ensures var fed := AfterFeeds(e, chunks);
            && fed.out == Bind(e.pending, AllIntended(entries))
            && AnsweredBy(Resolutions(fed.out), e.pending, ControlBlocks(ItemsOf(entries)))
            && Notes(fed.out) == Notices(AllIntended(entries))
            && Idle(fed.engine) && fed.engine.pending == Outstanding(e.pending, |Controls(AllIntended(entries))|)
  {
    hide *;
    CarriedSession(entries);
    TranscriptRoundTrip(e, ItemsOf(entries), chunks);
  }

  // ---- Pane output ---------------------------------------------------------------

  /** Bytes a pane wrote, under flow control when tmux says how far behind it is. */
  function PaneNote(pane: u32, behind: Option<u64>, bytes: string): Notification {
    if behind.None? then Notification.Output(pane, bytes) else ExtendedOutput(pane, behind.value, bytes)
  }

  /** Pane output, end to end: whatever bytes a pane wrote, escaped, framed and cut into any
      chunks, they come out as one notification holding exactly those bytes. */
  lemma PaneOutputSurvives(e: EngineState, pane: u32, behind: Option<u64>, bytes: string, chunks: seq<string>)
    requires Idle(e)
    requires Concat(chunks) == PrintNote(PaneNote(pane, behind, bytes), "") + "\n"
    ensures AfterFeeds(e, chunks) == Fed(e, [Note(PaneNote(pane, behind, bytes))])
  {
    hide AfterFeeds, PrintNote, ParseLine, ParseGuard;
    var n := PaneNote(pane, behind, bytes);
    var line := PrintNote(n, "");
    var item := Said(line);
    OutputFitsLine(n);
    SayingLine(n, "");
    UnlinesOfOne(line);
    assert [item][1..] == [] && ItemLines(item) + [] == ItemLines(item);
    assert StreamLines([item]) == [line];
    FeedTranscript(e, [item], chunks);
    assert Expected(None, [item]) == Scanned(None, [Notice(n)]);
    assert [Notice(n)][1..] == [];
    assert Bind(e.pending, [Notice(n)]) == [Note(n)];
  }

  lemma UnlinesOfOne(line: string)
    ensures Unlines([line]) == line + "\n"
  {
    assert [line][1..] == [];
    assert Unlines([line]) == line + "\n" + Unlines([]);
  }

  lemma OutputFitsLine(n: Notification)
    requires n.Output? || n.ExtendedOutput?
    ensures '\n' !in PrintNote(n, "")
  {
    match n {
      case Output(pane, bytes) =>
        Output.EncodeHasNoControl(bytes);
        IdLacks('%', pane, '\n');
      case ExtendedOutput(pane, ms, bytes) =>
        Output.EncodeHasNoControl(bytes);
        IdLacks('%', pane, '\n');
        DecimalLacks(ms, '\n');
    }
  }
}
