/** Reply blocks on any line stream at all: which lines each reply holds, and how it ends. */
module Blocks {
  import opened Text
  import opened Notifications
  import opened Parsers
  import opened Engines
  import opened Streams

  predicate IsGuard(line: string) { ParseGuard(line).Some? }

  predicate IsEnd(line: string) { IsGuard(line) && ParseGuard(line).value.kind.End? }

  /** The number of lines before the next guard. */
  function UntilGuard(lines: seq<string>): (n: nat)
    ensures n <= |lines|
    ensures forall k :: 0 <= k < n ==> !IsGuard(lines[k])
    ensures n < |lines| ==> IsGuard(lines[n])
  {
    if lines == [] || IsGuard(lines[0]) then 0 else 1 + UntilGuard(lines[1..])
  }

  /** The block a `%begin` opens. */
  function OpenedBy(line: string): PendingReply
    requires IsBegin(line)
  {
    PendingReply(ParseGuard(line).value.number, ParseGuard(line).value.control, [])
  }

  /** The reply a block becomes: it holds the lines up to the next guard of any kind, and is
      an error unless that guard is an `%end`.  Without a guard there is no reply. */
  function ReplyOf(block: PendingReply, lines: seq<string>): seq<Reply> {
    var n := UntilGuard(lines);
    if n == |lines| then []
    else [Reply(block.number, block.control, block.output + lines[..n], !IsEnd(lines[n]))]
  }

  /** Each `%begin`, wherever it stands, with the reply it starts. */
  function RepliesOf(lines: seq<string>): seq<Reply> {
    if lines == [] then []
    else (if IsBegin(lines[0]) then ReplyOf(OpenedBy(lines[0]), lines[1..]) else []) + RepliesOf(lines[1..])
  }

  /** A block, if no guard comes any more. */
  function OpenOf(block: PendingReply, lines: seq<string>): Option<PendingReply> {
    if UntilGuard(lines) == |lines| then Some(block.(output := block.output + lines)) else None
  }

  function OrElse<T>(o: Option<T>, other: Option<T>): Option<T> { if o.Some? then o else other }

  /** The block still open at the end: the last `%begin`'s, if no guard follows it. */
  function LeftOpen(lines: seq<string>): Option<PendingReply> {
    if lines == [] then None
    else if !IsBegin(lines[0]) then LeftOpen(lines[1..])
    else OrElse(OpenOf(OpenedBy(lines[0]), lines[1..]), LeftOpen(lines[1..]))
  }

  function AllReplies(events: seq<Event>): seq<Reply> {
    if events == [] then []
    else (if events[0].Finished? then [events[0].reply] else []) + AllReplies(events[1..])
  }

  lemma AllRepliesOf(event: Option<Event>, later: seq<Event>)
    ensures AllReplies(AsSeq(event) + later)
         == (if event.Some? && event.value.Finished? then [event.value.reply] else []) + AllReplies(later)
  {
    if event.Some? {
      TailOfCons(event.value, later);
    } else {
      assert AsSeq(event) + later == later && [] + AllReplies(later) == AllReplies(later);
    }
  }

  /** A content line joins the block it falls in. */
  lemma ContentJoins(block: PendingReply, line: string, later: seq<string>)
    requires !IsGuard(line)
    ensures var grown := block.(output := block.output + [line]);
            && ReplyOf(grown, later) == ReplyOf(block, [line] + later)
            && OpenOf(grown, later) == OpenOf(block, [line] + later)
  {
    hide IsGuard;
    var n := UntilGuard(later);
    TailOfCons(line, later);
    ConcatAssoc(block.output, [line], later);
    ConcatAssoc(block.output, [line], later[..n]);
    assert ([line] + later)[..n + 1] == [line] + later[..n];
  }

  /** A guard ends the block right there. */
  lemma GuardEnds(block: PendingReply, line: string, later: seq<string>)
    requires IsGuard(line)
    ensures ReplyOf(block, [line] + later) == [Close(block, !IsEnd(line))] && OpenOf(block, [line] + later) == None
  {
    hide IsGuard, IsEnd;
    assert ([line] + later)[0] == line && ([line] + later)[..0] == [];
    assert block.output + [] == block.output;
  }

  lemma PushGuard(block: PendingReply, line: string)
    requires IsGuard(line)
    ensures AfterPush(Some(block), line)
         == Pushed(if IsBegin(line) then Some(OpenedBy(line)) else None, Some(Finished(Close(block, !IsEnd(line)))))
  {
    hide ParseGuard, AfterPush;
    PushInside(block, line);
  }

  /** On any lines at all, the replies are exactly those of the `%begin` guards, each with
      its own lines and its own ending, and the open block is the one that got no guard. */
  lemma {:induction false} BlocksExactly(p: Option<PendingReply>, lines: seq<string>)
    ensures var scanned := Scan(p, lines);
            && AllReplies(scanned.events) == (if p.Some? then ReplyOf(p.value, lines) else []) + RepliesOf(lines)
            && scanned.parser == OrElse(if p.Some? then OpenOf(p.value, lines) else None, LeftOpen(lines))
    decreases |lines|
  {
    hide ParseGuard, ParseLine, AfterPush;
    if lines == [] {
      assert p.Some? ==> p.value.output + [] == p.value.output;
    } else {
      var line, later := lines[0], lines[1..];
      var pushed := AfterPush(p, line);
      HeadTail(lines);
      BlocksExactly(pushed.pending, later);
      AllRepliesOf(pushed.event, Scan(pushed.pending, later).events);
      assert [] + RepliesOf(later) == RepliesOf(later);
      match p {
        case None =>
          PushOutside(line);
          assert [] + RepliesOf(lines) == RepliesOf(lines);
        case Some(block) =>
          if IsGuard(line) {
            PushGuard(block, line);
            GuardEnds(block, line, later);
          } else {
            PushInside(block, line);
            ContentJoins(block, line, later);
          }
      }
    }
  }
}
