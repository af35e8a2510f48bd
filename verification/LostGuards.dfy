/** Lost closing guards: delete any of them from a well-formed stream, and this is what
    every command is told instead, to the line. */
module LostGuards {
  import opened Text
  import opened Notifications
  import opened Parsers
  import opened Engines
  import opened Streams
  import opened Transcripts

  /** A control reply as tmux meant it, whether its closing guard arrived, the lines written
      between it and the next block, and whether there is a next block, of any kind. */
  datatype Meant = Meant(reply: Reply, closed: bool, swallowed: seq<string>, followed: bool)

  /** The lines written before the next block. */
  function SaidNext(items: seq<Item>): seq<string> {
    if items == [] || items[0].Block? then [] else [items[0].line] + SaidNext(items[1..])
  }

  predicate HasBlock(items: seq<Item>) { exists k :: 0 <= k < |items| && items[k].Block? }

  function MeantOf(b: Item, later: seq<Item>): Meant
    requires b.Block?
  {
    Meant(BlockReply(b), b.closed, SaidNext(later), HasBlock(later))
  }

  /** The replies to commands, in order. */
  function MeantReplies(items: seq<Item>): seq<Meant> {
    if items == [] then []
    else (if items[0].Block? && items[0].flags != 0 then [MeantOf(items[0], items[1..])] else [])
         + MeantReplies(items[1..])
  }

  /** The guard never came, and neither did another block to take its place. */
  predicate Unfinished(m: Meant) { !m.closed && !m.followed }

  /** What the reader makes of a reply: itself, or an error that ate the lines after it. */
  function ReadAs(m: Meant): Reply {
    if m.closed then m.reply else Reply(m.reply.number, true, m.reply.output + m.swallowed, true)
  }

  /** What the command is told in the end. */
  function Fate(m: Meant): CommandResult {
    if m.closed then (if m.reply.error then Failed(m.reply.output) else CommandResult.Output(m.reply.output))
    else if m.followed then Failed(m.reply.output + m.swallowed)
    else Disconnected
  }

  // ---- The replies that are read -------------------------------------------------

  function AllRead(ms: seq<Meant>): (rs: seq<Reply>)
    ensures |rs| == |ms| && forall k :: 0 <= k < |ms| ==> rs[k] == ReadAs(ms[k])
  {
    seq(|ms|, k requires 0 <= k < |ms| => ReadAs(ms[k]))
  }

  /** The control reply a block still open would be if it were cut short now. */
  function OpenControl(p: Option<PendingReply>): seq<Reply> {
    if p.Some? && p.value.control then [Close(p.value, true)] else []
  }

  /** A block still open before `items`, as a reply that lost its guard. */
  function StaleMeant(stale: Option<PendingReply>, items: seq<Item>): seq<Meant> {
    if stale.Some? && stale.value.control
    then [Meant(Close(stale.value, true), false, SaidNext(items), HasBlock(items))]
    else []
  }

  function AllMeant(stale: Option<PendingReply>, items: seq<Item>): seq<Meant> {
    StaleMeant(stale, items) + MeantReplies(items)
  }

  lemma AllReadAppend(a: seq<Meant>, b: seq<Meant>)
    ensures AllRead(a + b) == AllRead(a) + AllRead(b)
  {
  }

  lemma HasBlockOfCons(item: Item, later: seq<Item>)
    ensures HasBlock([item] + later) <==> item.Block? || HasBlock(later)
  {
    var items := [item] + later;
    assert items[0] == item;
    assert forall k :: 0 <= k < |later| ==> items[k + 1] == later[k];
    if HasBlock(items) {
      var k :| 0 <= k < |items| && items[k].Block?;
      assert k > 0 ==> later[k - 1].Block?;
    }
    if k :| 0 <= k < |later| && later[k].Block? {
      assert items[k + 1].Block?;
    }
  }

  function Grown(stale: PendingReply, line: string): PendingReply {
    stale.(output := stale.output + [line])
  }

  /** A line swallowed by the open block makes no difference to what is read of it. */
  lemma SwallowOne(stale: PendingReply, line: string, later: seq<Item>)
    ensures AllRead(StaleMeant(Some(Grown(stale, line)), later))
         == AllRead(StaleMeant(Some(stale), [Said(line)] + later))
    ensures stale.control ==> HasBlock([Said(line)] + later) == HasBlock(later)
  {
    TailOfCons(Said(line), later);
    HasBlockOfCons(Said(line), later);
    ConcatAssoc(stale.output, [line], SaidNext(later));
  }

  /** The block an item leaves open. */
  function StaleAfter(b: Item): Option<PendingReply>
    requires b.Block?
  {
    if b.closed then None else Some(PendingReply(b.number, b.flags != 0, b.content))
  }

  lemma ControlsOfOne(reply: Reply)
    ensures Controls([Finished(reply)]) == if reply.control then [reply] else []
  {
    assert [Finished(reply)][1..] == [];
  }

  /** A block, closed or left open, is read as the one reply it meant. */
  lemma BlockRead(b: Item, later: seq<Item>)
    requires b.Block?
    ensures var own := if b.flags != 0 then [MeantOf(b, later)] else [];
            Controls(if b.closed then [Finished(BlockReply(b))] else []) + AllRead(StaleMeant(StaleAfter(b), later))
            == AllRead(own)
  {
    ControlsOfOne(BlockReply(b));
  }

  /** A block cut short is read with nothing more: the next block starts right there. */
  lemma StaleRead(stale: Option<PendingReply>, b: Item, later: seq<Item>)
    requires b.Block?
    ensures Controls(Truncated(stale)) == AllRead(StaleMeant(stale, [b] + later))
  {
    assert SaidNext([b] + later) == [];
    if stale.Some? {
      ControlsOfOne(Close(stale.value, true));
      assert stale.value.output + [] == stale.value.output;
    }
  }

  /** With closing guards lost anywhere, the control replies read, and the block left open
      at the end if it is one, are exactly the replies meant, one for one and in order. */
  lemma {:induction false} Realign(stale: Option<PendingReply>, items: seq<Item>)
    ensures var expected := Expected(stale, items);
            Controls(expected.events) + OpenControl(expected.parser) == AllRead(AllMeant(stale, items))
    decreases |items|, 0
  {
    if items == [] {
      assert stale.Some? ==> stale.value.output + [] == stale.value.output;
      assert [] + OpenControl(stale) == OpenControl(stale) && StaleMeant(stale, items) + [] == StaleMeant(stale, items);
    } else {
      HeadTail(items);
      match items[0] {
        case Said(line) => RealignSaid(stale, line, items[1..]);
        case Block(_, number, flags, content, _, closed) => RealignBlock(stale, items[0], items[1..]);
      }
    }
  }

  lemma {:induction false} RealignSaid(stale: Option<PendingReply>, line: string, later: seq<Item>)
    ensures var expected := Expected(stale, [Said(line)] + later);
            Controls(expected.events) + OpenControl(expected.parser) == AllRead(AllMeant(stale, [Said(line)] + later))
    decreases |later|, 1
  {
    TailOfCons(Said(line), later);
    assert [] + MeantReplies(later) == MeantReplies(later);
    if stale.None? {
      Realign(None, later);
      var rest := Expected(None, later);
      TailOfCons(Notice(ParseLine(line)), rest.events);
      assert [] + Controls(rest.events) == Controls(rest.events);
    } else {
      var grown := Some(Grown(stale.value, line));
      Realign(grown, later);
      SwallowOne(stale.value, line, later);
      AllReadAppend(StaleMeant(stale, [Said(line)] + later), MeantReplies(later));
      AllReadAppend(StaleMeant(grown, later), MeantReplies(later));
    }
  }

  lemma {:induction false} RealignBlock(stale: Option<PendingReply>, b: Item, later: seq<Item>)
    requires b.Block?
    ensures var expected := Expected(stale, [b] + later);
            Controls(expected.events) + OpenControl(expected.parser) == AllRead(AllMeant(stale, [b] + later))
    decreases |later|, 1
  {
    TailOfCons(b, later);
    var rest := Expected(StaleAfter(b), later);
    var finished := if b.closed then [Finished(BlockReply(b))] else [];
    var own := if b.flags != 0 then [MeantOf(b, later)] else [];
    Realign(StaleAfter(b), later);
    StaleRead(stale, b, later);
    BlockRead(b, later);
    hide Controls, AllRead, OpenControl, StaleMeant;
    ControlsAppend(Truncated(stale), finished + rest.events);
    ControlsAppend(finished, rest.events);
    AllReadAppend(StaleMeant(stale, [b] + later), own + MeantReplies(later));
    AllReadAppend(own, MeantReplies(later));
    AllReadAppend(StaleMeant(StaleAfter(b), later), MeantReplies(later));
    ConcatAssoc(Controls(Truncated(stale)), Controls(finished) + Controls(rest.events), OpenControl(rest.parser));
    ConcatAssoc(Controls(finished), Controls(rest.events), OpenControl(rest.parser));
    ConcatAssoc(Controls(finished), AllRead(StaleMeant(StaleAfter(b), later)), AllRead(MeantReplies(later)));
  }

  // ---- The reply that never ends -------------------------------------------------

  /** Only the last reply can be unfinished. */
  predicate OnlyLastUnfinished(ms: seq<Meant>) {
    forall k :: 0 <= k < |ms| - 1 ==> !Unfinished(ms[k])
  }

  predicate EndsUnfinished(ms: seq<Meant>) { ms != [] && Unfinished(ms[|ms| - 1]) }

  lemma {:induction false} RepliesAreBlocks(items: seq<Item>)
    ensures MeantReplies(items) != [] ==> HasBlock(items)
  {
    if items != [] {
      HeadTail(items);
      HasBlockOfCons(items[0], items[1..]);
      RepliesAreBlocks(items[1..]);
    }
  }

  lemma UnfinishedCons(m: seq<Meant>, later: seq<Meant>, open: bool)
    requires |m| <= 1 && OnlyLastUnfinished(later) && (open <==> EndsUnfinished(later))
    requires m != [] ==> !Unfinished(m[0])
    ensures OnlyLastUnfinished(m + later) && (open <==> EndsUnfinished(m + later))
  {
  }

  /** A control block is open at the end exactly when the last control reply lost its guard
      and no block of any kind came after it; no other reply is in that position. */
  lemma {:induction false} OpenExactly(stale: Option<PendingReply>, items: seq<Item>)
    ensures var ms := AllMeant(stale, items);
            OnlyLastUnfinished(ms) && (OpenControl(Expected(stale, items).parser) != [] <==> EndsUnfinished(ms))
    decreases |items|, 0
  {
    RepliesAreBlocks(items);
    if items != [] {
      HeadTail(items);
      match items[0] {
        case Said(line) => OpenSaid(stale, line, items[1..]);
        case Block(_, number, flags, content, _, closed) => OpenBlock(stale, items[0], items[1..]);
      }
    }
  }

  lemma {:induction false} OpenSaid(stale: Option<PendingReply>, line: string, later: seq<Item>)
    ensures var ms := AllMeant(stale, [Said(line)] + later);
            && OnlyLastUnfinished(ms)
            && (OpenControl(Expected(stale, [Said(line)] + later).parser) != [] <==> EndsUnfinished(ms))
    decreases |later|, 1
  {
    hide OpenControl, Expected, OnlyLastUnfinished, EndsUnfinished, HasBlock, MeantReplies, SaidNext;
    var grown := if stale.None? then None else Some(Grown(stale.value, line));
    OpenExactly(grown, later);
    AfterSaid(stale, line, later);
    SameUnfinished(AllMeant(grown, later), AllMeant(stale, [Said(line)] + later));
  }

  /** A line outside blocks, or swallowed by one, moves no reply. */
  lemma AfterSaid(stale: Option<PendingReply>, line: string, later: seq<Item>)
    ensures var grown := if stale.None? then None else Some(Grown(stale.value, line));
            && Expected(stale, [Said(line)] + later).parser == Expected(grown, later).parser
            && MeantReplies([Said(line)] + later) == MeantReplies(later)
            && (stale.Some? && stale.value.control ==> HasBlock([Said(line)] + later) == HasBlock(later))
  {
    TailOfCons(Said(line), later);
    assert [] + MeantReplies(later) == MeantReplies(later);
    if stale.Some? {
      SwallowOne(stale.value, line, later);
    }
  }

  lemma SameUnfinished(ms: seq<Meant>, ms': seq<Meant>)
    requires |ms| == |ms'| && forall k :: 0 <= k < |ms| ==> Unfinished(ms[k]) == Unfinished(ms'[k])
    ensures OnlyLastUnfinished(ms) == OnlyLastUnfinished(ms') && EndsUnfinished(ms) == EndsUnfinished(ms')
  {
  }

  lemma {:induction false} OpenBlock(stale: Option<PendingReply>, b: Item, later: seq<Item>)
    requires b.Block?
    ensures var ms := AllMeant(stale, [b] + later);
            && OnlyLastUnfinished(ms)
            && (OpenControl(Expected(stale, [b] + later).parser) != [] <==> EndsUnfinished(ms))
    decreases |later|, 1
  {
    TailOfCons(b, later);
    HasBlockOfCons(b, later);
    OpenExactly(StaleAfter(b), later);
    RepliesAreBlocks(later);
    var own := if b.flags != 0 then [MeantOf(b, later)] else [];
    var open := OpenControl(Expected(StaleAfter(b), later).parser) != [];
    OwnUnfinished(b, later, open);
    UnfinishedCons(StaleMeant(stale, [b] + later), own + MeantReplies(later), open);
  }

  lemma OwnUnfinished(b: Item, later: seq<Item>, open: bool)
    requires b.Block?
    requires var ms := AllMeant(StaleAfter(b), later); OnlyLastUnfinished(ms) && (open <==> EndsUnfinished(ms))
    ensures var ms := (if b.flags != 0 then [MeantOf(b, later)] else []) + MeantReplies(later);
            OnlyLastUnfinished(ms) && (open <==> EndsUnfinished(ms))
  {
    var own := if b.flags != 0 then [MeantOf(b, later)] else [];
    if b.closed {
      assert AllMeant(StaleAfter(b), later) == MeantReplies(later);
      UnfinishedCons(own, MeantReplies(later), open);
    } else {
      var ms, ms' := own + MeantReplies(later), AllMeant(StaleAfter(b), later);
      assert |ms| == |ms'| && forall k :: 0 <= k < |ms| ==> Unfinished(ms[k]) == Unfinished(ms'[k]);
    }
  }

  // ---- What commands are told ----------------------------------------------------

  /** The results of the outstanding commands: the fates of the replies in order, and a
      disconnect for each command tmux never answered. */
  predicate Told(results: seq<Resolution>, pending: seq<CommandId>, ms: seq<Meant>) {
    && |results| == |pending|
    && forall k :: 0 <= k < |pending| ==>
         results[k] == Resolution(pending[k], if k < |ms| then Fate(ms[k]) else Disconnected)
  }

  /** The results as the engine binds them: replies to the front of the FIFO, disconnects to
      the rest. */
  lemma BoundResults(pending: seq<CommandId>, read: seq<Reply>)
    ensures var results := Zip(pending, read) + Resolutions(Drained(Outstanding(pending, |read|)));
            && |results| == |pending|
            && forall k :: 0 <= k < |pending| ==>
                 results[k] == Resolution(pending[k], if k < |read| then Outcome(read[k]) else Disconnected)
  {
    hide Zip, Resolutions, Drained, Outcome;
    ResolutionsOfDrainedAre(Outstanding(pending, |read|));
  }

  lemma ToldByReplies(pending: seq<CommandId>, read: seq<Reply>, open: seq<Reply>, ms: seq<Meant>)
    requires read + open == AllRead(ms) && |open| <= 1
    requires OnlyLastUnfinished(ms) && (open != [] <==> EndsUnfinished(ms))
    ensures Told(Zip(pending, read) + Resolutions(Drained(Outstanding(pending, |read|))), pending, ms)
  {
    hide Zip, Resolutions, Drained, Outstanding, Outcome, Fate, EndsUnfinished, OnlyLastUnfinished, AllRead;
    BoundResults(pending, read);
    forall k | 0 <= k < |pending|
      ensures (if k < |read| then Outcome(read[k]) else Disconnected)
           == (if k < |ms| then Fate(ms[k]) else Disconnected) {
      if k < |read| {
        FateOfRead(read, open, ms, k);
      } else {
        FateOfUnread(read, open, ms, k);
      }
    }
  }

  lemma FateOfRead(read: seq<Reply>, open: seq<Reply>, ms: seq<Meant>, k: nat)
    requires read + open == AllRead(ms) && |open| <= 1 && k < |read|
    requires OnlyLastUnfinished(ms) && (open != [] <==> EndsUnfinished(ms))
    ensures k < |ms| && Outcome(read[k]) == Fate(ms[k])
  {
    assert read[k] == (read + open)[k] == ReadAs(ms[k]);
    assert !Unfinished(ms[k]);
  }

  lemma FateOfUnread(read: seq<Reply>, open: seq<Reply>, ms: seq<Meant>, k: nat)
    requires read + open == AllRead(ms) && |open| <= 1 && k >= |read|
    requires open != [] <==> EndsUnfinished(ms)
    ensures k < |ms| ==> Fate(ms[k]) == Disconnected
  {
  }

  /** Everything a possibly damaged transcript and the end of the stream resolve. */
  lemma DamagedOutcome(e: EngineState, items: seq<Item>, chunks: seq<string>)
    requires Idle(e) && AllWritable(items) && Concat(chunks) == Bytes(items)
    ensures Resolutions(AfterFeeds(e, chunks).out + AfterEof(AfterFeeds(e, chunks).engine).out)
         == Zip(e.pending, Controls(Expected(None, items).events))
            + Resolutions(Drained(Outstanding(e.pending, |Controls(Expected(None, items).events)|)))
  {
    hide AfterFeeds, Bytes, Writable, Expected, Resolutions, Bind, Controls, Drained, Zip, Outstanding;
    var events, damaged := Expected(None, items).events, AfterFeeds(e, chunks);
    FeedTranscript(e, items, chunks);
    BindIsPositional(e.pending, events);
    ResolutionsAppend(damaged.out, AfterEof(damaged.engine).out);
  }

  /** The same replies are meant by the whole stream, each with its guard. */
  lemma {:induction false} MeantAreBlocks(items: seq<Item>)
    ensures |MeantReplies(items)| == |ControlBlocks(items)|
    ensures forall k :: 0 <= k < |MeantReplies(items)| ==>
              MeantReplies(items)[k].reply == BlockReply(ControlBlocks(items)[k])
    decreases |items|
  {
    if items != [] {
      hide SaidNext, HasBlock;
      MeantAreBlocks(items[1..]);
    }
  }

  lemma {:induction false} BlocksOfWhole(items: seq<Item>)
    ensures |ControlBlocks(Whole(items))| == |ControlBlocks(items)|
    ensures forall k :: 0 <= k < |ControlBlocks(items)| ==>
              ControlBlocks(Whole(items))[k] == ControlBlocks(items)[k].(closed := true)
    decreases |items|
  {
    if items != [] {
      var item := if items[0].Block? then items[0].(closed := true) else items[0];
      BlocksOfWhole(items[1..]);
      TailOfCons(item, Whole(items[1..]));
    }
  }

  /** What the whole stream tells is what the damaged one's blocks say. */
  lemma WholeBlocks(pending: seq<CommandId>, rs: seq<Resolution>, items: seq<Item>)
    requires AnsweredBy(rs, pending, ControlBlocks(Whole(items)))
    ensures AnsweredBy(rs, pending, ControlBlocks(items))
  {
    hide ControlBlocks, Whole;
    BlocksOfWhole(items);
  }

  /** Delete any closing guards from a well-formed stream, cut it anyhow, and end it.  Each
      command is told, under its own id, its original outcome if its guard survived; the
      failure holding its output and every line up to the next block if there is one; and a
      disconnect exactly if there is none.  The FIFO never shifts. */
  lemma {:induction false} LostGuardsRealign(e: EngineState, items: seq<Item>, whole: seq<string>, chunks: seq<string>)
    requires Idle(e) && AllWritable(items)
    requires Concat(whole) == Bytes(Whole(items)) && Concat(chunks) == Bytes(items)
    ensures var original, damaged := Resolutions(AfterFeeds(e, whole).out), AfterFeeds(e, chunks);
            var ms := MeantReplies(items);
            && AnsweredBy(original, e.pending, ControlBlocks(items))
            && |ms| == |ControlBlocks(items)|
            && (forall k :: 0 <= k < |ms| ==> ms[k].reply == BlockReply(ControlBlocks(items)[k]))
            && Told(Resolutions(damaged.out + AfterEof(damaged.engine).out), e.pending, ms)
  {
    hide *;
    WholeIsIntact(items);
    TranscriptRoundTrip(e, Whole(items), whole);
    MeantAreBlocks(items);
    WholeBlocks(e.pending, Resolutions(AfterFeeds(e, whole).out), items);
    DamagedOutcome(e, items, chunks);
    ToldByItems(e.pending, items);
  }

  lemma ToldByItems(pending: seq<CommandId>, items: seq<Item>)
    ensures var read := Controls(Expected(None, items).events);
            Told(Zip(pending, read) + Resolutions(Drained(Outstanding(pending, |read|))), pending, MeantReplies(items))
  {
    hide Expected, Resolutions, Controls, MeantReplies, Zip, Told, Drained, Outstanding, AllRead;
    var expected := Expected(None, items);
    Realign(None, items);
    OpenExactly(None, items);
    assert AllMeant(None, items) == MeantReplies(items);
    ToldByReplies(pending, Controls(expected.events), OpenControl(expected.parser), MeantReplies(items));
  }
}
