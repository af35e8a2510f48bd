/** What every step of callers, reader thread, pipe and tmux keeps: wire, pipe, buffer, open
    block, FIFO, waiters, deliveries and calls all line up. */
module SystemInvariant {
  import opened Text
  import opened Notifications
  import opened Parsers
  import opened Engines
  import opened Streams
  import opened Transcripts
  import opened Drivers
  import opened DriverTheorems
  import opened Systems

  // ---- The invariant, one component at a time ------------------------------------

  /** The control replies in the complete lines of some bytes. */
  function Seen(fed: string): seq<Reply> { Controls(Scan(None, Lines(fed)).events) }

  /** The control replies tmux wrote. */
  function Replies(items: seq<Item>): seq<Reply> { Controls(EventsOf(items)) }

  /** How much of the last registered command is written, while it has no waiter: its
      caller is inside the critical section, or its write failed. */
  function Loose(s: System): Option<nat> {
    if Holding(s).Some? then Some(Holding(s).value.phase.put) else s.failed
  }

  /** The number of commands that got a waiter. */
  function ParkedCount(registered: nat, loose: Option<nat>): nat {
    if loose.Some? && registered > 0 then registered - 1 else registered
  }

  /** No byte is lost, repeated or reordered between tmux and the engine. */
  predicate PipeOk(items: seq<Item>, fed: string, ahead: string) {
    AllWritable(items) && Intact(items) && fed + ahead == Bytes(items)
  }

  /** Parser, buffer and last number are those of the bytes fed, and the FIFO holds the ids
      that the replies seen so far leave. */
  predicate EngineOk(d: Driver, fed: string, registered: nat, stopped: bool) {
    var scanned, seen := Scan(None, Lines(fed)), |Seen(fed)|;
    && seen <= registered == d.engine.nextId
    && d.engine.parser == scanned.parser && d.engine.buf == Tail(fed)
    && d.engine.pending == (if stopped then [] else Range(seen, registered))
    && d.engine.lastNumber == LastNumber(None, scanned.events)
    && d.events == Notices(scanned.events)
  }

  /** The wire holds the registered commands, a line each, in id order; at most the last
      one is incomplete. */
  predicate WireOk(written: string, cmds: seq<string>, loose: Option<nat>) {
    && (forall k :: 0 <= k < |cmds| ==> cmds[k] != "" && '\n' !in cmds[k])
    && match loose
       case None => written == Unlines(cmds)
       case Some(put) =>
         && cmds != [] && put <= |cmds[|cmds| - 1]| + 1
         && written == Unlines(cmds[..|cmds| - 1]) + CommandLine(cmds[|cmds| - 1])[..put]
  }

  /** tmux's k-th control reply answers the k-th line on the wire. */
  predicate ServerOk(items: seq<Item>, answers: seq<Answer>, lines: seq<string>) {
    && |answers| == |Replies(items)| <= |lines|
    && forall k :: 0 <= k < |answers| ==> answers[k] == Answer(lines[k], Outcome(Replies(items)[k]))
  }

  /** The waiters of the ids from `lo` to `hi` are their owners. */
  ghost predicate WaitersAre(waiters: map<CommandId, CallId>, owners: seq<CallId>, lo: nat, hi: nat)
    requires hi <= |owners|
  {
    && (forall id :: id in waiters <==> lo <= id < hi)
    && forall id :: lo <= id < hi ==> waiters[id] == owners[id]
  }

  function Least(a: nat, b: nat): nat { if a <= b then a else b }

  /** Replies seen are sent to the owners of the ids in turn; the others still wait, or
      were told of the disconnect. */
  ghost predicate DeliveryOk(d: Driver, owners: seq<CallId>, parked: nat, seen: seq<Reply>, stopped: bool) {
    && parked <= |owners|
    && (if stopped then d.waiters == map[] else WaitersAre(d.waiters, owners, |seen|, parked))
    && |d.sent| == (if stopped then parked else Least(|seen|, parked))
    && SentOk(d.sent, owners, seen)
  }

  /** The k-th result went to the owner of id k: the k-th reply, or a disconnect. */
  predicate SentOk(sent: seq<Delivery>, owners: seq<CallId>, seen: seq<Reply>) {
    && |sent| <= |owners|
    && forall k :: 0 <= k < |sent| ==>
         sent[k] == Delivery(owners[k], if k < |seen| then Outcome(seen[k]) else Disconnected)
  }

  predicate PhaseOk(call: CallId, c: Call, owners: seq<CallId>, lock: Option<CallId>, parked: nat,
                    sent: seq<Delivery>) {
    match c.phase
    case Writing(id, put) => lock == Some(call) && id == |owners| - 1 && owners[id] == call && put <= |c.cmd| + 1
    case Waiting(id) => id < parked <= |owners| && owners[id] == call
    case Returned(result) => result == Disconnected || Delivery(call, result) in sent
  }

  /** Each registered id has its own caller, who is where the history says. */
  predicate CallsOk(calls: map<CallId, Call>, cmds: seq<string>, owners: seq<CallId>, lock: Option<CallId>,
                    parked: nat, sent: seq<Delivery>) {
    && |owners| == |cmds| && Distinct(owners)
    && (forall k :: 0 <= k < |owners| ==> owners[k] in calls && calls[owners[k]].cmd == cmds[k])
    && (forall call :: call in calls ==> PhaseOk(call, calls[call], owners, lock, parked, sent))
    && (lock.Some? ==> lock.value in calls && calls[lock.value].phase.Writing?)
  }

  /** Only a connected client is inside the critical section, and then no reply to the
      command being written has been dispatched. */
  predicate LockOk(s: System) {
    && (s.lock.Some? ==> s.shared.connected && |Seen(s.fed)| < |s.owners|)
    && (s.shared.connected ==> s.failed.None? && !s.reader.Stopped?)
    && (!s.reader.Running? ==> s.inHand == "")
  }

  ghost predicate Consistent(s: System) {
    var d, parked := s.shared.driver, ParkedCount(|s.cmds|, Loose(s));
    && PipeOk(s.items, s.fed, s.inHand + s.pipe)
    && EngineOk(d, s.fed, |s.owners|, s.reader.Stopped?)
    && WireOk(d.written, s.cmds, Loose(s))
    && ServerOk(s.items, s.answers, Lines(d.written))
    && DeliveryOk(d, s.owners, parked, Seen(s.fed), s.reader.Stopped?)
    && CallsOk(s.calls, s.cmds, s.owners, s.lock, parked, d.sent)
    && LockOk(s)
  }

  // ---- The wire ------------------------------------------------------------------

  lemma LinesOfPartial(cmd: string, put: nat)
    requires '\n' !in cmd && put <= |cmd| + 1
    ensures Lines(CommandLine(cmd)[..put]) == if put <= |cmd| then [] else [cmd]
  {
    var part := CommandLine(cmd)[..put];
    if put <= |cmd| {
      assert part == cmd[..put];
      IndexOfNone(part, '\n');
    } else {
      assert part == cmd + "\n" + "";
      Text.LinesCons(cmd, "");
      EmptyText();
    }
  }

  /** The complete lines on the wire are the first commands registered, all but at most
      the last. */
  lemma WireLines(written: string, cmds: seq<string>, loose: Option<nat>)
    requires WireOk(written, cmds, loose)
    ensures ParkedCount(|cmds|, loose) <= |Lines(written)| <= |cmds|
    ensures Lines(written) == cmds[..|Lines(written)|]
  {
    hide Lines, Tail, Unlines;
    match loose {
      case None =>
        LinesOfUnlines(cmds, "");
        EmptyText();
        assert written == Unlines(cmds) + "" && cmds + [] == cmds;
      case Some(put) =>
        var early, last := cmds[..|cmds| - 1], cmds[|cmds| - 1];
        LinesOfUnlines(early, CommandLine(last)[..put]);
        LinesOfPartial(last, put);
        assert early + [last] == cmds && early + [] == early;
    }
  }

  lemma WireStart(written: string, cmds: seq<string>, cmd: string)
    requires WireOk(written, cmds, None) && cmd != "" && '\n' !in cmd
    ensures WireOk(written, cmds + [cmd], Some(0))
  {
    assert (cmds + [cmd])[..|cmds|] == cmds;
    assert CommandLine(cmd)[..0] == "" && written + "" == written;
  }

  lemma WirePut(written: string, cmds: seq<string>, put: nat, n: nat)
    requires WireOk(written, cmds, Some(put)) && put + n <= |cmds[|cmds| - 1]| + 1
    ensures WireOk(written + CommandLine(cmds[|cmds| - 1])[put..put + n], cmds, Some(put + n))
  {
    hide Unlines;
    var line := CommandLine(cmds[|cmds| - 1]);
    ConcatAssoc(Unlines(cmds[..|cmds| - 1]), line[..put], line[put..put + n]);
    assert line[..put] + line[put..put + n] == line[..put + n];
  }

  lemma WirePark(written: string, cmds: seq<string>, put: nat)
    requires WireOk(written, cmds, Some(put)) && put == |cmds[|cmds| - 1]| + 1
    ensures WireOk(written, cmds, None)
  {
    var early, last := cmds[..|cmds| - 1], cmds[|cmds| - 1];
    UnlinesAppend(early, [last]);
    assert early + [last] == cmds;
    assert [last][1..] == [] && last + "\n" + "" == last + "\n";
    assert CommandLine(last)[..put] == CommandLine(last);
  }

  lemma MoreLines(a: string, b: string)
    ensures Lines(a) <= Lines(a + b)
  {
    hide Lines, Tail;
    Text.LinesAppend(a, b);
  }

  // ---- tmux ----------------------------------------------------------------------

  lemma {:induction false} TranscriptAppend(items: seq<Item>, item: Item)
    ensures EventsOf(items + [item]) == EventsOf(items) + EventsOf([item])
    ensures StreamLines(items + [item]) == StreamLines(items) + ItemLines(item)
    decreases |items|
  {
    hide ItemLines;
    if items == [] {
      assert items + [item] == [item] && [item][1..] == [];
      assert [] + EventsOf([item]) == EventsOf([item]);
      assert [] + ItemLines(item) == ItemLines(item) + [] == ItemLines(item);
    } else {
      assert (items + [item])[1..] == items[1..] + [item];
      TranscriptAppend(items[1..], item);
      ConcatAssoc(ItemLines(items[0]), StreamLines(items[1..]), ItemLines(item));
      ConcatAssoc([EventsOf([items[0]])[0]], EventsOf(items[1..]), EventsOf([item]));
    }
  }

  lemma PipeEmit(items: seq<Item>, item: Item, fed: string, inHand: string, pipe: string)
    requires PipeOk(items, fed, inHand + pipe) && Writable(item) && (item.Block? ==> item.closed)
    ensures PipeOk(items + [item], fed, inHand + (pipe + Unlines(ItemLines(item))))
  {
    hide Writable, ItemLines, StreamLines, Unlines;
    var more := Unlines(ItemLines(item));
    TranscriptAppend(items, item);
    UnlinesAppend(StreamLines(items), ItemLines(item));
    ConcatAssoc(inHand, pipe, more);
    ConcatAssoc(fed, inHand + pipe, more);
  }

  lemma RepliesAppend(items: seq<Item>, item: Item)
    ensures Replies(items + [item]) == Replies(items) + (if IsControl(item) then [BlockReply(item)] else [])
  {
    TranscriptAppend(items, item);
    ControlsAppend(EventsOf(items), EventsOf([item]));
    assert [item][1..] == [];
    assert EventsOf([item])[1..] == [];
  }

  lemma ServerEmit(items: seq<Item>, item: Item, answers: seq<Answer>, lines: seq<string>)
    requires ServerOk(items, answers, lines) && (IsControl(item) ==> |answers| < |lines|)
    ensures ServerOk(items + [item], AnswersAfter(answers, lines, item), lines)
  {
    hide Replies;
    RepliesAppend(items, item);
    assert Replies(items) + [] == Replies(items);
    if item.Block? {
      OutcomeOfBlock(item);
    }
  }

  lemma ServerMoreLines(items: seq<Item>, answers: seq<Answer>, lines: seq<string>, lines': seq<string>)
    requires ServerOk(items, answers, lines) && lines <= lines'
    ensures ServerOk(items, answers, lines')
  {
  }

  // ---- The reader ----------------------------------------------------------------

  /** What the engine was fed is a prefix of what tmux wrote, so what it made of it is a
      prefix of what tmux meant. */
  lemma {:induction false} FedIsPrefix(items: seq<Item>, fed: string, ahead: string)
    requires PipeOk(items, fed, ahead)
    ensures Scan(None, Lines(fed)).events <= EventsOf(items)
    ensures Seen(fed) <= Replies(items)
    ensures Notices(Scan(None, Lines(fed)).events) <= Notices(EventsOf(items))
    ensures ahead == "" ==> Scan(None, Lines(fed)) == Scanned(None, EventsOf(items))
  {
    hide Scan, Lines, Tail, Unlines, Expected, Writable, EventsOf, StreamLines, Controls, Notices;
    var lines := StreamLines(items);
    LinesFit(items);
    LinesOfUnlines(lines, "");
    EmptyText();
    assert Unlines(lines) + "" == Unlines(lines) && lines + [] == lines;
    Text.LinesAppend(fed, ahead);
    ScanTranscript(None, items);
    ExpectedOfIntact(items);
    assert Lines(fed + ahead) == lines;
    var seen := Scan(None, Lines(fed));
    ScanAppend(None, Lines(fed), Lines(Tail(fed) + ahead));
    var rest := Scan(seen.parser, Lines(Tail(fed) + ahead)).events;
    ControlsAppend(seen.events, rest);
    NoticesAppend(seen.events, rest);
    if ahead == "" {
      assert fed + ahead == fed;
    }
  }

  /** The results of the ids from `lo` on, each for its owner, as far as ids below `hi` go. */
  predicate Delivered(ds: seq<Delivery>, owners: seq<CallId>, lo: nat, hi: nat, rs: seq<Resolution>)
    requires hi <= |owners|
  {
    && |ds| == (if hi <= lo then 0 else Least(|rs|, hi - lo))
    && forall k :: 0 <= k < |ds| ==> ds[k] == Delivery(owners[lo + k], rs[k].result)
  }

  predicate IdsFrom(lo: nat, rs: seq<Resolution>) { forall k :: 0 <= k < |rs| ==> rs[k].id == lo + k }

  lemma DeliveredCons(ds: seq<Delivery>, owners: seq<CallId>, lo: nat, hi: nat, rs: seq<Resolution>)
    requires lo < hi <= |owners| && rs != [] && Delivered(ds, owners, lo + 1, hi, rs[1..])
    ensures Delivered([Delivery(owners[lo], rs[0].result)] + ds, owners, lo, hi, rs)
  {
  }

  lemma WithoutFirst(waiters: map<CommandId, CallId>, owners: seq<CallId>, lo: nat, hi: nat)
    requires hi <= |owners| && WaitersAre(waiters, owners, lo, hi)
    ensures WaitersAre(waiters - {lo}, owners, lo + 1, hi)
    ensures lo in waiters <==> lo < hi
    ensures lo < hi ==> waiters[lo] == owners[lo]
  {
  }

  /** Handling results for the ids from `lo` on: each goes to its owner. */
  lemma {:induction false} DeliverFrom(waiters: map<CommandId, CallId>, owners: seq<CallId>, lo: nat, hi: nat,
                                       rs: seq<Resolution>)
    requires hi <= |owners| && WaitersAre(waiters, owners, lo, hi) && IdsFrom(lo, rs)
    ensures WaitersAre(Remaining(waiters, rs), owners, lo + |rs|, hi)
    ensures Delivered(Deliveries(waiters, rs), owners, lo, hi, rs)
    decreases |rs|
  {
    if rs != [] {
      hide WaitersAre, Delivered;
      WithoutFirst(waiters, owners, lo, hi);
      assert IdsFrom(lo + 1, rs[1..]);
      DeliverFrom(waiters - {lo}, owners, lo + 1, hi, rs[1..]);
      if lo < hi {
        DeliveredCons(Deliveries(waiters - {lo}, rs[1..]), owners, lo, hi, rs);
      } else {
        NothingRemoved(waiters, lo);
        DeliveredNone(owners, lo, hi, rs);
      }
    }
  }

  lemma DeliveredNone(owners: seq<CallId>, lo: nat, hi: nat, rs: seq<Resolution>)
    requires rs != [] && hi <= lo && hi <= |owners|
    ensures forall ds :: Delivered(ds, owners, lo + 1, hi, rs[1..]) ==> Delivered(ds, owners, lo, hi, rs)
  {
  }

  lemma ScanMore(fed: string, chunk: string)
    ensures var before := Scan(None, Lines(fed));
            var more := Scan(before.parser, Lines(Tail(fed) + chunk));
            && Scan(None, Lines(fed + chunk)) == Scanned(more.parser, before.events + more.events)
            && Seen(fed + chunk) == Seen(fed) + Controls(more.events)
            && Notices(Scan(None, Lines(fed + chunk)).events) == Notices(before.events) + Notices(more.events)
            && Tail(fed + chunk) == Tail(Tail(fed) + chunk)
  {
    hide Scan, Lines, Tail, Controls, Notices;
    Text.LinesAppend(fed, chunk);
    ScanAppend(None, Lines(fed), Lines(Tail(fed) + chunk));
    var before := Scan(None, Lines(fed));
    var more := Scan(before.parser, Lines(Tail(fed) + chunk));
    ControlsAppend(before.events, more.events);
    NoticesAppend(before.events, more.events);
  }

  /** A dispatched chunk, in closed form. */
  lemma ArrivedIs(d: Driver, fed: string, chunk: string)
    requires d.engine.parser == Scan(None, Lines(fed)).parser && d.engine.buf == Tail(fed)
    ensures var events := Scan(d.engine.parser, Lines(Tail(fed) + chunk)).events;
            var rs := Zip(d.engine.pending, Controls(events));
            var d' := Arrived(d, chunk);
            && d'.engine.parser == Scan(None, Lines(fed + chunk)).parser && d'.engine.buf == Tail(fed + chunk)
            && d'.engine.pending == Outstanding(d.engine.pending, |Controls(events)|)
            && d'.engine.nextId == d.engine.nextId
            && d'.engine.lastNumber == LastNumber(d.engine.lastNumber, events)
            && d'.waiters == Remaining(d.waiters, rs) && d'.sent == d.sent + Deliveries(d.waiters, rs)
            && d'.events == d.events + Notices(events) && d'.written == d.written
  {
    hide Scan, Lines, Tail, Controls, Notices, Zip, Outstanding, Remaining, Deliveries, HandleAll, AfterLines;
    hide LastNumber, Bind, Resolutions, Notes;
    var lines := Lines(d.engine.buf + chunk);
    var events := Scan(d.engine.parser, lines).events;
    EngineIsScanThenBind(d.engine, lines);
    BindIsPositional(d.engine.pending, events);
    BindKeepsNotices(d.engine.pending, events);
    ScanMore(fed, chunk);
    var fed' := AfterFeed(d.engine, chunk);
    HandledClosed(d.(engine := fed'.engine), fed'.out);
  }

  lemma OutstandingOfRange(lo: nat, hi: nat, n: nat)
    requires lo + n <= hi
    ensures Outstanding(Range(lo, hi), n) == Range(lo + n, hi)
  {
  }

  lemma SentMore(sent: seq<Delivery>, ds: seq<Delivery>, owners: seq<CallId>, parked: nat,
                 seen: seq<Reply>, more: seq<Reply>, rs: seq<Resolution>)
    requires parked <= |owners| && SentOk(sent, owners, seen) && |sent| == Least(|seen|, parked)
    requires Delivered(ds, owners, |seen|, parked, rs) && |rs| == |more|
    requires forall k :: 0 <= k < |rs| ==> rs[k].result == Outcome(more[k])
    ensures SentOk(sent + ds, owners, seen + more) && |sent + ds| == Least(|seen + more|, parked)
  {
    hide Outcome;
  }

  lemma SentLast(sent: seq<Delivery>, ds: seq<Delivery>, owners: seq<CallId>, parked: nat, seen: seq<Reply>,
                 rs: seq<Resolution>)
    requires parked <= |owners| && SentOk(sent, owners, seen) && |sent| == Least(|seen|, parked)
    requires Delivered(ds, owners, |seen|, parked, rs) && |seen| + |rs| == |owners|
    requires forall k :: 0 <= k < |rs| ==> rs[k].result == Disconnected
    ensures SentOk(sent + ds, owners, seen) && |sent + ds| == parked
  {
    hide Outcome;
  }

  lemma DispatchKeeps(d: Driver, fed: string, chunk: string, owners: seq<CallId>, parked: nat)
    requires EngineOk(d, fed, |owners|, false) && |Seen(fed + chunk)| <= |owners|
    requires DeliveryOk(d, owners, parked, Seen(fed), false)
    ensures EngineOk(Arrived(d, chunk), fed + chunk, |owners|, false)
    ensures DeliveryOk(Arrived(d, chunk), owners, parked, Seen(fed + chunk), false)
    ensures d.sent <= Arrived(d, chunk).sent && Arrived(d, chunk).written == d.written
  {
    hide Scan, Lines, Tail, Controls, Notices, Arrived, Outcome, SentOk, Delivered, WaitersAre;
    hide Remaining, Deliveries, LastNumber;
    ArrivedIs(d, fed, chunk);
    ScanMore(fed, chunk);
    var n, more := |Seen(fed)|, Controls(Scan(d.engine.parser, Lines(Tail(fed) + chunk)).events);
    var rs := Zip(Range(n, |owners|), more);
    var before := Scan(None, Lines(fed)).events;
    LastNumberAppend(None, before, Scan(d.engine.parser, Lines(Tail(fed) + chunk)).events);
    OutstandingOfRange(n, |owners|, |more|);
    DeliverFrom(d.waiters, owners, n, parked, rs);
    SentMore(d.sent, Deliveries(d.waiters, rs), owners, parked, Seen(fed), more, rs);
  }

  lemma DisconnectKeeps(d: Driver, fed: string, owners: seq<CallId>, parked: nat)
    requires EngineOk(d, fed, |owners|, false) && DeliveryOk(d, owners, parked, Seen(fed), false)
    ensures EngineOk(Ended(d), fed, |owners|, true) && DeliveryOk(Ended(d), owners, parked, Seen(fed), true)
    ensures d.sent <= Ended(d).sent && Ended(d).written == d.written
  {
    hide Scan, Lines, Tail, Controls, Notices, HandleAll, Outcome, SentOk, Delivered;
    hide Remaining, Deliveries, Resolutions, Notes;
    var ended := AfterEof(d.engine);
    var n, rs := |Seen(fed)|, Resolutions(ended.out);
    HandledClosed(d.(engine := ended.engine), ended.out);
    ResolutionsOfDrainedAre(d.engine.pending);
    NotesOfDrained(d.engine.pending);
    DeliverFrom(d.waiters, owners, n, parked, rs);
    SentLast(d.sent, Deliveries(d.waiters, rs), owners, parked, Seen(fed), rs);
    assert Ended(d).waiters == map[];
    assert d.events + [] == d.events;
  }

  lemma {:induction false} NotesOfDrained(pending: seq<CommandId>)
    ensures Notes(Drained(pending)) == []
    decreases |pending|
  {
    if pending != [] {
      assert Drained(pending)[1..] == Drained(pending[1..]);
      NotesOfDrained(pending[1..]);
    }
  }

  // ---- Calls ---------------------------------------------------------------------

  lemma CallsGrow(calls: map<CallId, Call>, cmds: seq<string>, owners: seq<CallId>, lock: Option<CallId>,
                  parked: nat, sent: seq<Delivery>, sent': seq<Delivery>)
    requires CallsOk(calls, cmds, owners, lock, parked, sent) && sent <= sent'
    ensures CallsOk(calls, cmds, owners, lock, parked, sent')
  {
    forall call | call in calls ensures PhaseOk(call, calls[call], owners, lock, parked, sent') {
      assert PhaseOk(call, calls[call], owners, lock, parked, sent);
      assert forall x :: x in sent ==> x in sent';
    }
  }

  lemma CallsStart(calls: map<CallId, Call>, cmds: seq<string>, owners: seq<CallId>, sent: seq<Delivery>,
                   call: CallId, cmd: string)
    requires CallsOk(calls, cmds, owners, None, |owners|, sent) && call !in calls
    ensures CallsOk(calls[call := Call(cmd, Writing(|owners|, 0))], cmds + [cmd], owners + [call], Some(call),
                    |owners|, sent)
  {
    var calls', owners' := calls[call := Call(cmd, Writing(|owners|, 0))], owners + [call];
    forall c | c in calls' ensures PhaseOk(c, calls'[c], owners', Some(call), |owners|, sent) {
      if c != call {
        assert PhaseOk(c, calls[c], owners, None, |owners|, sent);
      }
    }
  }

  /** A call moves on to a phase that is right for it. */
  lemma CallsMove(calls: map<CallId, Call>, cmds: seq<string>, owners: seq<CallId>,
                  lock: Option<CallId>, lock': Option<CallId>, parked: nat, parked': nat, sent: seq<Delivery>,
                  call: CallId, phase: Phase)
    requires CallsOk(calls, cmds, owners, lock, parked, sent) && call in calls
    requires PhaseOk(call, calls[call].(phase := phase), owners, lock', parked', sent)
    requires parked <= parked' <= |owners| && (lock' == lock || (lock == Some(call) && lock' == None))
    requires lock' == Some(call) ==> phase.Writing?
    ensures CallsOk(calls[call := calls[call].(phase := phase)], cmds, owners, lock', parked', sent)
  {
    var calls' := calls[call := calls[call].(phase := phase)];
    forall c | c in calls' ensures PhaseOk(c, calls'[c], owners, lock', parked', sent) {
      if c != call {
        assert PhaseOk(c, calls[c], owners, lock, parked, sent);
      }
    }
  }

  // ---- Every step keeps the invariant --------------------------------------------

  lemma StartKeeps(s: System, call: CallId, cmd: string)
    requires Consistent(s) && Enabled(s, Start(call, cmd))
    ensures Consistent(After(s, Start(call, cmd)))
  {
    hide Consistent;
    if s.shared.connected {
      StartsWriting(s, call, cmd);
    } else {
      StartsTooLate(s, call, cmd);
    }
  }

  lemma StartsTooLate(s: System, call: CallId, cmd: string)
    requires Consistent(s) && Enabled(s, Start(call, cmd)) && !s.shared.connected
    ensures Consistent(After(s, Start(call, cmd)))
  {
    hide Writable, PipeOk, EngineOk, ServerOk, DeliveryOk, WireOk, Seen, Lines;
    var calls' := After(s, Start(call, cmd)).calls;
    var parked, sent := ParkedCount(|s.cmds|, Loose(s)), s.shared.driver.sent;
    forall c | c in calls' ensures PhaseOk(c, calls'[c], s.owners, s.lock, parked, sent) {
      if c != call {
        assert PhaseOk(c, s.calls[c], s.owners, s.lock, parked, sent);
      }
    }
  }

  lemma StartsWriting(s: System, call: CallId, cmd: string)
    requires Consistent(s) && Enabled(s, Start(call, cmd)) && s.shared.connected
    ensures Consistent(After(s, Start(call, cmd)))
  {
    hide Writable, PipeOk, EngineOk, ServerOk, DeliveryOk, CallsOk, WireOk, Seen, Lines;
    var d, n := s.shared.driver, |s.owners|;
    CallsSizes(s);
    WireStart(d.written, s.cmds, cmd);
    CallsStart(s.calls, s.cmds, s.owners, d.sent, call, cmd);
    RegisterKeeps(d, s.fed, s.owners, call);
  }

  lemma RegisterKeeps(d: Driver, fed: string, owners: seq<CallId>, call: CallId)
    requires EngineOk(d, fed, |owners|, false) && DeliveryOk(d, owners, |owners|, Seen(fed), false)
    ensures var d' := d.(engine := AfterRegister(d.engine));
            EngineOk(d', fed, |owners| + 1, false) && DeliveryOk(d', owners + [call], |owners|, Seen(fed), false)
    ensures |Seen(fed)| < |owners + [call]| && d.engine.nextId == |owners|
  {
    hide Seen, Scan, Lines, Tail, Notices, Outcome;
    var n := |owners|;
    assert Range(|Seen(fed)|, n) + [n] == Range(|Seen(fed)|, n + 1);
  }

  lemma CallsSizes(s: System)
    requires Consistent(s)
    ensures |s.owners| == |s.cmds|
  {
  }

  lemma PutKeeps(s: System, n: nat)
    requires Consistent(s) && Enabled(s, Put(n))
    ensures Consistent(After(s, Put(n)))
  {
    hide Writable, PipeOk, EngineOk, ServerOk, DeliveryOk, CallsOk, WireOk, Seen, Lines;
    var d, call, put := s.shared.driver, s.lock.value, Holding(s).value.phase.put;
    var more := CommandLine(Holding(s).value.cmd)[put..put + n];
    LastIsHolding(s);
    WirePut(d.written, s.cmds, put, n);
    MoreLines(d.written, more);
    ServerMoreLines(s.items, s.answers, Lines(d.written), Lines(d.written + more));
    CallsMove(s.calls, s.cmds, s.owners, s.lock, s.lock, |s.cmds| - 1, |s.cmds| - 1, d.sent, call,
              Writing(Holding(s).value.phase.id, put + n));
    WrittenIsElsewhere(d, d.written + more, s.fed, s.owners, |s.cmds| - 1);
  }

  lemma WrittenIsElsewhere(d: Driver, written: string, fed: string, owners: seq<CallId>, parked: nat)
    requires EngineOk(d, fed, |owners|, false) && DeliveryOk(d, owners, parked, Seen(fed), false)
    ensures var d' := d.(written := written);
            EngineOk(d', fed, |owners|, false) && DeliveryOk(d', owners, parked, Seen(fed), false)
  {
    hide Seen, Scan, Lines, Tail, Notices, SentOk;
  }

  /** The call inside the critical section owns the last id. */
  lemma LastIsHolding(s: System)
    requires Consistent(s) && Holding(s).Some?
    ensures s.cmds != [] && s.cmds[|s.cmds| - 1] == Holding(s).value.cmd
    ensures Holding(s).value.phase.id == |s.owners| - 1 == |s.cmds| - 1 && s.owners[|s.owners| - 1] == s.lock.value
    ensures PhaseOk(s.lock.value, Holding(s).value, s.owners, s.lock, |s.cmds| - 1, s.shared.driver.sent)
    ensures s.shared.connected && s.failed.None?
  {
    hide Writable, PipeOk, EngineOk, ServerOk, DeliveryOk, Seen, Lines, Unlines;
    var parked, sent := ParkedCount(|s.cmds|, Loose(s)), s.shared.driver.sent;
    assert PhaseOk(s.lock.value, s.calls[s.lock.value], s.owners, s.lock, parked, sent);
  }

  lemma PutFailsKeeps(s: System)
    requires Consistent(s) && Enabled(s, PutFails)
    ensures Consistent(After(s, PutFails))
  {
    hide Writable, PipeOk, EngineOk, Seen, Lines, WireOk, ServerOk, DeliveryOk, CallsOk;
    LastIsHolding(s);
    CallsMove(s.calls, s.cmds, s.owners, s.lock, None, |s.cmds| - 1, |s.cmds| - 1, s.shared.driver.sent, s.lock.value,
              Returned(Disconnected));
  }

  lemma ParkKeeps(s: System)
    requires Consistent(s) && Enabled(s, Park)
    ensures Consistent(After(s, Park))
  {
    hide Writable, PipeOk, EngineOk, ServerOk, DeliveryOk, CallsOk, WireOk, Seen, Lines;
    LastIsHolding(s);
    var d, id := s.shared.driver, Holding(s).value.phase.id;
    WirePark(d.written, s.cmds, Holding(s).value.phase.put);
    CallsMove(s.calls, s.cmds, s.owners, s.lock, None, |s.cmds| - 1, |s.cmds|, d.sent, s.lock.value, Waiting(id));
    WaiterAdded(d, s.fed, s.owners);
  }

  lemma WaiterAdded(d: Driver, fed: string, owners: seq<CallId>)
    requires owners != [] && |Seen(fed)| < |owners|
    requires EngineOk(d, fed, |owners|, false) && DeliveryOk(d, owners, |owners| - 1, Seen(fed), false)
    ensures var d' := d.(waiters := d.waiters[|owners| - 1 := owners[|owners| - 1]]);
            EngineOk(d', fed, |owners|, false) && DeliveryOk(d', owners, |owners|, Seen(fed), false)
  {
    hide Seen, Scan, Lines, Tail, Notices, SentOk;
  }

  lemma WakeKeeps(s: System, call: CallId, k: nat)
    requires Consistent(s) && Enabled(s, Wake(call, k))
    ensures Consistent(After(s, Wake(call, k)))
  {
    hide Writable, PipeOk, EngineOk, Seen, Lines, WireOk, ServerOk, DeliveryOk;
    var parked := ParkedCount(|s.cmds|, Loose(s));
    var result := s.shared.driver.sent[k].result;
    assert PhaseOk(call, s.calls[call], s.owners, s.lock, parked, s.shared.driver.sent);
    assert s.shared.driver.sent[k] == Delivery(call, result);
    CallsMove(s.calls, s.cmds, s.owners, s.lock, s.lock, parked, parked, s.shared.driver.sent, call, Returned(result));
  }

  lemma EmitKeeps(s: System, item: Item)
    requires Consistent(s) && Enabled(s, Emit(item))
    ensures Consistent(After(s, Emit(item)))
  {
    hide Writable, PipeOk, EngineOk, Seen, Lines, WireOk, ServerOk, DeliveryOk, CallsOk;
    PipeEmit(s.items, item, s.fed, s.inHand, s.pipe);
    ServerUnfold(s.items, s.answers, Lines(s.shared.driver.written));
    ServerEmit(s.items, item, s.answers, Lines(s.shared.driver.written));
  }

  lemma ServerUnfold(items: seq<Item>, answers: seq<Answer>, lines: seq<string>)
    requires ServerOk(items, answers, lines)
    ensures |answers| == |Replies(items)| <= |lines|
  {
  }

  lemma ReadKeeps(s: System, n: nat)
    requires Consistent(s) && Enabled(s, Step.Read(n))
    ensures Consistent(After(s, Step.Read(n)))
  {
    hide Writable, PipeOk, EngineOk, Seen, Lines, WireOk, ServerOk, DeliveryOk, CallsOk;
    assert s.inHand + s.pipe == s.pipe == s.pipe[..n] + s.pipe[n..];
  }

  /** Replies seen are answers given, to lines on the wire, of commands registered. */
  lemma Bounds(s: System, fed: string, ahead: string)
    requires PipeOk(s.items, fed, ahead)
    requires ServerOk(s.items, s.answers, Lines(s.shared.driver.written))
    requires WireOk(s.shared.driver.written, s.cmds, Loose(s))
    ensures |Seen(fed)| <= |s.answers| <= |Lines(s.shared.driver.written)| <= |s.cmds|
    ensures Seen(fed) <= Replies(s.items)
  {
    hide Seen, Replies, Lines, WireOk, PipeOk;
    FedIsPrefix(s.items, fed, ahead);
    WireLines(s.shared.driver.written, s.cmds, Loose(s));
  }

  lemma DispatchStepKeeps(s: System)
    requires Consistent(s) && Enabled(s, Dispatch)
    ensures Consistent(After(s, Dispatch))
  {
    hide EngineOk, Seen, Lines, WireOk, ServerOk, DeliveryOk, CallsOk, Arrived, Writable, Unlines;
    var d, fed' := s.shared.driver, s.fed + s.inHand;
    var parked := ParkedCount(|s.cmds|, Loose(s));
    ConcatAssoc(s.fed, s.inHand, s.pipe);
    assert "" + s.pipe == s.pipe;
    assert PipeOk(s.items, fed', s.pipe);
    Bounds(s, fed', s.pipe);
    CallsSizes(s);
    DispatchKeeps(d, s.fed, s.inHand, s.owners, parked);
    CallsGrow(s.calls, s.cmds, s.owners, s.lock, parked, d.sent, Arrived(d, s.inHand).sent);
  }

  lemma DisconnectStepKeeps(s: System)
    requires Consistent(s) && Enabled(s, Disconnect)
    ensures Consistent(After(s, Disconnect))
  {
    hide Writable, PipeOk, EngineOk, Seen, Lines, WireOk, ServerOk, DeliveryOk, CallsOk, Ended;
    var d, parked := s.shared.driver, ParkedCount(|s.cmds|, Loose(s));
    DisconnectKeeps(d, s.fed, s.owners, parked);
    CallsGrow(s.calls, s.cmds, s.owners, s.lock, parked, d.sent, Ended(d).sent);
  }

  lemma {:induction false} StepKeeps(s: System, step: Step)
    requires Consistent(s) && Enabled(s, step)
    ensures Consistent(After(s, step))
  {
    hide Consistent, After, Enabled;
    match step {
      case Start(call, cmd) => StartKeeps(s, call, cmd);
      case Put(n) => PutKeeps(s, n);
      case PutFails => PutFailsKeeps(s);
      case Park => ParkKeeps(s);
      case Wake(call, k) => WakeKeeps(s, call, k);
      case Emit(item) => EmitKeeps(s, item);
      case Read(n) => ReadKeeps(s, n);
      case ReadInterrupted => InterruptedKeeps(s);
      case ReadEnds => ReadEndsKeeps(s);
      case Dispatch => DispatchStepKeeps(s);
      case Disconnect => DisconnectStepKeeps(s);
    }
  }

  lemma InterruptedKeeps(s: System)
    requires Consistent(s) && Enabled(s, ReadInterrupted)
    ensures Consistent(After(s, ReadInterrupted))
  {
    hide Consistent;
  }

  lemma ReadEndsKeeps(s: System)
    requires Consistent(s) && Enabled(s, ReadEnds)
    ensures Consistent(After(s, ReadEnds))
  {
    hide Writable, PipeOk, EngineOk, Seen, Lines, WireOk, ServerOk, DeliveryOk, CallsOk;
  }

  lemma InitialIsConsistent()
    ensures Consistent(INITIAL)
  {
    EmptyText();
    assert Scan(None, []) == Scanned(None, []);
    assert Bytes([]) == "" && "" + ("" + "") == "";
    assert Replies([]) == [];
    assert Unlines([]) == "";
  }

  lemma {:induction false} RunKeeps(s: System, steps: seq<Step>)
    requires Consistent(s) && Possible(s, steps)
    ensures Consistent(Run(s, steps))
    decreases |steps|
  {
    hide Consistent, After, Enabled;
    if steps != [] {
      StepKeeps(s, steps[0]);
      RunKeeps(After(s, steps[0]), steps[1..]);
    }
  }

  /** Every reachable state is consistent. */
  lemma EveryRunIsConsistent(steps: seq<Step>)
    requires Possible(INITIAL, steps)
    ensures Consistent(Run(INITIAL, steps))
  {
    hide Consistent, Possible, Run;
    InitialIsConsistent();
    RunKeeps(INITIAL, steps);
  }
}
