/** What callers can rely on in every state they, the reader thread, the pipe and tmux can
    reach together: replies reach the callers whose commands they answer, once, and all. */
module SystemTheorems {
  import opened Text
  import opened Notifications
  import opened Parsers
  import opened Engines
  import opened Streams
  import opened Transcripts
  import opened Drivers
  import opened DriverTheorems
  import opened Systems
  import opened SystemInvariant

  /** No cross-delivery: whatever result other than `Disconnected` a call came back with is
      tmux's answer to the line that this very call put on the wire. */
  lemma NoCrossDelivery(steps: seq<Step>, call: CallId) returns (id: CommandId)
    requires Possible(INITIAL, steps)
    requires var s := Run(INITIAL, steps);
             call in s.calls && s.calls[call].phase.Returned? && s.calls[call].phase.result != Disconnected
    ensures var s := Run(INITIAL, steps);
            && id < |s.answers| && id < |s.owners| && id < |Lines(s.shared.driver.written)|
            && (forall k :: 0 <= k < |s.owners| ==> (s.owners[k] == call <==> k == id))
            && id < |s.cmds| && Lines(s.shared.driver.written)[id] == s.cmds[id] == s.calls[call].cmd
            && s.answers[id] == Answer(s.calls[call].cmd, s.calls[call].phase.result)
  {
    hide Possible, Run, Consistent, PipeOk, EngineOk, WireOk, Seen, Replies, Lines, ParkedCount, WaitersAre;
    var s := Run(INITIAL, steps);
    EveryRunIsConsistent(steps);
    id := ReturnedFrom(s, call);
  }

  lemma ReturnedFrom(s: System, call: CallId) returns (id: CommandId)
    requires Consistent(s)
    requires call in s.calls && s.calls[call].phase.Returned? && s.calls[call].phase.result != Disconnected
    ensures && id < |s.answers| && id < |s.owners| && id < |Lines(s.shared.driver.written)|
            && (forall k :: 0 <= k < |s.owners| ==> (s.owners[k] == call <==> k == id))
            && id < |s.cmds| && Lines(s.shared.driver.written)[id] == s.cmds[id] == s.calls[call].cmd
            && s.answers[id] == Answer(s.calls[call].cmd, s.calls[call].phase.result)
  {
    hide PipeOk, EngineOk, WireOk, Seen, Replies, Lines, ParkedCount, WaitersAre, Outcome;
    var result, parked := s.calls[call].phase.result, ParkedCount(|s.cmds|, Loose(s));
    assert PhaseOk(call, s.calls[call], s.owners, s.lock, parked, s.shared.driver.sent);
    id :| 0 <= id < |s.shared.driver.sent| && s.shared.driver.sent[id] == Delivery(call, result);
    Bounds(s, s.fed, s.inHand + s.pipe);
    WireLines(s.shared.driver.written, s.cmds, Loose(s));
    assert id < |Seen(s.fed)|;
    assert Seen(s.fed)[id] == Replies(s.items)[id];
  }

  /** The wire log: at any moment the complete lines written are the registered commands in
      id order, and only the last one can be incomplete. */
  lemma WireLog(steps: seq<Step>)
    requires Possible(INITIAL, steps)
    ensures var s := Run(INITIAL, steps);
            && |s.cmds| == |s.owners| <= |Lines(s.shared.driver.written)| + 1
            && Lines(s.shared.driver.written) <= s.cmds
            && (s.lock.None? && s.failed.None? ==> s.shared.driver.written == Unlines(s.cmds))
            && forall k :: 0 <= k < |s.owners| ==> s.owners[k] in s.calls && s.calls[s.owners[k]].cmd == s.cmds[k]
  {
    hide Possible, Run, PipeOk, EngineOk, ServerOk, DeliveryOk, Seen, Lines;
    var s := Run(INITIAL, steps);
    EveryRunIsConsistent(steps);
    WireLines(s.shared.driver.written, s.cmds, Loose(s));
  }

  /** Waiters and FIFO: the outstanding ids are exactly those with a waiter, but for at most
      one, the last registered, whose call is still writing or whose write failed. */
  lemma WaitersMatchFifo(steps: seq<Step>, id: CommandId)
    requires Possible(INITIAL, steps)
    ensures var s := Run(INITIAL, steps);
            var d := s.shared.driver;
            && (id in d.waiters ==> id < |s.owners| && id in d.engine.pending && d.waiters[id] == s.owners[id])
            && (id in d.engine.pending && id !in d.waiters ==>
                id == |s.owners| - 1 == d.engine.pending[|d.engine.pending| - 1] && (s.lock.Some? || s.failed.Some?))
            && (s.failed.Some? ==> !s.shared.connected && s.owners != [] && s.owners[|s.owners| - 1] !in Calls(d.sent))
  {
    hide Possible, Run, PipeOk, WireOk, ServerOk, Seen, Lines;
    var s := Run(INITIAL, steps);
    EveryRunIsConsistent(steps);
    WaitersMatch(s, id);
  }

  lemma WaitersMatch(s: System, id: CommandId)
    requires Consistent(s)
    ensures var d := s.shared.driver;
            && (id in d.waiters ==> id < |s.owners| && id in d.engine.pending && d.waiters[id] == s.owners[id])
            && (id in d.engine.pending && id !in d.waiters ==>
                id == |s.owners| - 1 == d.engine.pending[|d.engine.pending| - 1] && (s.lock.Some? || s.failed.Some?))
            && (s.failed.Some? ==> !s.shared.connected && s.owners != [] && s.owners[|s.owners| - 1] !in Calls(d.sent))
  {
    hide PipeOk, ServerOk, Seen, Lines, Unlines, Scan, Notices, Tail, Outcome;
    var n, parked := |Seen(s.fed)|, ParkedCount(|s.cmds|, Loose(s));
    if id in s.shared.driver.waiters {
      assert Range(n, |s.owners|)[id - n] == id;
    }
    if s.failed.Some? {
      forall k | 0 <= k < |s.shared.driver.sent|
        ensures Calls(s.shared.driver.sent)[k] != s.owners[|s.owners| - 1] {
        assert s.shared.driver.sent[k].call == s.owners[k];
      }
    }
  }

  /** Exactly once: results go out to the callers in id order, to each at most one, and none
      before its waiter was in place. */
  lemma ExactlyOnce(steps: seq<Step>)
    requires Possible(INITIAL, steps)
    ensures var s := Run(INITIAL, steps);
            var d := s.shared.driver;
            && Calls(d.sent) <= s.owners && Distinct(s.owners)
            && (forall id :: id in d.waiters ==> |d.sent| <= id)
            && (s.lock.Some? ==> s.lock.value !in Calls(d.sent))
  {
    hide Possible, Run, PipeOk, EngineOk, WireOk, ServerOk, Seen, Lines;
    var s := Run(INITIAL, steps);
    EveryRunIsConsistent(steps);
    SentInOrder(s);
  }

  lemma SentInOrder(s: System)
    requires Consistent(s)
    ensures var d := s.shared.driver;
            && Calls(d.sent) <= s.owners && Distinct(s.owners)
            && (forall id :: id in d.waiters ==> |d.sent| <= id)
            && (s.lock.Some? ==> s.lock.value !in Calls(d.sent))
  {
    hide PipeOk, EngineOk, WireOk, ServerOk, Seen, Lines, Outcome;
    var sent := s.shared.driver.sent;
    assert forall k :: 0 <= k < |sent| ==> Calls(sent)[k] == sent[k].call == s.owners[k];
    if s.lock.Some? {
      LastIsHolding(s);
      assert s.owners[|s.owners| - 1] == s.lock.value;
    }
  }

  /** A reply the reader surfaces always finds its waiter, unless it answers the one command
      whose write failed. */
  lemma ReplyFindsWaiter(steps: seq<Step>, id: CommandId)
    requires Possible(INITIAL, steps) && Enabled(Run(INITIAL, steps), Dispatch)
    requires var s := Run(INITIAL, steps);
             id in Ids(Resolutions(AfterFeed(s.shared.driver.engine, s.inHand).out))
    ensures var s := Run(INITIAL, steps);
            id in s.shared.driver.waiters || (s.failed.Some? && id == |s.owners| - 1)
  {
    hide Possible, Run, Consistent, AfterFeed, Resolutions;
    var s := Run(INITIAL, steps);
    EveryRunIsConsistent(steps);
    FeedAccounting(s.shared.driver.engine, s.inHand);
    var ids := Ids(Resolutions(AfterFeed(s.shared.driver.engine, s.inHand).out));
    assert id in ids + AfterFeed(s.shared.driver.engine, s.inHand).engine.pending;
    WaitersMatchFifo(steps, id);
  }

  /** No stranded caller: after the disconnect no one waits on the client, nothing is
      outstanding, and every call still blocked has its one result ready. */
  lemma NoStranded(steps: seq<Step>, call: CallId)
    requires Possible(INITIAL, steps) && Run(INITIAL, steps).reader.Stopped?
    ensures var s := Run(INITIAL, steps);
            && s.shared.driver.waiters == map[] && s.shared.driver.engine.pending == [] && !s.shared.connected
            && (call in s.calls ==>
                  || s.calls[call].phase.Returned?
                  || (s.calls[call].phase.Waiting? && Enabled(s, Wake(call, s.calls[call].phase.id))))
  {
    hide Possible, Run, PipeOk, WireOk, ServerOk, Seen, Lines, Scan, Notices, Outcome, Tail;
    var s := Run(INITIAL, steps);
    EveryRunIsConsistent(steps);
    if call in s.calls {
      assert PhaseOk(call, s.calls[call], s.owners, s.lock, ParkedCount(|s.cmds|, Loose(s)), s.shared.driver.sent);
    }
  }

  /** Once disconnected, always disconnected; once stopped, the reader stays stopped. */
  lemma {:induction false} NeverReconnects(s: System, steps: seq<Step>)
    requires Possible(s, steps)
    ensures !s.shared.connected ==> !Run(s, steps).shared.connected
    ensures s.reader.Stopped? ==> Run(s, steps).reader.Stopped?
    decreases |steps|
  {
    if steps != [] {
      hide Arrived, Ended, Lines, Unlines, ItemLines, Writable, CommandLine, Outcome;
      NeverReconnects(After(s, steps[0]), steps[1..]);
    }
  }

  /** Notifications arrive in the order tmux wrote them, none invented or skipped. */
  lemma EventsInOrder(steps: seq<Step>)
    requires Possible(INITIAL, steps)
    ensures var s := Run(INITIAL, steps);
            s.shared.driver.events <= Notices(EventsOf(s.items))
  {
    hide Possible, Run, WireOk, ServerOk, DeliveryOk, CallsOk, Scan, Notices, EventsOf, Controls, Lines;
    var s := Run(INITIAL, steps);
    EveryRunIsConsistent(steps);
    FedIsPrefix(s.items, s.fed, s.inHand + s.pipe);
  }

  /** Nothing is held back: when every byte tmux wrote was dispatched, all its notifications
      went out, and every answered command with a waiter was sent its answer. */
  lemma AllDelivered(steps: seq<Step>)
    requires Possible(INITIAL, steps)
    requires var s := Run(INITIAL, steps);
             s.inHand == "" && s.pipe == "" && !s.reader.Stopped?
    ensures var s := Run(INITIAL, steps);
            var d := s.shared.driver;
            && d.events == Notices(EventsOf(s.items)) && d.engine.parser == None
            && |s.answers| <= |s.owners|
            && |d.sent| == |s.answers| - (if s.failed.Some? && |s.answers| == |s.owners| then 1 else 0)
            && forall k :: 0 <= k < |d.sent| ==> d.sent[k] == Delivery(s.owners[k], s.answers[k].result)
  {
    hide Possible, Run, Consistent;
    EveryRunIsConsistent(steps);
    DeliveredByNow(Run(INITIAL, steps));
  }

  lemma DeliveredByNow(s: System)
    requires Consistent(s) && s.inHand == "" && s.pipe == "" && !s.reader.Stopped?
    ensures var d := s.shared.driver;
            && d.events == Notices(EventsOf(s.items)) && d.engine.parser == None
            && |s.answers| <= |s.owners|
            && |d.sent| == |s.answers| - (if s.failed.Some? && |s.answers| == |s.owners| then 1 else 0)
            && forall k :: 0 <= k < |d.sent| ==> d.sent[k] == Delivery(s.owners[k], s.answers[k].result)
  {
    hide Scan, Notices, EventsOf, Controls, Lines, Tail, Unlines, WaitersAre, Outcome, CallsOk, Writable;
    FedIsPrefix(s.items, s.fed, s.inHand + s.pipe);
    Bounds(s, s.fed, s.inHand + s.pipe);
    CallsSizes(s);
  }

  /** A call blocked on its reply waits for nothing but tmux: its result is ready, or the
      reader has bytes to dispatch or read or a disconnect to make, or its line is on the
      wire and tmux has not answered it.  Should the lock be held, its holder can go on. */
  lemma BlockedOnlyOnTmux(steps: seq<Step>, call: CallId)
    requires Possible(INITIAL, steps)
    requires var s := Run(INITIAL, steps);
             call in s.calls && s.calls[call].phase.Waiting?
    ensures var s := Run(INITIAL, steps);
            var id := s.calls[call].phase.id;
            || Enabled(s, Wake(call, id))
            || (s.reader.Running? && s.inHand != "" && (s.lock.None? ==> Enabled(s, Dispatch)))
            || (s.reader.Running? && s.inHand == "" && Enabled(s, Step.Read(1)))
            || (s.reader.Ending? && (s.lock.None? ==> Enabled(s, Disconnect)))
            || (s.reader.Running? && |s.answers| <= id < |Lines(s.shared.driver.written)|)
    ensures var s := Run(INITIAL, steps);
            s.lock.Some? ==> Enabled(s, Put(1)) || Enabled(s, Park)
  {
    hide Possible, Run, Consistent, Lines;
    EveryRunIsConsistent(steps);
    HolderCanStep(Run(INITIAL, steps));
    WaitsFor(Run(INITIAL, steps), call);
  }

  /** Whoever holds the lock has bytes left to write or can let go of it. */
  lemma HolderCanStep(s: System)
    requires Consistent(s)
    ensures s.lock.Some? ==> Holding(s).Some? && (Enabled(s, Put(1)) || Enabled(s, Park))
  {
    hide Writable, PipeOk, EngineOk, WireOk, ServerOk, DeliveryOk, Seen, Lines;
    if s.lock.Some? {
      LastIsHolding(s);
    }
  }

  lemma WaitsFor(s: System, call: CallId)
    requires Consistent(s) && call in s.calls && s.calls[call].phase.Waiting?
    ensures var id := s.calls[call].phase.id;
            || Enabled(s, Wake(call, id))
            || (s.reader.Running? && (s.inHand != "" || s.pipe != "")) || s.reader.Ending?
            || (s.reader.Running? && |s.answers| <= id < |Lines(s.shared.driver.written)|)
  {
    hide Writable, PipeOk, EngineOk, WireOk, ServerOk, Seen, Replies, Lines, WaitersAre, Outcome;
    var id, parked, sent := s.calls[call].phase.id, ParkedCount(|s.cmds|, Loose(s)), s.shared.driver.sent;
    assert PhaseOk(call, s.calls[call], s.owners, s.lock, parked, sent);
    CallsSizes(s);
    Bounds(s, s.fed, s.inHand + s.pipe);
    WireLines(s.shared.driver.written, s.cmds, Loose(s));
    if s.reader.Running? && s.inHand == "" && s.pipe == "" {
      DeliveredByNow(s);
    }
  }

  /** If tmux numbers its control blocks in increasing order, the desync assertion holds
      for every line of every chunk that any run dispatches, on the engine as it then is. */
  lemma TripwireStaysQuiet(steps: seq<Step>)
    requires Possible(INITIAL, steps) && Enabled(Run(INITIAL, steps), Dispatch)
    requires var replies := Replies(Run(INITIAL, steps).items);
             forall i, j :: 0 <= i < j < |replies| ==> replies[i].number < replies[j].number
    ensures var s := Run(INITIAL, steps);
            Quiet(s.shared.driver.engine, Lines(s.shared.driver.engine.buf + s.inHand))
  {
    hide Possible, Run, Consistent, Enabled, Replies, Quiet, Lines;
    EveryRunIsConsistent(steps);
    QuietDispatch(Run(INITIAL, steps));
  }

  lemma QuietDispatch(s: System)
    requires Consistent(s)
    requires var replies := Replies(s.items);
             forall i, j :: 0 <= i < j < |replies| ==> replies[i].number < replies[j].number
    ensures Quiet(s.shared.driver.engine, Lines(s.shared.driver.engine.buf + s.inHand))
  {
    hide Writable, WireOk, ServerOk, DeliveryOk, CallsOk, Scan, Lines, Tail, Controls, EventsOf, Notices, Quiet;
    var e := s.shared.driver.engine;
    var seen, more := Seen(s.fed), Controls(Scan(e.parser, Lines(e.buf + s.inHand)).events);
    ConcatAssoc(s.fed, s.inHand, s.pipe);
    FedIsPrefix(s.items, s.fed + s.inHand, s.pipe);
    ScanMore(s.fed, s.inHand);
    assert forall k :: 0 <= k < |seen + more| ==> (seen + more)[k] == Replies(s.items)[k];
    MoreIncreases(seen, more, e.lastNumber);
    QuietExactly(e, Lines(e.buf + s.inHand));
  }

  lemma MoreIncreases(seen: seq<Reply>, more: seq<Reply>, last: Option<u64>)
    requires forall i, j :: 0 <= i < j < |seen + more| ==> (seen + more)[i].number < (seen + more)[j].number
    requires last == LastOf(None, seen)
    ensures Increasing(last, more)
  {
    IncreasingFrom(None, seen + more);
    IncreasingAppend(None, seen, more);
  }
}
