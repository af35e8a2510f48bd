/** Where the two drivers part: a failed write ends the actor and only disconnects the
    lock-based client, and an interrupted read ends the actor and is retried by the client. */
module DriverDifferences {
  import opened Text
  import opened Parsers
  import opened Engines
  import opened Streams
  import opened Transcripts
  import opened Drivers
  import opened DriverTheorems

  // ---- A failed write, on any schedule -------------------------------------------

  /** Handling only appends to what was sent. */
  lemma HandledSends(d: Driver, incoming: seq<Incoming>)
    ensures d.sent <= HandleAll(d, incoming).sent
  {
    hide HandleAll;
    HandledClosed(d, incoming);
  }

  lemma {:induction false} RunSends(s: SharedState, evs: seq<Ev>)
    ensures s.driver.sent <= BlockingRun(s, evs).driver.sent
    decreases |evs|
  {
    hide HandleAll, AfterFeed, AfterEof;
    if evs == [] {
      HandledSends(s.driver.(engine := AfterEof(s.driver.engine).engine), AfterEof(s.driver.engine).out);
    } else {
      match evs[0] {
        case Arrive(bytes) =>
          var fed := AfterFeed(s.driver.engine, bytes);
          HandledSends(s.driver.(engine := fed.engine), fed.out);
        case Ask(_, _, _) =>
      }
      RunSends(AfterEv(s, evs[0]), evs[1..]);
    }
  }

  lemma {:induction false} NoneAccepted(evs: seq<Ev>)
    ensures Accepted(false, evs) == []
    decreases |evs|
  {
    if evs != [] {
      NoneAccepted(evs[1..]);
    }
  }

  /** The actor's deliveries against the client's: the same up to `at`, then a disconnect
      for the call whose write failed, then disconnects for the same calls in order. */
  predicate CutAt(actor: seq<Delivery>, client: seq<Delivery>, at: nat) {
    && at <= |client| && |actor| == |client| + 1
    && actor[..at] == client[..at] && actor[at].result == Disconnected
    && forall k :: at <= k < |client| ==> actor[k + 1] == Delivery(client[k].call, Disconnected)
  }

  lemma CutBySend(sent: seq<Delivery>, call: CallId, drained: seq<Delivery>, client: seq<Delivery>)
    requires sent <= client && AllDisconnected(drained)
    requires Calls(client) == Calls(sent) + Calls(drained)
    ensures CutAt(sent + [Delivery(call, Disconnected)] + drained, client, |sent|)
  {
    var actor := sent + [Delivery(call, Disconnected)] + drained;
    assert forall k :: 0 <= k < |client| ==> Calls(client)[k] == client[k].call;
    forall k | |sent| <= k < |client| ensures actor[k + 1] == Delivery(client[k].call, Disconnected) {
      assert Calls(client)[k] == Calls(drained)[k - |sent|] == drained[k - |sent|].call;
      assert actor[k + 1] == drained[k - |sent|];
    }
  }

  lemma FailingWrite(d: Driver, call: CallId, cmd: string, put: nat, later: seq<Ev>, detach: Write)
    requires InStep(d)
    ensures var d' := Asked(d, call, cmd, Broken(put));
            CutAt(TornDown(d'.(sent := d'.sent + [Delivery(call, Disconnected)]), detach).sent,
                  BlockingRun(SharedState(d', false), later).driver.sent, |d.sent|)
  {
    hide Ended, PutOf, BlockingRun, InStep, CallsToAnswer;
    var d' := Asked(d, call, cmd, Broken(put));
    var own := [Delivery(call, Disconnected)];
    InStepIsOrderly(d);
    AskedQueue(d, call, cmd, Broken(put));
    EveryCallAnsweredOnce(SharedState(d', false), later);
    NoneAccepted(later);
    RunSends(SharedState(d', false), later);
    CutShortAnswers(d, call, cmd, put, detach);
    var drained := EndedAdds(d'.(sent := d'.sent + own, written := d'.written + PutOf("", detach)));
    CallsAppend(d.sent + own, drained);
    CallsAppend(d.sent, own);
    UnfoldCalls(d);
    assert Calls(own) == [call] by { assert Calls(own)[0] == call; }
    assert CallsToAnswer(d) + [] == CallsToAnswer(d);
    Cancel(Calls(d.sent) + [call], Calls(drained), Queue(d.waiters, d.engine.pending));
    CutBySend(d.sent, call, drained, BlockingRun(SharedState(d', false), later).driver.sent);
  }

  lemma Cancel(a: seq<CallId>, b: seq<CallId>, c: seq<CallId>)
    requires a + b == a + c
    ensures b == c
  {
    assert b == (a + b)[|a|..] == (a + c)[|a|..] == c;
  }

  /** On any schedule with a failed write the actor sends the client's results up to it, and
      from then on disconnects, to the failing call and then to the same calls in order. */
  lemma {:induction false} ActorCutShort(d: Driver, evs: seq<Ev>, detach: Write) returns (at: nat)
    requires InStep(d) && !AllWritten(evs)
    ensures CutAt(ActorRun(d, TurnsOf(evs) + [Read(EndOfStream)], detach).sent,
                  BlockingRun(SharedState(d, true), evs).driver.sent, at)
    decreases |evs|
  {
    hide Asked, Arrived, Ended, TornDown, InStep;
    var turns := TurnsOf(evs[1..]) + [Read(EndOfStream)];
    ConcatAssoc([TurnOf(evs[0])], TurnsOf(evs[1..]), [Read(EndOfStream)]);
    TailOfCons(TurnOf(evs[0]), turns);
    match evs[0] {
      case Arrive(bytes) =>
        ArrivedInStep(d, bytes);
        StillUnwritten(evs);
        at := ActorCutShort(Arrived(d, bytes), evs[1..], detach);
      case Ask(call, cmd, Complete) =>
        AskedInStep(d, call, cmd);
        StillUnwritten(evs);
        at := ActorCutShort(Asked(d, call, cmd, Complete), evs[1..], detach);
      case Ask(call, cmd, Broken(put)) =>
        FailingWrite(d, call, cmd, put, evs[1..], detach);
        at := |d.sent|;
    }
  }

  lemma StillUnwritten(evs: seq<Ev>)
    requires !AllWritten(evs) && !(evs[0].Ask? && evs[0].write.Broken?)
    ensures !AllWritten(evs[1..])
  {
    var k :| 0 <= k < |evs| && evs[k].Ask? && !evs[k].write.Complete?;
    assert evs[1..][k - 1] == evs[k];
  }

  // ---- Schedules on which callers see the difference -----------------------------

  lemma FeedsOfOne(e: EngineState, bytes: string)
    ensures AfterFeeds(e, [bytes]) == AfterFeed(e, bytes)
  {
    hide AfterFeed;
    assert [bytes][1..] == [];
    assert AfterFeed(e, bytes).out + [] == AfterFeed(e, bytes).out;
  }

  predicate PlainReply(reply: Item) { Writable(reply) && reply.Block? && reply.closed && reply.flags != 0 }

  /** The reply to the first outstanding command reaches the one waiter. */
  lemma ReplyReaches(d: Driver, call: CallId, reply: Item)
    requires PlainReply(reply)
    requires d.waiters == map[0 := call] && Idle(d.engine) && d.engine.pending != [] && d.engine.pending[0] == 0
    ensures Arrived(d, Bytes([reply])).sent == d.sent + [Delivery(call, ResultOf(reply))]
    ensures Arrived(d, Bytes([reply])).waiters == map[]
  {
    hide HandleAll, Writable, AfterFeeds, AfterFeed, ResultOf, Bytes, Idle;
    var items, e, bytes := [reply], d.engine, Bytes([reply]);
    assert Concat([bytes]) == bytes by { assert [bytes][1..] == [] && bytes + "" == bytes; }
    TranscriptRoundTrip(e, items, [bytes]);
    FeedsOfOne(e, bytes);
    var fed, result := AfterFeed(e, bytes), ResultOf(reply);
    OutcomeOfBlock(reply);
    assert items[1..] == [] && EventsOf(items) == [Event.Finished(BlockReply(reply))];
    assert EventsOf(items)[1..] == [] && Controls(EventsOf(items)) == [BlockReply(reply)];
    assert Resolutions(fed.out) == [Resolution(0, result)];
    HandledClosed(d.(engine := fed.engine), fed.out);
    assert [Resolution(0, result)][1..] == [];
    assert Deliveries(d.waiters, [Resolution(0, result)]) == [Delivery(call, result)];
    assert Remaining(d.waiters, [Resolution(0, result)]) == map[];
  }

  lemma {:induction false} NoWaiters(rs: seq<Resolution>)
    ensures Deliveries(map[], rs) == []
    decreases |rs|
  {
    if rs != [] {
      NoWaiters(rs[1..]);
    }
  }

  /** With no one waiting the end sends nothing. */
  lemma EndsSilently(d: Driver)
    requires d.waiters == map[]
    ensures Ended(d).sent == d.sent
  {
    hide HandleAll;
    var ended := AfterEof(d.engine);
    HandledClosed(d.(engine := ended.engine), ended.out);
    NoWaiters(Resolutions(ended.out));
    assert d.sent + [] == d.sent;
  }

  /** With one waiter, for the first outstanding command, the end disconnects it alone. */
  lemma EndsWithOne(d: Driver, call: CallId)
    requires d.waiters == map[0 := call] && d.engine.pending != [] && d.engine.pending[0] == 0
    ensures Ended(d).sent == d.sent + [Delivery(call, Disconnected)]
  {
    hide HandleAll;
    var ended := AfterEof(d.engine);
    var rs := Resolutions(ended.out);
    HandledClosed(d.(engine := ended.engine), ended.out);
    ResolutionsOfDrainedAre(d.engine.pending);
    NoWaiters(rs[1..]);
    assert d.waiters - {0} == map[];
    assert Deliveries(d.waiters, rs) == [Delivery(call, Disconnected)] + [];
  }

  /** A command is asked, a second one fails to be written, then the reply to the first
      comes: its caller gets it from the client, and a disconnect from the actor. */
  lemma FailedWriteDiffers(x: CallId, a: string, y: CallId, b: string, put: nat, reply: Item, detach: Write)
    requires PlainReply(reply)
    ensures var evs := [Ask(x, a, Complete), Ask(y, b, Broken(put)), Arrive(Bytes([reply]))];
            && BlockingRun(SharedState(NEW_DRIVER, true), evs).driver.sent == [Delivery(x, ResultOf(reply))]
            && ActorRun(NEW_DRIVER, TurnsOf(evs), detach).sent == [Delivery(y, Disconnected), Delivery(x, Disconnected)]
  {
    hide Arrived, Ended, ResultOf, Bytes, Writable, PutOf;
    var bytes := Bytes([reply]);
    var d1 := Asked(NEW_DRIVER, x, a, Complete);
    var d2 := Asked(d1, y, b, Broken(put));
    var evs := [Ask(x, a, Complete), Ask(y, b, Broken(put)), Arrive(bytes)];
    var tail, last := evs[1..], [Arrive(bytes)];
    assert tail == [Ask(y, b, Broken(put)), Arrive(bytes)] && tail[1..] == last && last[1..] == [];
    ReplyReaches(d2, x, reply);
    EndsSilently(Arrived(d2, bytes));
    var s2 := SharedState(d2, false);
    assert BlockingRun(s2, last) == AfterDisconnect(s2.(driver := Arrived(d2, bytes)));
    var own := [Delivery(y, Disconnected)];
    EndsWithOne(d2.(sent := own, written := d2.written + PutOf("", detach)), x);
    TailOfCons(TurnOf(evs[0]), TurnsOf(tail));
    TailOfCons(TurnOf(tail[0]), TurnsOf(last));
    assert d2.sent + own == own;
    assert own + [Delivery(x, Disconnected)] == [Delivery(y, Disconnected), Delivery(x, Disconnected)];
  }

  /** A command is asked, a read is interrupted, then the reply comes: the client's reader
      retries and delivers it, the actor has already disconnected the caller. */
  lemma InterruptedReadDiffers(x: CallId, a: string, reply: Item, detach: Write)
    requires PlainReply(reply)
    ensures var d, bytes := Asked(NEW_DRIVER, x, a, Complete), Bytes([reply]);
            && AfterReads(SharedState(d, true), [Interrupted, Got(bytes)]).driver.sent
               == [Delivery(x, ResultOf(reply))]
            && ActorRun(d, [Read(Interrupted), Read(Got(bytes))], detach).sent == [Delivery(x, Disconnected)]
  {
    hide Arrived, Ended, ResultOf, Bytes, Writable, PutOf;
    var d, bytes := Asked(NEW_DRIVER, x, a, Complete), Bytes([reply]);
    var s, polls := SharedState(d, true), [Interrupted, Got(bytes)];
    assert polls[1..] == [Got(bytes)] && polls[1..][1..] == [];
    ReplyReaches(d, x, reply);
    EndsSilently(Arrived(d, bytes));
    assert AfterReads(s, polls[1..]) == AfterDisconnect(s.(driver := Arrived(d, bytes)));
    EndsWithOne(d.(written := d.written + PutOf("", detach)), x);
  }
}
