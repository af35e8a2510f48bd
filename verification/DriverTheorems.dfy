/** What the two drivers promise their callers, on any schedule. */
module DriverTheorems {
  import opened Text
  import opened Notifications
  import opened Parsers
  import opened Engines
  import opened Streams
  import opened Drivers

  // ---- Every waiter is answered once, in order -----------------------------------

  /** The calls waiting, in the order their commands will be resolved. */
  function Queue(waiters: map<CommandId, CallId>, pending: seq<CommandId>): seq<CallId>
    decreases |pending|
  {
    if pending == [] then []
    else (if pending[0] in waiters then [waiters[pending[0]]] else []) + Queue(waiters, pending[1..])
  }

  function Calls(sent: seq<Delivery>): (calls: seq<CallId>)
    ensures |calls| == |sent| && forall k :: 0 <= k < |sent| ==> calls[k] == sent[k].call
  {
    seq(|sent|, k requires 0 <= k < |sent| => sent[k].call)
  }

  predicate Distinct(ids: seq<CommandId>) {
    forall i, j :: 0 <= i < j < |ids| ==> ids[i] != ids[j]
  }

  lemma {:induction false} QueueWithout(waiters: map<CommandId, CallId>, id: CommandId, pending: seq<CommandId>)
    requires id !in pending
    ensures Queue(waiters - {id}, pending) == Queue(waiters, pending)
    decreases |pending|
  {
    if pending != [] {
      QueueWithout(waiters, id, pending[1..]);
    }
  }

  /** Resolving ids from the front of the FIFO moves calls from the queue to the reply
      channels, in order: none is lost, repeated or overtaken. */
  lemma {:induction false} QueueConserved(waiters: map<CommandId, CallId>, rs: seq<Resolution>, left: seq<CommandId>)
    requires Distinct(Ids(rs) + left)
    ensures Calls(Deliveries(waiters, rs)) + Queue(Remaining(waiters, rs), left) == Queue(waiters, Ids(rs) + left)
    decreases |rs|
  {
    if rs == [] {
      assert Calls(Deliveries(waiters, [])) == [];
      assert [] + left == left && [] + Queue(waiters, left) == Queue(waiters, left);
    } else {
      var id, later := rs[0].id, rs[1..];
      var all := Ids(later) + left;
      assert Ids(rs) + left == [id] + all;
      TailOfCons(id, all);
      assert forall k :: 0 <= k < |all| ==> all[k] == ([id] + all)[k + 1];
      QueueConserved(waiters - {id}, later, left);
      QueueWithout(waiters, id, all);
      if id in waiters {
        var delivery := Delivery(waiters[id], rs[0].result);
        var others := Deliveries(waiters - {id}, later);
        assert Calls([delivery] + others) == [waiters[id]] + Calls(others);
        ConcatAssoc([waiters[id]], Calls(Deliveries(waiters - {id}, later)), Queue(Remaining(waiters, rs), left));
      } else {
        NothingRemoved(waiters, id);
        assert [] + Queue(waiters, all) == Queue(waiters, all);
      }
    }
  }

  lemma CallsAppend(a: seq<Delivery>, b: seq<Delivery>)
    ensures Calls(a + b) == Calls(a) + Calls(b)
  {
  }

  function CallsToAnswer(d: Driver): seq<CallId> { Calls(d.sent) + Queue(d.waiters, d.engine.pending) }

  lemma RangeIsDistinct(e: EngineState)
    requires Contiguous(e)
    ensures Distinct(e.pending)
  {
  }

  lemma HandledQueue(d: Driver, out: seq<Incoming>, before: seq<CommandId>)
    requires Ids(Resolutions(out)) + d.engine.pending == before && Distinct(before)
    ensures CallsToAnswer(HandleAll(d, out)) == Calls(d.sent) + Queue(d.waiters, before)
  {
    var rs := Resolutions(out);
    HandledClosed(d, out);
    QueueConserved(d.waiters, rs, d.engine.pending);
    CallsAppend(d.sent, Deliveries(d.waiters, rs));
    ConcatAssoc(Calls(d.sent), Calls(Deliveries(d.waiters, rs)), Queue(Remaining(d.waiters, rs), d.engine.pending));
  }

  lemma ArrivedQueue(d: Driver, bytes: string)
    requires Contiguous(d.engine)
    ensures Contiguous(Arrived(d, bytes).engine) && CallsToAnswer(Arrived(d, bytes)) == CallsToAnswer(d)
  {
    hide AfterFeed, CallsToAnswer, HandleAll, Distinct;
    var fed := AfterFeed(d.engine, bytes);
    OpAccounting(d.engine, Chunk(bytes));
    FeedAccounting(d.engine, bytes);
    RangeIsDistinct(d.engine);
    HandledQueue(d.(engine := fed.engine), fed.out, d.engine.pending);
    HandledClosed(d.(engine := fed.engine), fed.out);
    UnfoldCalls(d);
  }

  lemma UnfoldCalls(d: Driver)
    ensures CallsToAnswer(d) == Calls(d.sent) + Queue(d.waiters, d.engine.pending)
  {
  }

  /** At the end of the stream everyone still queued is answered. */
  lemma EndedQueue(d: Driver)
    requires Contiguous(d.engine)
    ensures Ended(d).engine.pending == [] && Calls(Ended(d).sent) == CallsToAnswer(d)
    ensures (forall id :: id in d.waiters ==> id in d.engine.pending) ==> Ended(d).waiters == map[]
  {
    hide HandleAll, Distinct;
    var fed := AfterEof(d.engine);
    var d' := d.(engine := fed.engine);
    ResolutionsOfDrained(d.engine.pending);
    assert d.engine.pending + [] == d.engine.pending;
    RangeIsDistinct(d.engine);
    HandledQueue(d', fed.out, d.engine.pending);
    HandledClosed(d', fed.out);
    assert Calls(Ended(d).sent) + [] == Calls(Ended(d).sent);
    RemainingKeys(d.waiters, Resolutions(fed.out));
  }

  lemma {:induction false} RemainingKeys(waiters: map<CommandId, CallId>, rs: seq<Resolution>)
    ensures Remaining(waiters, rs).Keys == waiters.Keys - (set id | id in Ids(rs))
    ensures forall id :: id in Remaining(waiters, rs) ==> id in waiters && Remaining(waiters, rs)[id] == waiters[id]
    decreases |rs|
  {
    if rs != [] {
      RemainingKeys(waiters - {rs[0].id}, rs[1..]);
      assert Ids(rs) == [rs[0].id] + Ids(rs[1..]);
    }
  }

  lemma {:induction false} QueueOfNew(waiters: map<CommandId, CallId>, pending: seq<CommandId>,
                                      id: CommandId, call: CallId)
    requires id !in pending && id !in waiters
    ensures Queue(waiters[id := call], pending + [id]) == Queue(waiters, pending) + [call]
    ensures Queue(waiters, pending + [id]) == Queue(waiters, pending)
    decreases |pending|
  {
    if pending == [] {
      assert pending + [id] == [id] && [id][1..] == [];
    } else {
      assert (pending + [id])[1..] == pending[1..] + [id];
      QueueOfNew(waiters, pending[1..], id, call);
    }
  }

  /** No waiter is ahead of the id counter. */
  predicate Orderly(d: Driver) {
    Contiguous(d.engine) && forall id :: id in d.waiters ==> id in d.engine.pending
  }

  lemma AskedQueue(d: Driver, call: CallId, cmd: string, write: Write)
    requires Orderly(d)
    ensures var d' := Asked(d, call, cmd, write);
            Orderly(d') && CallsToAnswer(d') == CallsToAnswer(d) + (if write.Complete? then [call] else [])
  {
    var id, pending := d.engine.nextId, d.engine.pending;
    assert pending + [id] == Range(id - |pending|, id + 1);
    assert id !in pending;
    QueueOfNew(d.waiters, pending, id, call);
    assert forall k :: k in pending ==> k in pending + [id];
    ConcatAssoc(Calls(d.sent), Queue(d.waiters, pending), if write.Complete? then [call] else []);
    assert Queue(d.waiters, pending) + [] == Queue(d.waiters, pending);
  }

  lemma ArrivedOrderly(d: Driver, bytes: string)
    requires Orderly(d)
    ensures Orderly(Arrived(d, bytes)) && CallsToAnswer(Arrived(d, bytes)) == CallsToAnswer(d)
  {
    hide AfterFeed, CallsToAnswer, HandleAll, Contiguous;
    var fed := AfterFeed(d.engine, bytes);
    ArrivedQueue(d, bytes);
    FeedAccounting(d.engine, bytes);
    HandledClosed(d.(engine := fed.engine), fed.out);
    RemainingKeys(d.waiters, Resolutions(fed.out));
    var ids := Ids(Resolutions(fed.out));
    forall id | id in Remaining(d.waiters, Resolutions(fed.out)) ensures id in fed.engine.pending {
      assert id in ids + fed.engine.pending;
    }
  }

  // ---- Schedules -----------------------------------------------------------------

  /** What can happen to a session before its stream ends. */
  datatype Ev = Ask(call: CallId, cmd: string, write: Write) | Arrive(bytes: string)

  function AfterEv(s: SharedState, ev: Ev): SharedState {
    match ev
    case Ask(call, cmd, write) => AfterCommand(s, call, cmd, write)
    case Arrive(bytes) => s.(driver := Arrived(s.driver, bytes))
  }

  /** The lock-based driver over a schedule, then the end of the stream. */
  function BlockingRun(s: SharedState, evs: seq<Ev>): SharedState
    decreases |evs|
  {
    if evs == [] then AfterDisconnect(s) else BlockingRun(AfterEv(s, evs[0]), evs[1..])
  }

  /** The calls a schedule registers with a complete write, in order. */
  function Accepted(connected: bool, evs: seq<Ev>): seq<CallId>
    decreases |evs|
  {
    if evs == [] then []
    else
      match evs[0]
      case Arrive(_) => Accepted(connected, evs[1..])
      case Ask(call, _, write) =>
        (if connected && write.Complete? then [call] else []) + Accepted(connected && write.Complete?, evs[1..])
  }

  /** On every schedule, write failures included, each accepted call is sent exactly one
      result, in the order the calls were made, and no one is left waiting at the end. */
  lemma {:induction false} EveryCallAnsweredOnce(s: SharedState, evs: seq<Ev>)
    requires Orderly(s.driver)
    ensures var end := BlockingRun(s, evs);
            && Calls(end.driver.sent) == CallsToAnswer(s.driver) + Accepted(s.connected, evs)
            && end.driver.waiters == map[] && end.driver.engine.pending == [] && !end.connected
    decreases |evs|
  {
    hide CallsToAnswer, Orderly, Asked, Arrived, Ended;
    if evs == [] {
      OrderlyEnds(s.driver);
      assert CallsToAnswer(s.driver) + [] == CallsToAnswer(s.driver);
    } else {
      match evs[0] {
        case Arrive(bytes) =>
          ArrivedOrderly(s.driver, bytes);
        case Ask(call, cmd, write) =>
          if s.connected {
            AskedQueue(s.driver, call, cmd, write);
          }
          var own := if s.connected && write.Complete? then [call] else [];
          ConcatAssoc(CallsToAnswer(s.driver), own, Accepted(s.connected && write.Complete?, evs[1..]));
          assert CallsToAnswer(s.driver) + [] == CallsToAnswer(s.driver);
      }
      EveryCallAnsweredOnce(AfterEv(s, evs[0]), evs[1..]);
    }
  }

  lemma OrderlyEnds(d: Driver)
    requires Orderly(d)
    ensures Ended(d).engine.pending == [] && Ended(d).waiters == map[] && Calls(Ended(d).sent) == CallsToAnswer(d)
  {
    hide Ended, CallsToAnswer, Contiguous;
    EndedQueue(d);
  }

  /** The reader thread alone delivers what one feed of all its chunks would: how the
      stream is cut and how often a read is interrupted make no difference. */
  lemma {:induction false} ReadsAreOneChunk(s: SharedState, polls: seq<ReadResult>)
    requires '\n' !in s.driver.engine.buf
    ensures AfterReads(s, polls) == AfterDisconnect(s.(driver := Arrived(s.driver, Gathered(polls))))
    decreases |polls|
  {
    hide Arrived, AfterDisconnect;
    ArrivedNothing(s.driver);
    if polls != [] {
      match polls[0] {
        case Got(chunk) =>
          ArrivedTwice(s.driver, chunk, Gathered(polls[1..]));
          ReadsAreOneChunk(s.(driver := Arrived(s.driver, chunk)), polls[1..]);
        case Interrupted =>
          ReadsAreOneChunk(s, polls[1..]);
        case EndOfStream =>
        case Fault =>
      }
    }
  }

  /** The bytes read before the session ends. */
  function Gathered(polls: seq<ReadResult>): string
    decreases |polls|
  {
    if polls == [] then ""
    else
      match polls[0]
      case Got(chunk) => chunk + Gathered(polls[1..])
      case Interrupted => Gathered(polls[1..])
      case EndOfStream => ""
      case Fault => ""
  }

  /** The bytes of all the chunks among some reads. */
  function Chunks(polls: seq<ReadResult>): string {
    if polls == [] then "" else (if polls[0].Got? then polls[0].chunk else "") + Chunks(polls[1..])
  }

  lemma {:induction false} GatheredIs(polls: seq<ReadResult>, stop: ReadResult, later: seq<ReadResult>)
    requires forall k :: 0 <= k < |polls| ==> polls[k].Got? || polls[k].Interrupted?
    requires stop.EndOfStream? || stop.Fault?
    ensures Gathered(polls + ([stop] + later)) == Chunks(polls)
    decreases |polls|
  {
    if polls == [] {
      assert polls + ([stop] + later) == [stop] + later;
    } else {
      assert (polls + ([stop] + later))[1..] == polls[1..] + ([stop] + later);
      GatheredIs(polls[1..], stop, later);
      assert "" + Chunks(polls[1..]) == Chunks(polls[1..]);
    }
  }

  /** Chunks arrive and interruptions are retried until the stream ends or a read fails;
      then the session is over, and what the reads would have yielded later is not read. */
  lemma {:induction false} ReadsUntilStop(s: SharedState, polls: seq<ReadResult>, stop: ReadResult,
                                          later: seq<ReadResult>)
    requires '\n' !in s.driver.engine.buf
    requires forall k :: 0 <= k < |polls| ==> polls[k].Got? || polls[k].Interrupted?
    requires stop.EndOfStream? || stop.Fault?
    ensures AfterReads(s, polls + ([stop] + later))
         == AfterDisconnect(s.(driver := Arrived(s.driver, Chunks(polls))))
  {
    hide Arrived, AfterDisconnect, AfterReads, Gathered, Chunks;
    ReadsAreOneChunk(s, polls + ([stop] + later));
    GatheredIs(polls, stop, later);
  }

  lemma ArrivedNothing(d: Driver)
    requires '\n' !in d.engine.buf
    ensures Arrived(d, "") == d
  {
    hide AfterFeed;
    FeedNothing(d.engine);
  }

  lemma ArrivedTwice(d: Driver, a: string, b: string)
    ensures Arrived(Arrived(d, a), b) == Arrived(d, a + b)
    ensures '\n' !in Arrived(d, a).engine.buf
  {
    hide AfterFeed, HandleAll;
    var first := AfterFeed(d.engine, a);
    var second := AfterFeed(first.engine, b);
    FeedTwice(d.engine, a, b);
    FeedLeavesTail(d.engine, a);
    var d1 := HandleAll(d.(engine := first.engine), first.out);
    HandledClosed(d.(engine := first.engine), first.out);
    HandleAppend(d, second.engine, first.engine, first.out, second.out);
  }

  lemma {:induction false} HandleAppend(d: Driver, e: EngineState, e1: EngineState, a: seq<Incoming>, b: seq<Incoming>)
    ensures HandleAll(HandleAll(d.(engine := e1), a).(engine := e), b) == HandleAll(d.(engine := e), a + b)
    decreases |a|
  {
    if a == [] {
      assert a + b == b;
    } else {
      assert (a + b)[1..] == a[1..] + b;
      HandleAppend(HandleOne(d.(engine := e1), a[0]), e, e1, a[1..], b);
    }
  }

  // ---- What the end adds ---------------------------------------------------------

  predicate AllDisconnected(ds: seq<Delivery>) { forall k :: 0 <= k < |ds| ==> ds[k].result == Disconnected }

  lemma {:induction false} DrainedDeliveries(waiters: map<CommandId, CallId>, rs: seq<Resolution>)
    requires forall k :: 0 <= k < |rs| ==> rs[k].result == Disconnected
    ensures AllDisconnected(Deliveries(waiters, rs))
    decreases |rs|
  {
    if rs != [] {
      DrainedDeliveries(waiters - {rs[0].id}, rs[1..]);
      DrainedDeliveries(waiters, rs[1..]);
    }
  }

  /** The end of a run only adds disconnects. */
  lemma EndedAdds(d: Driver) returns (more: seq<Delivery>)
    ensures Ended(d).sent == d.sent + more && AllDisconnected(more)
  {
    hide HandleAll;
    var ended := AfterEof(d.engine);
    HandledClosed(d.(engine := ended.engine), ended.out);
    ResolutionsOfDrainedAre(d.engine.pending);
    more := Deliveries(d.waiters, Resolutions(ended.out));
    DrainedDeliveries(d.waiters, Resolutions(ended.out));
  }

  // ---- The two drivers -----------------------------------------------------------

  /** The actor's turn for an event. */
  function TurnOf(ev: Ev): Turn {
    match ev
    case Ask(call, cmd, write) => Request(call, cmd, write)
    case Arrive(bytes) => Read(Got(bytes))
  }

  function TurnsOf(evs: seq<Ev>): seq<Turn> {
    if evs == [] then [] else [TurnOf(evs[0])] + TurnsOf(evs[1..])
  }

  predicate AllWritten(evs: seq<Ev>) { forall k :: 0 <= k < |evs| && evs[k].Ask? ==> evs[k].write.Complete? }

  lemma {:induction false} HandleIgnoresWritten(d: Driver, written: string, out: seq<Incoming>)
    ensures HandleAll(d.(written := written), out) == HandleAll(d, out).(written := written)
    decreases |out|
  {
    if out != [] {
      HandleIgnoresWritten(HandleOne(d, out[0]), written, out[1..]);
    }
  }

  lemma EndedIgnoresWritten(d: Driver, written: string)
    ensures Ended(d.(written := written)) == Ended(d).(written := written)
  {
    hide HandleAll;
    var fed := AfterEof(d.engine);
    HandleIgnoresWritten(d.(engine := fed.engine), written, fed.out);
  }

  /** With no failed write, both drivers deliver the same results to the same callers, the
      same notifications, and the same command lines; the actor only adds its detach line. */
  lemma {:induction false} DriversAgree(d: Driver, evs: seq<Ev>, detach: Write)
    requires AllWritten(evs)
    ensures var blocking, actor := BlockingRun(SharedState(d, true), evs).driver,
                                   ActorRun(d, TurnsOf(evs) + [Read(EndOfStream)], detach);
            && actor == blocking.(written := actor.written)
            && actor.written == blocking.written + PutOf("", detach)
    decreases |evs|
  {
    hide Asked, Arrived, Ended, PutOf;
    if evs == [] {
      assert TurnsOf(evs) + [Read(EndOfStream)] == [Read(EndOfStream)];
      EndedIgnoresWritten(d, d.written + PutOf("", detach));
      EndedKeepsWritten(d);
    } else {
      var turns := TurnsOf(evs[1..]) + [Read(EndOfStream)];
      ConcatAssoc([TurnOf(evs[0])], TurnsOf(evs[1..]), [Read(EndOfStream)]);
      TailOfCons(TurnOf(evs[0]), turns);
      match evs[0] {
        case Ask(call, cmd, write) => DriversAgree(Asked(d, call, cmd, write), evs[1..], detach);
        case Arrive(bytes) => DriversAgree(Arrived(d, bytes), evs[1..], detach);
      }
    }
  }

  lemma EndedKeepsWritten(d: Driver)
    ensures Ended(d).written == d.written
  {
    hide HandleAll;
    HandledClosed(d.(engine := AfterEof(d.engine).engine), AfterEof(d.engine).out);
  }

  /** At every turn of the actor's loop the waiters are exactly the outstanding commands. */
  ghost predicate InStep(d: Driver) {
    Contiguous(d.engine) && forall id :: id in d.waiters <==> id in d.engine.pending
  }

  lemma AskedInStep(d: Driver, call: CallId, cmd: string)
    requires InStep(d)
    ensures InStep(Asked(d, call, cmd, Complete))
  {
    var id, pending := d.engine.nextId, d.engine.pending;
    assert pending + [id] == Range(id - |pending|, id + 1);
    assert forall k :: k in pending + [id] <==> k in pending || k == id;
  }

  lemma ArrivedInStep(d: Driver, bytes: string)
    requires InStep(d)
    ensures InStep(Arrived(d, bytes))
  {
    hide AfterFeed, HandleAll, Contiguous, CallsToAnswer;
    var fed := AfterFeed(d.engine, bytes);
    ArrivedQueue(d, bytes);
    FeedAccounting(d.engine, bytes);
    HandledClosed(d.(engine := fed.engine), fed.out);
    var ids := Ids(Resolutions(fed.out));
    RemainingKeys(d.waiters, Resolutions(fed.out));
    SplitRange(d.engine, ids, fed.engine.pending);
    assert forall id :: id in ids + fed.engine.pending <==> id in ids || id in fed.engine.pending;
  }

  lemma SplitRange(e: EngineState, ids: seq<CommandId>, left: seq<CommandId>)
    requires Contiguous(e) && ids + left == e.pending
    ensures forall id :: id in ids ==> id !in left
  {
    var lo := e.nextId - |e.pending|;
    assert forall k :: 0 <= k < |ids| ==> ids[k] == (ids + left)[k] == lo + k;
    assert forall k :: 0 <= k < |left| ==> left[k] == (ids + left)[|ids| + k] == lo + |ids| + k;
  }

  /** Turns that end the actor's loop. */
  predicate EndsLoop(turn: Turn) {
    !(turn.Request? && turn.write.Complete?) && !(turn.Read? && turn.result.Got?)
  }

  /** The actor's state at the head of its loop after some turns, if it is still running. */
  function HeadAfter(d: Driver, turns: seq<Turn>): Option<Driver>
    decreases |turns|
  {
    if turns == [] then Some(d)
    else
      match turns[0]
      case Request(call, cmd, Complete) => HeadAfter(Asked(d, call, cmd, Complete), turns[1..])
      case Read(Got(chunk)) => HeadAfter(Arrived(d, chunk), turns[1..])
      case _ => None
  }

  lemma {:induction false} ActorInStep(d: Driver, turns: seq<Turn>)
    requires InStep(d)
    ensures HeadAfter(d, turns).Some? ==> InStep(HeadAfter(d, turns).value)
    decreases |turns|
  {
    hide Asked, Arrived, InStep;
    if turns != [] {
      match turns[0] {
        case Request(call, cmd, Complete) =>
          AskedInStep(d, call, cmd);
          ActorInStep(Asked(d, call, cmd, Complete), turns[1..]);
        case Read(Got(chunk)) =>
          ArrivedInStep(d, chunk);
          ActorInStep(Arrived(d, chunk), turns[1..]);
        case _ =>
      }
    }
  }

  /** The calls whose command lines the actor writes completely. */
  function TakenUp(turns: seq<Turn>): seq<CallId>
    decreases |turns|
  {
    if turns == [] then []
    else
      match turns[0]
      case Request(call, _, Complete) => [call] + TakenUp(turns[1..])
      case Request(_, _, Broken(_)) => []
      case NoMoreRequests => []
      case Read(Got(_)) => TakenUp(turns[1..])
      case Read(_) => []
  }

  /** The call whose failed write ends the actor, if one does. */
  function CutShort(turns: seq<Turn>): seq<CallId>
    decreases |turns|
  {
    if turns == [] then []
    else
      match turns[0]
      case Request(_, _, Complete) => CutShort(turns[1..])
      case Request(call, _, Broken(_)) => [call]
      case NoMoreRequests => []
      case Read(Got(_)) => CutShort(turns[1..])
      case Read(_) => []
  }

  /** The actor too sends every call it takes up exactly one result, each in order among
      the accepted ones, and teardown leaves no waiter. */
  lemma {:induction false} ActorAnswersOnce(d: Driver, turns: seq<Turn>, detach: Write)
    requires InStep(d)
    ensures var end := ActorRun(d, turns, detach);
            && end.waiters == map[] && end.engine.pending == []
            && multiset(Calls(end.sent)) == multiset(CallsToAnswer(d) + TakenUp(turns) + CutShort(turns))
            && (CutShort(turns) == [] ==> Calls(end.sent) == CallsToAnswer(d) + TakenUp(turns))
    decreases |turns|
  {
    hide Asked, Arrived, InStep, CallsToAnswer, TornDown;
    var calls := CallsToAnswer(d);
    assert calls + [] == calls;
    if turns == [] {
      TornDownAnswers(d, detach);
    } else {
      match turns[0] {
        case NoMoreRequests => TornDownAnswers(d, detach);
        case Request(call, cmd, Complete) =>
          AskedInStep(d, call, cmd);
          InStepIsOrderly(d);
          AskedQueue(d, call, cmd, Complete);
          ActorAnswersOnce(Asked(d, call, cmd, Complete), turns[1..], detach);
          ConcatAssoc(calls, [call], TakenUp(turns[1..]));
        case Request(call, cmd, Broken(put)) =>
          CutShortAnswers(d, call, cmd, put, detach);
        case Read(Got(chunk)) =>
          ArrivedInStep(d, chunk);
          InStepIsOrderly(d);
          ArrivedOrderly(d, chunk);
          ActorAnswersOnce(Arrived(d, chunk), turns[1..], detach);
        case Read(_) => TornDownAnswers(d, detach);
      }
    }
  }

  lemma InStepIsOrderly(d: Driver)
    requires InStep(d)
    ensures Orderly(d)
  {
  }

  lemma TornDownAnswers(d: Driver, detach: Write)
    requires InStep(d)
    ensures var end := TornDown(d, detach);
            end.waiters == map[] && end.engine.pending == [] && Calls(end.sent) == CallsToAnswer(d)
  {
    hide Ended, InStep, Orderly, PutOf;
    InStepIsOrderly(d);
    OrderlyEnds(d);
    EndedIgnoresWritten(d, d.written + PutOf("", detach));
  }

  lemma CutShortAnswers(d: Driver, call: CallId, cmd: string, put: nat, detach: Write)
    requires InStep(d)
    ensures var d' := Asked(d, call, cmd, Broken(put));
            var end := TornDown(d'.(sent := d'.sent + [Delivery(call, Disconnected)]), detach);
            && end.waiters == map[] && end.engine.pending == []
            && Calls(end.sent) == Calls(d.sent) + [call] + Queue(d.waiters, d.engine.pending)
            && multiset(Calls(end.sent)) == multiset(CallsToAnswer(d) + [call])
  {
    hide Ended, PutOf, Queue, Calls, Contiguous;
    InStepIsOrderly(d);
    AskedQueue(d, call, cmd, Broken(put));
    var d' := Asked(d, call, cmd, Broken(put));
    var d'' := d'.(sent := d'.sent + [Delivery(call, Disconnected)]);
    var queue := Queue(d.waiters, d.engine.pending);
    NewIdIsNew(d);
    QueueOfNew(d.waiters, d.engine.pending, d.engine.nextId, call);
    CallsAppend(d.sent, [Delivery(call, Disconnected)]);
    assert Calls([Delivery(call, Disconnected)]) == [call] by {
      assert Calls([Delivery(call, Disconnected)])[0] == call;
    }
    OrderlyEnds(d'');
    EndedIgnoresWritten(d'', d''.written + PutOf("", detach));
    Swapped(Calls(d.sent), [call], queue);
  }

  lemma NewIdIsNew(d: Driver)
    requires Orderly(d)
    ensures d.engine.nextId !in d.engine.pending && d.engine.nextId !in d.waiters
  {
  }

  lemma Swapped(a: seq<CallId>, b: seq<CallId>, c: seq<CallId>)
    ensures multiset(a + b + c) == multiset(a + c + b)
  {
  }
}
