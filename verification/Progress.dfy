/** Runs that succeed: from any state in which the reader runs, any call can still come back
    with its own reply, however long the reply and whatever is still on its way. */
module Progress {
  import opened Text
  import opened Engines
  import opened Streams
  import opened Transcripts
  import opened Drivers
  import opened DriverTheorems
  import opened Systems
  import opened SystemInvariant
  import opened SystemTheorems

  lemma NothingMore(s: System)
    ensures Possible(s, []) && Run(s, []) == s
  {
  }

  lemma Follow(s: System, step: Step, steps: seq<Step>)
    requires Enabled(s, step) && Possible(After(s, step), steps)
    ensures Possible(s, [step] + steps) && Run(s, [step] + steps) == Run(After(s, step), steps)
  {
    hide Enabled, After;
    TailOfCons(step, steps);
  }

  lemma {:induction false} RunAppend(s: System, a: seq<Step>, b: seq<Step>)
    requires Possible(s, a) && Possible(Run(s, a), b)
    ensures Possible(s, a + b) && Run(s, a + b) == Run(Run(s, a), b)
    decreases |a|
  {
    hide Enabled, After;
    if a == [] {
      assert a + b == b;
    } else {
      assert (a + b)[1..] == a[1..] + b;
      RunAppend(After(s, a[0]), a[1..], b);
    }
  }

  lemma OneStep(s: System, step: Step)
    requires Consistent(s) && Enabled(s, step)
    ensures Possible(s, [step]) && Run(s, [step]) == After(s, step) && Consistent(After(s, step))
  {
    hide Enabled, After, Consistent;
    StepKeeps(s, step);
    NothingMore(After(s, step));
    Follow(s, step, []);
    assert [step] + [] == [step];
  }

  // ---- The lock becomes free -----------------------------------------------------

  /** Nothing happened but that the lock's holder went on to wait. */
  predicate OnlyUnlocked(s: System, s': System) {
    && s'.lock.None? && s'.shared.connected == s.shared.connected
    && s'.reader == s.reader && s'.inHand == s.inHand && s'.pipe == s.pipe
    && s'.answers == s.answers && s'.owners == s.owners && s'.calls.Keys == s.calls.Keys
    && forall call :: call in s.calls && s.calls[call].phase.Waiting? ==> s'.calls[call] == s.calls[call]
  }

  /** The holder of the lock writes the rest of its line and goes on to wait. */
  lemma Unlock(s: System) returns (steps: seq<Step>)
    requires Consistent(s)
    ensures Possible(s, steps) && OnlyUnlocked(s, Run(s, steps)) && Consistent(Run(s, steps))
  {
    hide Consistent, Possible, Run, Writable, Lines, CommandLine;
    HolderCanStep(s);
    if s.lock.None? {
      NothingMore(s);
      steps := [];
    } else {
      var cmd, put := Holding(s).value.cmd, Holding(s).value.phase.put;
      if put <= |cmd| {
        LastPut(s);
        var s1 := PutMore(s, |cmd| + 1 - put);
        OneStep(s, Put(|cmd| + 1 - put));
        OneStep(s1, Park);
        steps := [Put(|cmd| + 1 - put)] + [Park];
        Follow(s, Put(|cmd| + 1 - put), [Park]);
      } else {
        LastPut(s);
        OneStep(s, Park);
        steps := [Park];
      }
    }
  }

  lemma LastPut(s: System)
    requires Consistent(s) && Holding(s).Some?
    ensures Holding(s).value.phase.put <= |Holding(s).value.cmd| + 1
  {
    hide Writable, PipeOk, EngineOk, WireOk, ServerOk, DeliveryOk, Seen, Lines;
    LastIsHolding(s);
  }

  // ---- Everything written is read and dispatched ---------------------------------

  /** Only the reader moved. */
  predicate OnlyRead(s: System, s': System) {
    && s'.lock == s.lock && s'.reader == s.reader && s'.calls == s.calls
    && s'.answers == s.answers && s'.owners == s.owners && s'.cmds == s.cmds && s'.failed == s.failed
  }

  /** Read by read and chunk by chunk the pipe runs dry. */
  lemma {:induction false} Drain(s: System) returns (steps: seq<Step>)
    requires Consistent(s) && s.reader.Running? && s.lock.None?
    ensures Possible(s, steps) && Consistent(Run(s, steps))
    ensures OnlyRead(s, Run(s, steps)) && Run(s, steps).inHand == "" && Run(s, steps).pipe == ""
    decreases 2 * |s.pipe| + |s.inHand|
  {
    hide Consistent, Possible, Run, Writable, Lines, Arrived;
    if s.inHand != "" {
      OneStep(s, Dispatch);
      var rest := Drain(After(s, Dispatch));
      steps := [Dispatch] + rest;
      Follow(s, Dispatch, rest);
    } else if s.pipe != "" {
      var n := Least(|s.pipe|, READ_SIZE);
      OneStep(s, Step.Read(n));
      var rest := Drain(After(s, Step.Read(n)));
      steps := [Step.Read(n)] + rest;
      Follow(s, Step.Read(n), rest);
    } else {
      NothingMore(s);
      steps := [];
    }
  }

  // ---- tmux answers up to a line -------------------------------------------------

  predicate ReplyItem(reply: Item) { IsControl(reply) && reply.closed && Writable(reply) }

  /** What tmux answers line `id` with, if it answers the next lines with `reply`. */
  function AnswerTo(s: System, id: CommandId, reply: Item): CommandResult
    requires reply.Block?
  {
    if id < |s.answers| then s.answers[id].result else ResultOf(reply)
  }

  /** Only tmux wrote. */
  predicate OnlyAnswered(s: System, s': System) {
    && s'.lock == s.lock && s'.reader == s.reader && s'.calls == s.calls
    && s'.shared == s.shared && s'.owners == s.owners && s'.cmds == s.cmds && s'.failed == s.failed
  }

  /** tmux gets to the answer of any line on the wire, earlier lines first. */
  lemma {:induction false} AnswerUpTo(s: System, id: CommandId, reply: Item) returns (steps: seq<Step>)
    requires Consistent(s) && id < |Lines(s.shared.driver.written)| && ReplyItem(reply)
    ensures Possible(s, steps) && Consistent(Run(s, steps)) && OnlyAnswered(s, Run(s, steps))
    ensures id < |Run(s, steps).answers| && Run(s, steps).answers[id].result == AnswerTo(s, id, reply)
    decreases if |s.answers| <= id then id + 1 - |s.answers| else 0
  {
    hide Consistent, Possible, Run, Writable, Lines, Unlines, ItemLines, ResultOf;
    if id < |s.answers| {
      NothingMore(s);
      steps := [];
    } else {
      OneStep(s, Emit(reply));
      var rest := AnswerUpTo(After(s, Emit(reply)), id, reply);
      steps := [Emit(reply)] + rest;
      Follow(s, Emit(reply), rest);
    }
  }

  // ---- Any waiting call ----------------------------------------------------------

  lemma WaitingLine(s: System, call: CallId)
    requires Consistent(s) && call in s.calls && s.calls[call].phase.Waiting?
    ensures var id := s.calls[call].phase.id;
            id < |Lines(s.shared.driver.written)| && id < ParkedCount(|s.cmds|, Loose(s)) <= |s.owners|
            && s.owners[id] == call
  {
    hide Writable, PipeOk, EngineOk, WireOk, ServerOk, DeliveryOk, Seen, Lines;
    assert PhaseOk(call, s.calls[call], s.owners, s.lock, ParkedCount(|s.cmds|, Loose(s)), s.shared.driver.sent);
    WireLines(s.shared.driver.written, s.cmds, Loose(s));
    CallsSizes(s);
  }

  lemma SentByNow(s: System, id: CommandId)
    requires Consistent(s) && s.inHand == "" && s.pipe == "" && !s.reader.Stopped?
    requires id < |s.answers| && id < ParkedCount(|s.cmds|, Loose(s))
    ensures id < |s.shared.driver.sent| && id < |s.owners|
    ensures s.shared.driver.sent[id] == Delivery(s.owners[id], s.answers[id].result)
  {
    hide Writable, Lines, EventsOf, Notices, Scan;
    DeliveredByNow(s);
    CallsSizes(s);
  }

  /** With tmux's answer on its way or picked up by the reader, the call comes back. */
  lemma Collect(s: System, call: CallId) returns (steps: seq<Step>)
    requires Consistent(s) && s.reader.Running? && s.lock.None?
    requires call in s.calls && s.calls[call].phase.Waiting? && s.calls[call].phase.id < |s.answers|
    ensures Possible(s, steps) && call in Run(s, steps).calls
    ensures Run(s, steps).calls[call] == Call(s.calls[call].cmd, Returned(s.answers[s.calls[call].phase.id].result))
  {
    hide Consistent, Possible, Run, Writable, Lines;
    var id := s.calls[call].phase.id;
    var draining := Drain(s);
    var s1 := Run(s, draining);
    WaitingLine(s1, call);
    SentByNow(s1, id);
    OneStep(s1, Wake(call, id));
    steps := draining + [Wake(call, id)];
    RunAppend(s, draining, [Wake(call, id)]);
  }

  /** Any waiting call has a run in which it comes back with tmux's answer to its own line:
      the one tmux already gave, or else any reply tmux may choose to give. */
  lemma ReplyArrives(s: System, call: CallId, reply: Item) returns (steps: seq<Step>)
    requires Consistent(s) && s.reader.Running? && ReplyItem(reply)
    requires call in s.calls && s.calls[call].phase.Waiting?
    ensures Possible(s, steps) && call in Run(s, steps).calls
    ensures Run(s, steps).calls[call]
         == Call(s.calls[call].cmd, Returned(AnswerTo(s, s.calls[call].phase.id, reply)))
  {
    hide Consistent, Possible, Run, Writable, Lines, ResultOf;
    var id := s.calls[call].phase.id;
    var unlocking := Unlock(s);
    var s1 := Run(s, unlocking);
    WaitingLine(s1, call);
    var answering := AnswerUpTo(s1, id, reply);
    var s2 := Run(s1, answering);
    var collecting := Collect(s2, call);
    RunAppend(s1, answering, collecting);
    steps := unlocking + (answering + collecting);
    RunAppend(s, unlocking, answering + collecting);
  }

  // ---- Any new call --------------------------------------------------------------

  /** A caller that finds the client connected and unlocked gets through to waiting. */
  lemma Asks(s: System, call: CallId, cmd: string) returns (steps: seq<Step>)
    requires Consistent(s) && s.shared.connected && s.lock.None?
    requires call !in s.calls && cmd != "" && '\n' !in cmd
    ensures Possible(s, steps) && Consistent(Run(s, steps))
    ensures var s' := Run(s, steps);
            && call in s'.calls && s'.calls[call] == Call(cmd, Waiting(|s.owners|))
            && s'.reader == s.reader && s'.answers == s.answers
  {
    hide Consistent, Possible, Run, Writable, Lines, CommandLine, AfterRegister;
    IdsAreCounted(s);
    var s1 := Started(s, call, cmd);
    assert Holding(s1) == Some(Call(cmd, Writing(|s.owners|, 0)));
    OneStep(s, Start(call, cmd));
    var s2 := PutMore(s1, |cmd| + 1);
    assert Holding(s2) == Some(Call(cmd, Writing(|s.owners|, |cmd| + 1)));
    OneStep(s1, Put(|cmd| + 1));
    OneStep(s2, Park);
    Follow(s1, Put(|cmd| + 1), [Park]);
    steps := [Start(call, cmd)] + ([Put(|cmd| + 1)] + [Park]);
    Follow(s, Start(call, cmd), [Put(|cmd| + 1)] + [Park]);
  }

  lemma IdsAreCounted(s: System)
    requires Consistent(s)
    ensures s.shared.driver.engine.nextId == |s.owners|
  {
    hide Writable, PipeOk, WireOk, ServerOk, DeliveryOk, CallsOk, Seen, Lines;
  }

  lemma AnswersToOwners(s: System)
    requires Consistent(s)
    ensures |s.answers| <= |s.owners|
  {
    hide Writable, PipeOk, EngineOk, WireOk, ServerOk, DeliveryOk, Seen, Lines;
    Bounds(s, s.fed, s.inHand + s.pipe);
    CallsSizes(s);
  }

  /** From any state that is connected with the reader running, whoever holds the lock and
      whatever is unanswered or unread, any new command and any reply have a run in which
      the caller comes back with exactly tmux's outcome. */
  lemma CallSucceeds(s: System, call: CallId, cmd: string, reply: Item) returns (steps: seq<Step>)
    requires Consistent(s) && s.reader.Running? && s.shared.connected && ReplyItem(reply)
    requires call !in s.calls && cmd != "" && '\n' !in cmd
    ensures Possible(s, steps) && call in Run(s, steps).calls
    ensures Run(s, steps).calls[call] == Call(cmd, Returned(ResultOf(reply)))
  {
    hide Consistent, Possible, Run, Writable, ResultOf;
    var unlocking := Unlock(s);
    var s1 := Run(s, unlocking);
    var asking := Asks(s1, call, cmd);
    var s2 := Run(s1, asking);
    AnswersToOwners(s);
    var answering := ReplyArrives(s2, call, reply);
    RunAppend(s1, asking, answering);
    steps := unlocking + (asking + answering);
    RunAppend(s, unlocking, asking + answering);
  }
}
