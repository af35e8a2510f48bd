/** What goes out on every schedule besides the results: the bytes written to tmux, to the
    last one, and the notifications passed on. */
module DriverOutput {
  import opened Text
  import opened Notifications
  import opened Parsers
  import opened Engines
  import opened Streams
  import opened Drivers
  import opened DriverTheorems

  /** The first `n` characters, or all there are. */
  function First(s: string, n: nat): string { if n <= |s| then s[..n] else s }

  /** What a write of these bytes puts out. */
  function Out(bytes: string, write: Write): string {
    match write case Complete => bytes case Broken(put) => First(bytes, put)
  }

  lemma PutIsOut(cmd: string, write: Write)
    ensures PutOf(cmd, write) == Out(cmd + "\n", write)
  {
  }

  // ---- The reader's side ---------------------------------------------------------

  /** The notifications a stream holds for a reader in this state. */
  function NotesIn(e: EngineState, bytes: string): seq<Notification> {
    Notices(Scan(e.parser, Lines(e.buf + bytes)).events)
  }

  /** A chunk passes on exactly its notifications and writes nothing. */
  lemma ArrivedPasses(d: Driver, bytes: string)
    ensures var d' := Arrived(d, bytes);
            && d'.events == d.events + NotesIn(d.engine, bytes) && d'.written == d.written
            && d'.engine.parser == Scan(d.engine.parser, Lines(d.engine.buf + bytes)).parser
            && d'.engine.buf == Tail(d.engine.buf + bytes)
  {
    hide Scan, Lines, Tail, Notices, HandleAll, AfterLines, LastNumber, Bind, Resolutions, Notes, Outstanding, Controls;
    var lines := Lines(d.engine.buf + bytes);
    EngineIsScanThenBind(d.engine, lines);
    BindKeepsNotices(d.engine.pending, Scan(d.engine.parser, lines).events);
    var fed := AfterFeed(d.engine, bytes);
    HandledClosed(d.(engine := fed.engine), fed.out);
  }

  lemma ArrivedThenMore(d: Driver, bytes: string, more: string)
    ensures Arrived(d, bytes).events + NotesIn(Arrived(d, bytes).engine, more)
         == d.events + NotesIn(d.engine, bytes + more)
    ensures '\n' !in Arrived(d, bytes).engine.buf
  {
    hide Scan, Lines, Tail, Notices, Arrived;
    ArrivedPasses(d, bytes);
    ConcatAssoc(d.engine.buf, bytes, more);
    Text.LinesAppend(d.engine.buf + bytes, more);
    var lines, lines' := Lines(d.engine.buf + bytes), Lines(Tail(d.engine.buf + bytes) + more);
    ScanAppend(d.engine.parser, lines, lines');
    NoticesAppend(Scan(d.engine.parser, lines).events, Scan(Scan(d.engine.parser, lines).parser, lines').events);
  }

  lemma NothingMore(d: Driver)
    requires '\n' !in d.engine.buf
    ensures NotesIn(d.engine, "") == []
  {
    assert d.engine.buf + "" == d.engine.buf;
    IndexOfNone(d.engine.buf, '\n');
  }

  /** The end of a session passes nothing on and writes nothing. */
  lemma EndedPasses(d: Driver)
    ensures Ended(d).events == d.events && Ended(d).written == d.written
  {
    hide HandleAll;
    var ended := AfterEof(d.engine);
    HandledClosed(d.(engine := ended.engine), ended.out);
    NoNotes(d.engine.pending);
    assert d.events + [] == d.events;
  }

  lemma {:induction false} NoNotes(pending: seq<CommandId>)
    ensures Notes(Drained(pending)) == []
    decreases |pending|
  {
    if pending != [] {
      assert Drained(pending)[1..] == Drained(pending[1..]);
      NoNotes(pending[1..]);
    }
  }

  // ---- The actor -----------------------------------------------------------------

  /** The number of turns before the one that ends the loop. */
  function LoopEnd(turns: seq<Turn>): (n: nat)
    ensures n <= |turns|
    ensures forall k :: 0 <= k < n ==> !EndsLoop(turns[k])
    ensures n < |turns| ==> EndsLoop(turns[n])
  {
    if turns == [] || EndsLoop(turns[0]) then 0 else 1 + LoopEnd(turns[1..])
  }

  /** The command lines requested, in order. */
  function Requested(turns: seq<Turn>): seq<string> {
    if turns == [] then [] else (if turns[0].Request? then [turns[0].cmd] else []) + Requested(turns[1..])
  }

  /** The bytes read, in one piece. */
  function BytesRead(turns: seq<Turn>): string {
    if turns == [] then ""
    else (if turns[0].Read? && turns[0].result.Got? then turns[0].result.chunk else "") + BytesRead(turns[1..])
  }

  /** The part of a command line that a failed write put out, if one ends the loop. */
  function Torn(turns: seq<Turn>): string {
    var n := LoopEnd(turns);
    if n < |turns| && turns[n].Request? then Out(turns[n].cmd + "\n", turns[n].write) else ""
  }

  lemma OneTurn(turns: seq<Turn>)
    requires turns != [] && !EndsLoop(turns[0])
    ensures LoopEnd(turns) == LoopEnd(turns[1..]) + 1 && Torn(turns) == Torn(turns[1..])
    ensures turns[..LoopEnd(turns)] == [turns[0]] + turns[1..][..LoopEnd(turns[1..])]
    ensures turns[..LoopEnd(turns)][1..] == turns[1..][..LoopEnd(turns[1..])]
  {
    hide EndsLoop, Out;
    var n, later := LoopEnd(turns), turns[1..];
    assert n == LoopEnd(later) + 1;
    hide LoopEnd;
    PrefixOfCons(turns, n);
    assert n < |turns| ==> turns[n] == later[n - 1];
  }

  lemma PrefixOfCons<T>(s: seq<T>, n: nat)
    requires 0 < n <= |s|
    ensures s[..n] == [s[0]] + s[1..][..n - 1] && s[..n][1..] == s[1..][..n - 1]
  {
  }

  /** To tmux the actor writes a line for each request it takes up, then what a failed write
      put out if one ended its loop, then an empty line, however the loop ended. */
  lemma {:induction false} ActorWrites(d: Driver, turns: seq<Turn>, detach: Write)
    ensures ActorRun(d, turns, detach).written
         == d.written + (Unlines(Requested(turns[..LoopEnd(turns)])) + (Torn(turns) + Out("\n", detach)))
    decreases |turns|
  {
    hide Arrived, Ended, PutOf, Out, AfterRegister;
    var n := LoopEnd(turns);
    if n > 0 {
      OneTurn(turns);
      var turn, later := turns[0], turns[1..];
      var rest := Unlines(Requested(later[..n - 1]));
      var end := Torn(turns) + Out("\n", detach);
      match turn {
        case Request(call, cmd, write) =>
          PutIsOut(cmd, write);
          CompleteOut(cmd);
          ActorWrites(Asked(d, call, cmd, write), later, detach);
          UnlinesCons(cmd, Requested(later[..n - 1]));
          ConcatAssoc(d.written, cmd + "\n", rest + end);
          ConcatAssoc(cmd + "\n", rest, end);
        case Read(Got(chunk)) =>
          ArrivedPasses(d, chunk);
          ActorWrites(Arrived(d, chunk), later, detach);
          assert [] + Requested(later[..n - 1]) == Requested(later[..n - 1]);
      }
    } else {
      assert turns[..0] == [] && Unlines([]) == "";
      ActorStops(d, turns, detach);
      assert "" + (Torn(turns) + Out("\n", detach)) == Torn(turns) + Out("\n", detach);
    }
  }

  lemma CompleteOut(cmd: string)
    ensures Out(cmd + "\n", Complete) == cmd + "\n"
  {
  }

  lemma ActorStops(d: Driver, turns: seq<Turn>, detach: Write)
    requires LoopEnd(turns) == 0
    ensures ActorRun(d, turns, detach).written == d.written + (Torn(turns) + Out("\n", detach))
    ensures ActorRun(d, turns, detach).events == d.events
  {
    hide Ended, PutOf, Out, AfterRegister;
    PutIsOut("", detach);
    assert "" + "\n" == "\n";
    if turns != [] && turns[0].Request? {
      var Request(call, cmd, write) := turns[0];
      PutIsOut(cmd, write);
      var d' := Asked(d, call, cmd, write);
      var d'' := d'.(sent := d'.sent + [Delivery(call, Disconnected)]);
      EndedPasses(d''.(written := d''.written + PutOf("", detach)));
      ConcatAssoc(d.written, Torn(turns), Out("\n", detach));
    } else {
      EndedPasses(d.(written := d.written + PutOf("", detach)));
      assert "" + Out("\n", detach) == Out("\n", detach);
    }
  }

  /** And it passes on exactly the notifications in the bytes it read before its loop ended. */
  lemma {:induction false} ActorPasses(d: Driver, turns: seq<Turn>, detach: Write)
    requires '\n' !in d.engine.buf
    ensures ActorRun(d, turns, detach).events == d.events + NotesIn(d.engine, BytesRead(turns[..LoopEnd(turns)]))
    decreases |turns|
  {
    hide Arrived, Ended, PutOf, NotesIn, Out;
    var n := LoopEnd(turns);
    if n > 0 {
      OneTurn(turns);
      var turn, later := turns[0], turns[1..];
      var rest := BytesRead(later[..n - 1]);
      match turn {
        case Request(call, cmd, write) =>
          ActorPasses(Asked(d, call, cmd, write), later, detach);
          SameNotes(d, Asked(d, call, cmd, write), rest);
          assert "" + rest == rest;
        case Read(Got(chunk)) =>
          ArrivedThenMore(d, chunk, rest);
          ActorPasses(Arrived(d, chunk), later, detach);
      }
    } else {
      ActorStops(d, turns, detach);
      NothingMore(d);
      assert turns[..0] == [] && d.events + [] == d.events;
    }
  }

  lemma SameNotes(d: Driver, d': Driver, bytes: string)
    requires d'.engine.parser == d.engine.parser && d'.engine.buf == d.engine.buf
    ensures NotesIn(d'.engine, bytes) == NotesIn(d.engine, bytes)
  {
  }

  // ---- The lock-based client -----------------------------------------------------

  /** The number of events before the first failed write. */
  function WriteEnd(evs: seq<Ev>): (n: nat)
    ensures n <= |evs|
    ensures forall k :: 0 <= k < n ==> evs[k].Ask? ==> evs[k].write.Complete?
    ensures n < |evs| ==> evs[n].Ask? && evs[n].write.Broken?
  {
    if evs == [] || (evs[0].Ask? && evs[0].write.Broken?) then 0 else 1 + WriteEnd(evs[1..])
  }

  function Commands(evs: seq<Ev>): seq<string> {
    if evs == [] then [] else (if evs[0].Ask? then [evs[0].cmd] else []) + Commands(evs[1..])
  }

  function BytesArrived(evs: seq<Ev>): string {
    if evs == [] then "" else (if evs[0].Arrive? then evs[0].bytes else "") + BytesArrived(evs[1..])
  }

  function TornOff(evs: seq<Ev>): string {
    var n := WriteEnd(evs);
    if n < |evs| && evs[n].Ask? then Out(evs[n].cmd + "\n", evs[n].write) else ""
  }

  lemma OneEv(evs: seq<Ev>)
    requires evs != [] && !(evs[0].Ask? && evs[0].write.Broken?)
    ensures WriteEnd(evs) == WriteEnd(evs[1..]) + 1 && TornOff(evs) == TornOff(evs[1..])
    ensures evs[..WriteEnd(evs)] == [evs[0]] + evs[1..][..WriteEnd(evs[1..])]
    ensures evs[..WriteEnd(evs)][1..] == evs[1..][..WriteEnd(evs[1..])]
  {
    hide Out;
    var n, later := WriteEnd(evs), evs[1..];
    assert n == WriteEnd(later) + 1;
    hide WriteEnd;
    PrefixOfCons(evs, n);
    assert n < |evs| ==> evs[n] == later[n - 1];
  }

  /** A disconnected client refuses every call without writing a byte. */
  lemma {:induction false} RefusedWrites(s: SharedState, evs: seq<Ev>)
    requires !s.connected
    ensures BlockingRun(s, evs).driver.written == s.driver.written
    decreases |evs|
  {
    hide Arrived, Ended, Asked;
    if evs == [] {
      EndedPasses(s.driver);
    } else {
      match evs[0] {
        case Arrive(bytes) => ArrivedPasses(s.driver, bytes);
        case Ask(_, _, _) =>
      }
      RefusedWrites(AfterEv(s, evs[0]), evs[1..]);
    }
  }

  /** To tmux the client writes a line for each call up to the first failed write, what that
      one put out, and nothing any more. */
  lemma {:induction false} ClientWrites(s: SharedState, evs: seq<Ev>)
    requires s.connected
    ensures BlockingRun(s, evs).driver.written
         == s.driver.written + (Unlines(Commands(evs[..WriteEnd(evs)])) + TornOff(evs))
    decreases |evs|
  {
    hide Arrived, Ended, PutOf, Out, AfterRegister;
    var n := WriteEnd(evs);
    if n > 0 {
      OneEv(evs);
      var later := evs[1..];
      var rest := Unlines(Commands(later[..n - 1]));
      match evs[0] {
        case Ask(call, cmd, write) =>
          PutIsOut(cmd, write);
          CompleteOut(cmd);
          ClientWrites(AfterEv(s, evs[0]), later);
          UnlinesCons(cmd, Commands(later[..n - 1]));
          ConcatAssoc(s.driver.written, cmd + "\n", rest + TornOff(evs));
          ConcatAssoc(cmd + "\n", rest, TornOff(evs));
        case Arrive(bytes) =>
          ArrivedPasses(s.driver, bytes);
          ClientWrites(AfterEv(s, evs[0]), later);
          assert [] + Commands(later[..n - 1]) == Commands(later[..n - 1]);
      }
    } else {
      assert evs[..0] == [] && Unlines([]) == "" && "" + TornOff(evs) == TornOff(evs);
      if evs == [] {
        EndedPasses(s.driver);
        assert s.driver.written + "" == s.driver.written;
      } else {
        PutIsOut(evs[0].cmd, evs[0].write);
        RefusedWrites(AfterEv(s, evs[0]), evs[1..]);
      }
    }
  }

  /** The client passes on exactly the notifications in all the bytes that arrived, those
      after a failed write included. */
  lemma {:induction false} ClientPasses(s: SharedState, evs: seq<Ev>)
    requires '\n' !in s.driver.engine.buf
    ensures BlockingRun(s, evs).driver.events == s.driver.events + NotesIn(s.driver.engine, BytesArrived(evs))
    decreases |evs|
  {
    hide Arrived, Ended, PutOf, NotesIn;
    if evs == [] {
      EndedPasses(s.driver);
      NothingMore(s.driver);
      assert s.driver.events + [] == s.driver.events;
    } else {
      var rest := BytesArrived(evs[1..]);
      match evs[0] {
        case Arrive(bytes) => ArrivedThenMore(s.driver, bytes, rest);
        case Ask(call, cmd, write) =>
          SameNotes(s.driver, AfterEv(s, evs[0]).driver, rest);
          assert "" + rest == rest;
      }
      ClientPasses(AfterEv(s, evs[0]), evs[1..]);
    }
  }
}
