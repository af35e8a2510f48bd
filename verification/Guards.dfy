/** The guard lines: exactly which lines open and close blocks. */
module Guards {
  import opened Text
  import opened Notifications
  import opened Parsers

  /** What a guard of each kind starts with. */
  function Head(kind: GuardKind): string {
    match kind case Begin => "%begin " case End => "%end " case Error => "%error "
  }

  /** A guard is its head and exactly three tokens: any timestamp, the number, and a 32-bit
      number that is not 0 for the replies to our own commands. */
  predicate Spells(line: string, g: Guard, timestamp: string, number: string, flags: string, bits: u32) {
    && line == Head(g.kind) + (timestamp + " " + (number + " " + flags))
    && ' ' !in timestamp && ' ' !in number && ' ' !in flags
    && IsNumeral(number, g.number) && IsNumeral(flags, bits) && (g.control <==> bits != 0)
  }

  lemma JoinFour(a: string, b: string, c: string, d: string)
    ensures Join([a, b, c, d]) == a + " " + (b + " " + (c + " " + d))
  {
    JoinCons(c, [d]);
    JoinCons(b, [c, d]);
    JoinCons(a, [b, c, d]);
    assert [c] + [d] == [c, d] && [b] + [c, d] == [b, c, d] && [a] + [b, c, d] == [a, b, c, d];
    assert Join([d]) == d;
  }

  lemma HeadIs(kind: GuardKind, rest: string)
    ensures Head(kind) + rest == "%" + (GuardName(kind) + " " + rest)
    ensures GuardKindOf(GuardName(kind)) == Some(kind) && ' ' !in GuardName(kind)
  {
    match kind {
      case Begin => assert "%begin " == "%" + ("begin" + " ");
      case End => assert "%end " == "%" + ("end" + " ");
      case Error => assert "%error " == "%" + ("error" + " ");
    }
    assert Head(kind) == "%" + (GuardName(kind) + " ");
    ConcatAssoc("%", GuardName(kind) + " ", rest);
  }

  lemma KindIsName(name: string, kind: GuardKind)
    ensures GuardKindOf(name) == Some(kind) <==> name == GuardName(kind)
  {
  }

  /** A line with these tokens is the guard. */
  lemma SpelledParses(line: string, g: Guard, timestamp: string, number: string, flags: string, bits: u32)
    requires Spells(line, g, timestamp, number, flags, bits)
    ensures ParseGuard(line) == Some(g)
  {
    hide Split, Join, GuardName, GuardKindOf, Head, IsNumeral, ParseUint;
    var fields := [GuardName(g.kind), timestamp, number, flags];
    HeadIs(g.kind, timestamp + " " + (number + " " + flags));
    JoinFour(GuardName(g.kind), timestamp, number, flags);
    TailOfCons('%', Join(fields));
    SplitOfJoin(fields);
    ParseUintExactly(number, U64_MAX, g.number);
    ParseUintExactly(flags, U32_MAX, bits);
  }

  /** Only such a line is a guard. */
  lemma ParsedIsSpelled(line: string, g: Guard) returns (timestamp: string, number: string, flags: string, bits: u32)
    requires ParseGuard(line) == Some(g)
    ensures Spells(line, g, timestamp, number, flags, bits)
  {
    hide Split, Join, GuardName, GuardKindOf, Head, IsNumeral, ParseUint;
    var fields := Split(line[1..], ' ');
    JoinOfSplit(line[1..]);
    timestamp, number, flags := fields[1], fields[2], fields[3];
    bits := ParseUint(flags, U32_MAX).value;
    assert fields == [fields[0], timestamp, number, flags];
    KindIsName(fields[0], g.kind);
    JoinFour(fields[0], timestamp, number, flags);
    HeadIs(g.kind, timestamp + " " + (number + " " + flags));
    HeadTail(line);
    ParseUintExactly(number, U64_MAX, g.number);
    ParseUintExactly(flags, U32_MAX, bits);
  }

  /** Exactly which lines are guards, and which guard each is. */
  lemma {:induction false} ParseGuardExactly(line: string, g: Guard)
    ensures ParseGuard(line) == Some(g)
       <==> exists timestamp, number, flags, bits :: Spells(line, g, timestamp, number, flags, bits)
  {
    hide ParseGuard, Spells;
    if ParseGuard(line) == Some(g) {
      var timestamp, number, flags, bits := ParsedIsSpelled(line, g);
    }
    if timestamp, number, flags, bits :| Spells(line, g, timestamp, number, flags, bits) {
      SpelledParses(line, g, timestamp, number, flags, bits);
    }
  }
}
