/** What the layout parser accepts, exactly: the trees with non-empty splits no deeper
    than the bound, written with any number of leading zeros. */
module LayoutTheorems {
  import opened Text
  import opened Checksums
  import opened Layouts

  /** Nesting depth: a pane has none. */
  function Height(t: Layout): nat
    decreases t, 1
  {
    if t.Leaf? then 0 else 1 + HeightList(t.children)
  }

  function HeightList(ts: seq<Layout>): nat
    decreases ts, 0
  {
    if ts == [] then 0
    else
      var first, others := Height(ts[0]), HeightList(ts[1..]);
      if first > others then first else others
  }

  /** Every split has a child. */
  predicate Proper(t: Layout)
    decreases t, 1
  {
    t.Leaf? || (t.children != [] && ProperList(t.children))
  }

  predicate ProperList(ts: seq<Layout>)
    decreases ts, 0
  {
    ts == [] || (Proper(ts[0]) && ProperList(ts[1..]))
  }

  predicate FitsAt(t: Layout, depth: nat) { depth + Height(t) <= 128 }

  // ---- Regrouping concatenations -------------------------------------------------

  lemma CellGroup(w: string, h: string, x: string, y: string, rest: string)
    ensures (w + "x" + (h + "," + (x + "," + y))) + rest == w + ("x" + (h + ("," + (x + ("," + (y + rest))))))
  {
    var s4 := y + rest;
    ConcatAssoc(x + ",", y, rest);
    ConcatAssoc(x, ",", s4);
    ConcatAssoc(h + ",", x + "," + y, rest);
    ConcatAssoc(h, ",", x + ("," + s4));
    ConcatAssoc(w + "x", h + "," + (x + "," + y), rest);
    ConcatAssoc(w, "x", h + ("," + (x + ("," + s4))));
  }

  lemma NodeGroup(cell: string, open: string, body: string, close: string, rest: string)
    ensures (cell + open + (body + close)) + rest == cell + (open + (body + (close + rest)))
  {
    ConcatAssoc(cell + open, body + close, rest);
    ConcatAssoc(body, close, rest);
    ConcatAssoc(cell, open, body + (close + rest));
  }

  lemma ListGroup(first: string, sep: string, others: string, rest: string)
    ensures (first + sep + others) + rest == first + (sep + (others + rest))
  {
    ConcatAssoc(first + sep, others, rest);
    ConcatAssoc(first, sep, others + rest);
  }

  // ---- Printing then parsing -----------------------------------------------------

  lemma TakeDimensionOfDecimal(n: u16, rest: string)
    requires !StartsWithDigit(rest)
    ensures TakeDimension(Decimal(n) + rest)
         == if rest != "" && IsSeparator(rest[0]) then Dim(n, rest[1..], Some(rest[0])) else Dim(n, rest, None)
  {
    var s := Decimal(n) + rest;
    DigitRunAppend(Decimal(n), rest);
    ParseUintDecimal(n, U16_MAX);
    assert s[..|Decimal(n)|] == Decimal(n) && s[|Decimal(n)|..] == rest;
  }

  lemma TakeNumberOfDecimal(n: u16, delim: char, rest: string)
    requires IsSeparator(delim)
    ensures TakeNumber(Decimal(n) + ([delim] + rest), delim) == Ok(n, rest)
  {
    TakeDimensionOfDecimal(n, [delim] + rest);
    assert ([delim] + rest)[1..] == rest;
  }

  lemma TakeCellOfCell(t: Layout, sep: char, rest: string)
    requires IsSeparator(sep)
    ensures TakeCell(Cell(t) + ([sep] + rest)) == Ok(CellHead(t.w, t.h, t.x, t.y, Some(sep)), rest)
  {
    var s4 := [sep] + rest;
    var s3 := Decimal(t.y) + s4;
    var s2 := Decimal(t.x) + ("," + s3);
    var s1 := Decimal(t.h) + ("," + s2);
    CellGroup(Decimal(t.w), Decimal(t.h), Decimal(t.x), Decimal(t.y), s4);
    TakeNumberOfDecimal(t.w, 'x', s1);
    TakeNumberOfDecimal(t.h, ',', s2);
    TakeNumberOfDecimal(t.x, ',', s3);
    TakeDimensionOfDecimal(t.y, s4);
    assert s4[1..] == rest;
  }

  lemma TakePaneOfDecimal(n: u32, rest: string)
    requires !StartsWithDigit(rest)
    ensures TakePane(Decimal(n) + rest) == Ok(n, rest)
  {
    var s := Decimal(n) + rest;
    DigitRunAppend(Decimal(n), rest);
    ParseUintDecimal(n, U32_MAX);
    assert s[..|Decimal(n)|] == Decimal(n) && s[|Decimal(n)|..] == rest;
  }

  /** A printed tree parses back to itself, and leaves what follows it, exactly when it
      fits under the depth bound; otherwise the parser says it is too deep. */
  lemma {:induction false} RoundTrip(t: Layout, rest: string, depth: nat)
    requires Proper(t)
    requires t.Leaf? ==> !StartsWithDigit(rest)
    ensures ParseNode(Render(t) + rest, depth) == if FitsAt(t, depth) then Ok(t, rest) else Err(TooDeep)
    decreases t, 2
  {
    if depth <= 128 {
      var (sep, body) := SepAndBody(t, rest);
      RenderSepAndBody(t, rest);
      TakeCellOfCell(t, sep, body);
      RoundTripBody(t, rest, depth);
    }
  }

  /** What `Render(t) + rest` has after the cell: a separator, and the rest. */
  function SepAndBody(t: Layout, rest: string): (char, string) {
    match t
    case Leaf(_, _, _, _, pane) => (',', Decimal(pane) + rest)
    case SplitH(_, _, _, _, children) => ('{', RenderList(children) + ("}" + rest))
    case SplitV(_, _, _, _, children) => ('[', RenderList(children) + ("]" + rest))
  }

  lemma RenderSepAndBody(t: Layout, rest: string)
    ensures Render(t) + rest == Cell(t) + ([SepAndBody(t, rest).0] + SepAndBody(t, rest).1)
  {
    match t {
      case Leaf(_, _, _, _, pane) => ListGroup(Cell(t), ",", Decimal(pane), rest);
      case SplitH(_, _, _, _, children) => NodeGroup(Cell(t), "{", RenderList(children), "}", rest);
      case SplitV(_, _, _, _, children) => NodeGroup(Cell(t), "[", RenderList(children), "]", rest);
    }
  }

  lemma {:induction false} RoundTripBody(t: Layout, rest: string, depth: nat)
    requires Proper(t) && depth <= 128
    requires t.Leaf? ==> !StartsWithDigit(rest)
    ensures ParseBody(CellHead(t.w, t.h, t.x, t.y, Some(SepAndBody(t, rest).0)), SepAndBody(t, rest).1, depth)
         == if FitsAt(t, depth) then Ok(t, rest) else Err(TooDeep)
    decreases t, 1
  {
    match t {
      case Leaf(_, _, _, _, pane) => TakePaneOfDecimal(pane, rest);
      case SplitH(_, _, _, _, children) => RoundTripList(children, '}', rest, depth + 1);
      case SplitV(_, _, _, _, children) => RoundTripList(children, ']', rest, depth + 1);
    }
  }

  lemma {:induction false} RoundTripList(ts: seq<Layout>, close: char, rest: string, depth: nat)
    requires ts != [] && ProperList(ts)
    requires close == '}' || close == ']'
    ensures ParseChildren(RenderList(ts) + ([close] + rest), close, depth)
         == if depth + HeightList(ts) <= 128 then Ok(ts, rest) else Err(TooDeep)
    decreases ts, 0
  {
    var closing := [close] + rest;
    var s := RenderList(ts) + closing;
    HeadTail(ts);
    if |ts| == 1 {
      assert ts[1..] == [] && ts == [ts[0]];
      RoundTrip(ts[0], closing, depth);
      OnlyChild(s, ts[0], close, rest, depth);
    } else {
      var more := RenderList(ts[1..]) + closing;
      ListGroup(Render(ts[0]), ",", RenderList(ts[1..]), closing);
      assert s == Render(ts[0]) + ("," + more);
      RoundTrip(ts[0], "," + more, depth);
      FirstChild(s, ts[0], more, close, depth);
      RoundTripList(ts[1..], close, rest, depth);
    }
  }

  lemma OnlyChild(s: string, child: Layout, close: char, rest: string, depth: nat)
    ensures ParseNode(s, depth) == Ok(child, [close] + rest) ==>
            ParseChildren(s, close, depth) == Ok([child], rest)
    ensures ParseNode(s, depth).Err? ==> ParseChildren(s, close, depth) == Err(ParseNode(s, depth).error)
  {
    SiblingsAtEnd(child, close, rest, depth);
  }

  lemma FirstChild(s: string, child: Layout, more: string, close: char, depth: nat)
    requires close == '}' || close == ']'
    ensures ParseNode(s, depth) == Ok(child, "," + more) ==>
            ParseChildren(s, close, depth) == Prepend([child], ParseChildren(more, close, depth))
    ensures ParseNode(s, depth).Err? ==> ParseChildren(s, close, depth) == Err(ParseNode(s, depth).error)
  {
    SiblingsAfterComma(child, more, close, depth);
  }

  lemma SiblingsAtEnd(child: Layout, close: char, rest: string, depth: nat)
    ensures ParseSiblings(child, [close] + rest, close, depth) == Ok([child], rest)
  {
    TailOfCons(close, rest);
  }

  lemma SiblingsAfterComma(child: Layout, more: string, close: char, depth: nat)
    requires close == '}' || close == ']'
    ensures ParseSiblings(child, "," + more, close, depth) == Prepend([child], ParseChildren(more, close, depth))
  {
    TailOfCons(',', more);
  }

  // ---- Leading zeros -------------------------------------------------------------

  /** Every maximal digit run rewritten as the decimal form of its value. */
  function Canonical(s: string): (c: string)
    ensures StartsWithDigit(c) <==> StartsWithDigit(s)
    decreases |s|
  {
    if s == "" then ""
    else if !IsDigit(s[0]) then [s[0]] + Canonical(s[1..])
    else
      var n := DigitRun(s);
      Decimal(Value(s[..n])) + Canonical(s[n..])
  }

  lemma CanonicalOfRun(ds: string, rest: string)
    requires ds != "" && AllDigits(ds) && !StartsWithDigit(rest)
    ensures Canonical(ds + rest) == Decimal(Value(ds)) + Canonical(rest)
  {
    var s := ds + rest;
    DigitRunAppend(ds, rest);
    assert s[..|ds|] == ds && s[|ds|..] == rest;
  }

  lemma CanonicalOfChar(c: char, rest: string)
    requires !IsDigit(c)
    ensures Canonical([c] + rest) == [c] + Canonical(rest)
  {
    assert ([c] + rest)[1..] == rest;
  }

  /** The number at the front of `s`: its value, what follows, and its canonical form. */
  lemma CanonicalFront(s: string) returns (ds: string, rest: string)
    requires StartsWithDigit(s)
    ensures s == ds + rest && ds != "" && AllDigits(ds) && !StartsWithDigit(rest) && DigitRun(s) == |ds|
    ensures s[..|ds|] == ds && s[|ds|..] == rest
    ensures Canonical(s) == Decimal(Value(ds)) + Canonical(rest)
    ensures DigitRun(Canonical(s)) == |Decimal(Value(ds))|
    ensures Canonical(s)[..DigitRun(Canonical(s))] == Decimal(Value(ds))
    ensures Canonical(s)[DigitRun(Canonical(s))..] == Canonical(rest)
  {
    var n := DigitRun(s);
    ds, rest := s[..n], s[n..];
    CanonicalOfRun(ds, rest);
    DigitRunAppend(Decimal(Value(ds)), Canonical(rest));
  }

  /** Canonical text is its own canonical form. */
  lemma {:induction false} CanonicalIdempotent(s: string)
    ensures Canonical(Canonical(s)) == Canonical(s)
    decreases |s|
  {
    if StartsWithDigit(s) {
      var ds, rest := CanonicalFront(s);
      CanonicalIdempotent(rest);
      CanonicalOfRun(Decimal(Value(ds)), Canonical(rest));
    } else if s != "" {
      CanonicalIdempotent(s[1..]);
      CanonicalOfChar(s[0], Canonical(s[1..]));
    }
  }

  /** A parse result with the left-over input made canonical. */
  function CanonicalRest<T>(p: Parsed<T>): Parsed<T> {
    match p
    case Err(e) => Err(e)
    case Ok(value, rest) => Ok(value, Canonical(rest))
  }

  lemma TakeDimensionCanonical(s: string)
    ensures TakeDimension(Canonical(s)) ==
            match TakeDimension(s)
            case DimErr(e) => DimErr(e)
            case Dim(value, rest, sep) => Dim(value, Canonical(rest), sep)
  {
    if StartsWithDigit(s) {
      var ds, rest := CanonicalFront(s);
      if rest != "" {
        CanonicalOfChar(rest[0], rest[1..]);
        assert rest == [rest[0]] + rest[1..];
        assert Canonical(rest)[1..] == Canonical(rest[1..]);
      }
    }
  }

  lemma TakeNumberCanonical(s: string, delim: char)
    ensures TakeNumber(Canonical(s), delim) == CanonicalRest(TakeNumber(s, delim))
  {
    TakeDimensionCanonical(s);
  }

  lemma TakePaneCanonical(s: string)
    ensures TakePane(Canonical(s)) == CanonicalRest(TakePane(s))
  {
    if StartsWithDigit(s) {
      var ds, rest := CanonicalFront(s);
    }
  }

  lemma TakeCellCanonical(s: string)
    ensures TakeCell(Canonical(s)) == CanonicalRest(TakeCell(s))
  {
    TakeNumberCanonical(s, 'x');
    var p1 := TakeNumber(s, 'x');
    if p1.Ok? {
      TakeNumberCanonical(p1.rest, ',');
      var p2 := TakeNumber(p1.rest, ',');
      if p2.Ok? {
        TakeNumberCanonical(p2.rest, ',');
        var p3 := TakeNumber(p2.rest, ',');
        if p3.Ok? {
          TakeDimensionCanonical(p3.rest);
        }
      }
    }
  }

  /** Leading zeros change neither the tree nor the error. */
  lemma {:induction false} ParseNodeCanonical(s: string, depth: nat)
    ensures ParseNode(Canonical(s), depth) == CanonicalRest(ParseNode(s, depth))
    decreases |s|, 1
  {
    if depth <= 128 {
      TakeCellCanonical(s);
      var cell := TakeCell(s);
      if cell.Ok? {
        ParseBodyCanonical(cell.value, cell.rest, depth);
      }
    }
  }

  lemma {:induction false} ParseBodyCanonical(cell: CellHead, s: string, depth: nat)
    ensures ParseBody(cell, Canonical(s), depth) == CanonicalRest(ParseBody(cell, s, depth))
    decreases |s|, 3
  {
    if cell.sep == Some('{') {
      ParseChildrenCanonical(s, '}', depth + 1);
    } else if cell.sep == Some('[') {
      ParseChildrenCanonical(s, ']', depth + 1);
    } else if cell.sep == Some(',') {
      TakePaneCanonical(s);
    }
  }

  lemma {:induction false} ParseChildrenCanonical(s: string, close: char, depth: nat)
    requires close == '}' || close == ']'
    ensures ParseChildren(Canonical(s), close, depth) == CanonicalRest(ParseChildren(s, close, depth))
    decreases |s|, 2
  {
    ParseNodeCanonical(s, depth);
    var child := ParseNode(s, depth);
    if child.Ok? {
      ParseSiblingsCanonical(child.value, child.rest, close, depth);
    }
  }

  lemma {:induction false} ParseSiblingsCanonical(child: Layout, s: string, close: char, depth: nat)
    requires close == '}' || close == ']'
    ensures ParseSiblings(child, Canonical(s), close, depth) == CanonicalRest(ParseSiblings(child, s, close, depth))
    decreases |s|, 4
  {
    if s != "" && !IsDigit(s[0]) {
      assert Canonical(s)[1..] == Canonical(s[1..]);
      if s[0] == ',' {
        ParseChildrenCanonical(s[1..], close, depth);
      }
    }
  }

  // ---- Parsing then printing -----------------------------------------------------

  lemma CanonicalOfDimension(s: string)
    requires TakeDimension(s).Dim?
    ensures var d := TakeDimension(s);
            Canonical(s) == Decimal(d.value) + (match d.sep case None => "" case Some(c) => [c]) + Canonical(d.rest)
  {
    var ds, rest := CanonicalFront(s);
    if rest != "" && IsSeparator(rest[0]) {
      assert rest == [rest[0]] + rest[1..];
      CanonicalOfChar(rest[0], rest[1..]);
      ConcatAssoc(Decimal(Value(ds)), [rest[0]], Canonical(rest[1..]));
    } else {
      assert Decimal(Value(ds)) + "" == Decimal(Value(ds));
    }
  }

  lemma CanonicalOfNumber(s: string, delim: char)
    requires TakeNumber(s, delim).Ok?
    ensures var p := TakeNumber(s, delim);
            Canonical(s) == Decimal(p.value) + ([delim] + Canonical(p.rest))
  {
    CanonicalOfDimension(s);
  }

  lemma CanonicalOfCell(s: string, t: Layout)
    requires TakeCell(s).Ok? && TakeCell(s).value.sep.Some?
    requires var cell := TakeCell(s).value;
             t.w == cell.w && t.h == cell.h && t.x == cell.x && t.y == cell.y
    ensures var p := TakeCell(s);
            Canonical(s) == Cell(t) + ([p.value.sep.value] + Canonical(p.rest))
  {
    CanonicalOfNumber(s, 'x');
    var p1 := TakeNumber(s, 'x');
    CanonicalOfNumber(p1.rest, ',');
    var p2 := TakeNumber(p1.rest, ',');
    CanonicalOfNumber(p2.rest, ',');
    var p3 := TakeNumber(p2.rest, ',');
    CanonicalOfDimension(p3.rest);
    var d := TakeDimension(p3.rest);
    var s4 := [d.sep.value] + Canonical(d.rest);
    ConcatAssoc(Decimal(t.y), [d.sep.value], Canonical(d.rest));
    CellGroup(Decimal(t.w), Decimal(t.h), Decimal(t.x), Decimal(t.y), s4);
  }

  /** Whatever the parser accepts is, up to leading zeros, the print of the tree it
      returns; the tree has no empty split and fits under the bound. */
  lemma {:induction false} Soundness(s: string, depth: nat)
    requires ParseNode(s, depth).Ok?
    ensures var p := ParseNode(s, depth);
            && Canonical(s) == Render(p.value) + Canonical(p.rest)
            && Proper(p.value) && FitsAt(p.value, depth)
            && (p.value.Leaf? ==> !StartsWithDigit(p.rest))
    decreases |s|, 1
  {
    var p, cell := ParseNode(s, depth), TakeCell(s);
    SoundnessBody(cell.value, cell.rest, depth);
    CanonicalOfCell(s, p.value);
    RenderSepAndBody(p.value, Canonical(p.rest));
  }

  lemma {:induction false} SoundnessBody(cell: CellHead, s: string, depth: nat)
    requires depth <= 128 && ParseBody(cell, s, depth).Ok?
    ensures var p := ParseBody(cell, s, depth);
            && cell == CellHead(p.value.w, p.value.h, p.value.x, p.value.y, Some(SepAndBody(p.value, "").0))
            && Canonical(s) == SepAndBody(p.value, Canonical(p.rest)).1
            && Proper(p.value) && FitsAt(p.value, depth)
            && (p.value.Leaf? ==> !StartsWithDigit(p.rest))
    decreases |s|, 3
  {
    if cell.sep == Some('{') {
      SoundnessList(s, '}', depth + 1);
    } else if cell.sep == Some('[') {
      SoundnessList(s, ']', depth + 1);
    } else {
      var ds, rest := CanonicalFront(s);
    }
  }

  lemma {:induction false} SoundnessList(s: string, close: char, depth: nat)
    requires close == '}' || close == ']'
    requires ParseChildren(s, close, depth).Ok?
    ensures var p := ParseChildren(s, close, depth);
            && Canonical(s) == RenderList(p.value) + ([close] + Canonical(p.rest))
            && p.value != [] && ProperList(p.value) && depth + HeightList(p.value) <= 128
    decreases |s|, 2
  {
    Soundness(s, depth);
    var child := ParseNode(s, depth);
    SoundnessSiblings(child.value, child.rest, close, depth);
  }

  lemma {:induction false} SoundnessSiblings(child: Layout, s: string, close: char, depth: nat)
    requires close == '}' || close == ']'
    requires Proper(child) && FitsAt(child, depth)
    requires ParseSiblings(child, s, close, depth).Ok?
    ensures var p := ParseSiblings(child, s, close, depth);
            && Render(child) + Canonical(s) == RenderList(p.value) + ([close] + Canonical(p.rest))
            && p.value != [] && ProperList(p.value) && depth + HeightList(p.value) <= 128
    decreases |s|, 4
  {
    var rest := s[1..];
    assert Canonical(s) == [s[0]] + Canonical(rest);
    if s[0] == close {
      assert [child][1..] == [];
    } else {
      SoundnessList(rest, close, depth);
      var more := ParseChildren(rest, close, depth);
      assert ([child] + more.value)[1..] == more.value;
      ListGroup(Render(child), ",", RenderList(more.value), [close] + Canonical(more.rest));
    }
  }

  // ---- Main results --------------------------------------------------------------

  /** The trees the parser can return. */
  predicate Parsable(t: Layout) { Proper(t) && Height(t) <= 128 }

  /** Exactly what a bare tree string parses to: `t` if and only if `t` is parsable and
      the string is its print up to leading zeros. */
  lemma {:induction false} ParseTreeExactly(body: string, t: Layout)
    ensures ParseTree(body) == Success(t) <==> Parsable(t) && Canonical(body) == Render(t)
  {
    if ParseTree(body) == Success(t) {
      Soundness(body, 0);
      assert Render(t) + "" == Render(t);
    }
    if Parsable(t) && Canonical(body) == Render(t) {
      RoundTrip(t, "", 0);
      assert Render(t) + "" == Render(t);
      ParseNodeCanonical(body, 0);
    }
  }

  /** A checksum of four hexadecimal digits in front, and it is that of the rest. */
  predicate Checksummed(s: string) {
    && |s| >= 5 && s[4] == ',' && (forall k :: 0 <= k < 4 ==> IsHexDigit(s[k]))
    && HexValue(s[..4]) == Checksum(s[5..])
  }

  /** What is split off as a checksum. */
  lemma SplitChecksumIs(s: string)
    ensures var hex := |s| >= 5 && s[4] == ',' && forall k :: 0 <= k < 4 ==> IsHexDigit(s[k]);
            SplitChecksum(s) == if hex then (Some(HexValue(s[..4])), s[5..]) else (None, s)
  {
    hide HexValue;
    if |s| >= 5 && s[4] == ',' && forall k :: 0 <= k < 4 ==> IsHexDigit(s[k]) {
      assert s == s[..4] + "," + s[5..];
      IndexOfAppend(s[..4], ',', s[5..]);
      HexValueBound(s[..4]);
    } else if IndexOf(s, ',') == 4 < |s| {
      assert exists k :: 0 <= k < 4 && !IsHexDigit(s[k]);
      assert forall k :: 0 <= k < 4 ==> s[..4][k] == s[k];
    }
  }

  /** A tree starts with a number and an `x`, so it never looks like a checksum. */
  lemma TreeIsNotChecksummed(s: string)
    requires ParseTree(s).Success?
    ensures SplitChecksum(s) == (None, s)
  {
    hide HexValue, ParseTree, DigitRun;
    SplitChecksumIs(s);
    TreeStart(s);
    NumberIsNotChecksum(s, DigitRun(s));
  }

  lemma TreeStart(s: string)
    requires ParseTree(s).Success?
    ensures DigitRun(s) < |s| && s[DigitRun(s)] == 'x'
  {
    hide ParseBody, TakePane, TakeDimension, Value, DigitRun;
    NumberStart(s);
  }

  lemma NumberStart(s: string)
    requires TakeNumber(s, 'x').Ok?
    ensures DigitRun(s) < |s| && s[DigitRun(s)] == 'x'
  {
    hide DigitRun, ParseUint;
  }

  lemma NumberIsNotChecksum(s: string, n: nat)
    requires n < |s| && s[n] == 'x' && AllDigits(s[..n])
    ensures !(|s| >= 5 && s[4] == ',' && forall k :: 0 <= k < 4 ==> IsHexDigit(s[k]))
  {
    assert n < 4 ==> !IsHexDigit(s[n]);
    assert forall k :: 0 <= k < n ==> IsDigit(s[..n][k]) && s[k] == s[..n][k];
  }

  /** The same for a whole layout string: it is a bare tree, or one behind its checksum. */
  lemma {:induction false} ParseExactly(s: string, t: Layout)
    ensures Parse(s) == Success(t) <==>
            Parsable(t) && (Canonical(s) == Render(t) || (Checksummed(s) && Canonical(s[5..]) == Render(t)))
  {
    hide ParseTree, Parsable, Canonical, Render, HexValue, Checksum;
    SplitChecksumIs(s);
    ParseTreeExactly(s, t);
    if ParseTree(s) == Success(t) {
      TreeIsNotChecksummed(s);
    }
    if |s| >= 5 {
      ParseTreeExactly(s[5..], t);
    }
  }

  lemma SplitChecksumOfRender(t: Layout)
    ensures SplitChecksum(Render(t)) == (None, Render(t))
  {
    var head := Decimal(t.w) + "x" + Decimal(t.h);
    DecimalLacks(t.w, ',');
    DecimalLacks(t.h, ',');
    var (sep, rest) := SepAndBody(t, "");
    var body := [sep] + rest;
    var tail := Decimal(t.x) + ("," + (Decimal(t.y) + body));
    RenderSepAndBody(t, "");
    assert Render(t) + "" == Render(t);
    CellGroup(Decimal(t.w), Decimal(t.h), Decimal(t.x), Decimal(t.y), body);
    ConcatAssoc(Decimal(t.w), "x", Decimal(t.h) + ("," + tail));
    ListGroup(Decimal(t.w) + "x", Decimal(t.h), ",", tail);
    assert head[|Decimal(t.w)|] == 'x';
    SplitOnceAppend(head, ',', tail);
  }

  lemma SplitChecksumOfFull(sum: u16, body: string)
    ensures SplitChecksum(Hex4(sum) + "," + body) == (Some(sum), body)
  {
    SplitOnceAppend(Hex4(sum), ',', body);
    HexValueOfHex4(sum);
  }

  /** Both printed forms parse back to the tree, exactly when the tree is parsable. */
  lemma {:induction false} ParseOfPrinted(t: Layout)
    ensures Parse(Render(t)) == Success(t) <==> Parsable(t)
    ensures Parse(ToLayoutString(t)) == Success(t) <==> Parsable(t)
    ensures Proper(t) && !Parsable(t) ==> Parse(Render(t)) == Parse(ToLayoutString(t)) == Failure(TooDeep)
  {
    SplitChecksumOfRender(t);
    SplitChecksumOfFull(Checksum(Render(t)), Render(t));
    ParseTreeExactly(Render(t), t);
    if Proper(t) {
      RoundTrip(t, "", 0);
      assert Render(t) + "" == Render(t);
      if Parsable(t) {
        assert ParseTree(Render(t)) == Success(t);
      }
    }
  }

  /** A split with no children prints, but no layout string parses to it. */
  lemma {:induction false} EmptySplitNeverParses(s: string, w: u16, h: u16, x: u16, y: u16)
    ensures Parse(s) != Success(SplitH(w, h, x, y, []))
    ensures Parse(s) != Success(SplitV(w, h, x, y, []))
  {
    ParseExactly(s, SplitH(w, h, x, y, []));
    ParseExactly(s, SplitV(w, h, x, y, []));
  }

  /** Printing what was parsed and parsing again changes nothing. */
  lemma {:induction false} ParseRenderParse(s: string)
    ensures Parse(s).Success? ==> Parse(Render(Parse(s).value)) == Parse(ToLayoutString(Parse(s).value)) == Parse(s)
  {
    if Parse(s).Success? {
      ParseExactly(s, Parse(s).value);
      ParseOfPrinted(Parse(s).value);
    }
  }

  /** Alter any one byte of the body of a checksummed layout string: it is rejected. */
  lemma {:induction false} CorruptedBodyRejected(body: seq<byte>, k: nat, b: byte)
    requires k < |body| && body[k] != b
    ensures Parse(Hex4(Checksum(body)) + "," + body[k := b]) == Failure(ChecksumMismatch)
  {
    SingleByteChangeDetected(body, k, b);
    SplitChecksumOfFull(Checksum(body), body[k := b]);
  }

  predicate LayoutChar(c: char) {
    IsDigit(c) || c == 'x' || c == ',' || c == '{' || c == '}' || c == '[' || c == ']'
  }

  /** A printed tree uses only digits and the seven separators: no space, no newline. */
  lemma {:induction false} RenderChars(t: Layout)
    ensures forall k :: 0 <= k < |Render(t)| ==> LayoutChar(Render(t)[k])
    decreases t, 1
  {
    if !t.Leaf? {
      RenderListChars(t.children);
    }
  }

  lemma {:induction false} RenderListChars(ts: seq<Layout>)
    ensures forall k :: 0 <= k < |RenderList(ts)| ==> LayoutChar(RenderList(ts)[k])
    decreases ts, 0
  {
    if ts != [] {
      RenderChars(ts[0]);
      RenderListChars(ts[1..]);
    }
  }

  lemma ToLayoutStringLacks(t: Layout, c: char)
    requires c == ' ' || c == '\n'
    ensures c !in ToLayoutString(t)
  {
    RenderChars(t);
  }

  // ---- The wire format, spelled out ----------------------------------------------

  lemma Digit(n: nat)
    requires n < 10
    ensures Decimal(n) == ['0' + n as char]
  {
  }

  lemma ReferenceLeaf()
    ensures Render(Leaf(5, 6, 7, 8, 9)) == "5x6,7,8,9"
  {
    Digit(5);
    Digit(6);
    Digit(7);
    Digit(8);
    Digit(9);
  }

  /** A left-right split is in braces, a top-bottom one in brackets; width comes before
      height and column before row. */
  lemma ReferenceSplits()
    ensures Render(SplitH(1, 2, 3, 4, [Leaf(5, 6, 7, 8, 9)])) == "1x2,3,4{" + "5x6,7,8,9" + "}"
    ensures Render(SplitV(1, 2, 3, 4, [Leaf(5, 6, 7, 8, 9), Leaf(5, 6, 7, 8, 9)]))
         == "1x2,3,4[" + ("5x6,7,8,9" + "," + "5x6,7,8,9") + "]"
  {
    var leaf := Leaf(5, 6, 7, 8, 9);
    ReferenceLeaf();
    Digit(1);
    Digit(2);
    Digit(3);
    Digit(4);
    assert [leaf, leaf][1..] == [leaf];
    assert RenderList([leaf, leaf]) == Render(leaf) + "," + RenderList([leaf]);
    hide Decimal;
    assert Cell(SplitH(1, 2, 3, 4, [leaf])) == "1x2,3,4" && Cell(SplitV(1, 2, 3, 4, [leaf, leaf])) == "1x2,3,4";
  }
}
