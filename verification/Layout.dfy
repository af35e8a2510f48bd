/** tmux window-layout strings: the tree, the printer and the depth-bounded parser. */
module Layouts {
  import opened Text
  import opened Checksums

  datatype Layout =
    | Leaf(w: u16, h: u16, x: u16, y: u16, pane: u32)
    | SplitH(w: u16, h: u16, x: u16, y: u16, children: seq<Layout>)
    | SplitV(w: u16, h: u16, x: u16, y: u16, children: seq<Layout>)

  datatype LayoutError =
    | ChecksumMismatch
    | TrailingInput
    | TooDeep
    | ExpectedNumber
    | NumberOutOfRange
    | ExpectedDelimiter
    | ExpectedPaneOrSplit
    | ExpectedPane
    | PaneOutOfRange
    | ExpectedSeparator
    | UnterminatedSplit

  datatype Result<+T> = Success(value: T) | Failure(error: LayoutError)

  /** A parsed value with the input left over, or why there is none. */
  datatype Parsed<+T> = Ok(value: T, rest: string) | Err(error: LayoutError)

  const MAX_LAYOUT_DEPTH: nat := 128

  // ---- Printing ------------------------------------------------------------------

  function Cell(t: Layout): string {
    Decimal(t.w) + "x" + (Decimal(t.h) + "," + (Decimal(t.x) + "," + Decimal(t.y)))
  }

  /** The bare tree, as the wire carries it after the checksum. */
  function Render(t: Layout): string
    decreases t, 1
  {
    match t
    case Leaf(_, _, _, _, pane) => Cell(t) + "," + Decimal(pane)
    case SplitH(_, _, _, _, children) => Cell(t) + "{" + (RenderList(children) + "}")
    case SplitV(_, _, _, _, children) => Cell(t) + "[" + (RenderList(children) + "]")
  }

  /** Siblings, separated by commas. */
  function RenderList(ts: seq<Layout>): string
    decreases ts, 0
  {
    if ts == [] then ""
    else if |ts| == 1 then Render(ts[0])
    else Render(ts[0]) + "," + RenderList(ts[1..])
  }

  lemma {:induction false} RenderListSnoc(ts: seq<Layout>, t: Layout)
    ensures RenderList(ts + [t]) == (if ts == [] then "" else RenderList(ts) + ",") + Render(t)
  {
    if ts == [] {
      assert ts + [t] == [t];
    } else {
      assert (ts + [t])[1..] == ts[1..] + [t];
      RenderListSnoc(ts[1..], t);
      if |ts| > 1 {
        ConcatAssoc(Render(ts[0]) + ",", RenderList(ts[1..]) + ",", Render(t));
        ConcatAssoc(Render(ts[0]) + ",", RenderList(ts[1..]), ",");
      }
    }
  }

  method WriteTree(t: Layout, out: string) returns (written: string)
    ensures written == out + Render(t)
    decreases t, 1
  {
    written := out + Cell(t);
    match t {
      case Leaf(_, _, _, _, pane) =>
        ConcatAssoc(out, Cell(t) + ",", Decimal(pane));
        ConcatAssoc(out, Cell(t), ",");
        written := written + "," + Decimal(pane);
      case SplitH(_, _, _, _, children) =>
        ConcatAssoc(out, Cell(t) + "{", RenderList(children) + "}");
        ConcatAssoc(out, Cell(t), "{");
        written := WriteChildren(children, written, '{', '}');
      case SplitV(_, _, _, _, children) =>
        ConcatAssoc(out, Cell(t) + "[", RenderList(children) + "]");
        ConcatAssoc(out, Cell(t), "[");
        written := WriteChildren(children, written, '[', ']');
    }
  }

  method WriteChildren(children: seq<Layout>, out: string, open: char, close: char) returns (written: string)
    ensures written == out + [open] + (RenderList(children) + [close])
    decreases children, 0
  {
    written := out + [open];
    for i := 0 to |children|
      invariant written == out + [open] + RenderList(children[..i])
    {
      RenderListSnoc(children[..i], children[i]);
      assert children[..i + 1] == children[..i] + [children[i]];
      ghost var before := RenderList(children[..i]);
      ConcatAssoc(out + [open], before, ",");
      ConcatAssoc(out + [open], if i > 0 then before + "," else "", Render(children[i]));
      if i > 0 {
        written := written + ",";
      }
      written := WriteTree(children[i], written);
    }
    assert children[..|children|] == children;
    ConcatAssoc(out + [open], RenderList(children), [close]);
    written := written + [close];
  }

  /** The wire string: four hex digits of checksum, a comma, the tree. */
  function ToLayoutString(t: Layout): string {
    Hex4(Checksum(Render(t))) + "," + Render(t)
  }

  // ---- Parsing -------------------------------------------------------------------

  datatype Dimension = Dim(value: u16, rest: string, sep: Option<char>) | DimErr(error: LayoutError)

  predicate IsSeparator(c: char) { c == 'x' || c == ',' || c == '{' || c == '[' }

  /** Leading digits as a `u16`, and the separator after them (consumed when it is one). */
  function TakeDimension(s: string): (d: Dimension)
    ensures d.Dim? ==> |d.rest| < |s|
    ensures d.Dim? && d.sep.Some? ==> IsSeparator(d.sep.value)
    ensures d.Dim? && d.sep.None? ==> !StartsWithDigit(d.rest)
  {
    var end := DigitRun(s);
    if end == 0 then DimErr(ExpectedNumber)
    else
      match ParseUint(s[..end], U16_MAX)
      case None => DimErr(NumberOutOfRange)
      case Some(value) =>
        var rest := s[end..];
        if rest != "" && IsSeparator(rest[0]) then Dim(value, rest[1..], Some(rest[0]))
        else Dim(value, rest, None)
  }

  function TakeNumber(s: string, delim: char): (p: Parsed<u16>)
    ensures p.Ok? ==> |p.rest| < |s|
  {
    match TakeDimension(s)
    case DimErr(error) => Err(error)
    case Dim(value, rest, sep) => if sep == Some(delim) then Ok(value, rest) else Err(ExpectedDelimiter)
  }

  function TakePane(s: string): (p: Parsed<u32>)
    ensures p.Ok? ==> |p.rest| < |s|
  {
    var end := DigitRun(s);
    if end == 0 then Err(ExpectedPane)
    else
      match ParseUint(s[..end], U32_MAX)
      case None => Err(PaneOutOfRange)
      case Some(value) => Ok(value, s[end..])
  }

  datatype CellHead = CellHead(w: u16, h: u16, x: u16, y: u16, sep: Option<char>)

  /** `WxH,x,y` and whatever separator follows. */
  function TakeCell(s: string): (p: Parsed<CellHead>)
    ensures p.Ok? ==> |p.rest| < |s|
  {
    match TakeNumber(s, 'x')
    case Err(e) => Err(e)
    case Ok(w, s1) =>
      match TakeNumber(s1, ',')
      case Err(e) => Err(e)
      case Ok(h, s2) =>
        match TakeNumber(s2, ',')
        case Err(e) => Err(e)
        case Ok(x, s3) =>
          match TakeDimension(s3)
          case DimErr(e) => Err(e)
          case Dim(y, s4, sep) => Ok(CellHead(w, h, x, y, sep), s4)
  }

  function MakeSplitH(cell: CellHead, p: Parsed<seq<Layout>>): Parsed<Layout> {
    match p
    case Err(e) => Err(e)
    case Ok(children, rest) => Ok(SplitH(cell.w, cell.h, cell.x, cell.y, children), rest)
  }

  function MakeSplitV(cell: CellHead, p: Parsed<seq<Layout>>): Parsed<Layout> {
    match p
    case Err(e) => Err(e)
    case Ok(children, rest) => Ok(SplitV(cell.w, cell.h, cell.x, cell.y, children), rest)
  }

  function MakeLeaf(cell: CellHead, p: Parsed<u32>): Parsed<Layout> {
    match p
    case Err(e) => Err(e)
    case Ok(pane, rest) => Ok(Leaf(cell.w, cell.h, cell.x, cell.y, pane), rest)
  }

  /** `already` siblings, then the outcome of parsing the rest. */
  function Prepend(already: seq<Layout>, p: Parsed<seq<Layout>>): Parsed<seq<Layout>> {
    match p
    case Err(e) => Err(e)
    case Ok(children, rest) => Ok(already + children, rest)
  }

  /** One node, at nesting `depth`. */
  function ParseNode(s: string, depth: nat): (p: Parsed<Layout>)
    ensures p.Ok? ==> |p.rest| < |s|
    decreases |s|, 1
  {
    if depth > MAX_LAYOUT_DEPTH then Err(TooDeep)
    else
      match TakeCell(s)
      case Err(e) => Err(e)
      case Ok(cell, rest) => ParseBody(cell, rest, depth)
  }

  /** What follows a node's cell: its children or its pane. */
  function ParseBody(cell: CellHead, s: string, depth: nat): (p: Parsed<Layout>)
    ensures p.Ok? ==> |p.rest| < |s|
    decreases |s|, 3
  {
    if cell.sep == Some('{') then MakeSplitH(cell, ParseChildren(s, '}', depth + 1))
    else if cell.sep == Some('[') then MakeSplitV(cell, ParseChildren(s, ']', depth + 1))
    else if cell.sep == Some(',') then MakeLeaf(cell, TakePane(s))
    else Err(ExpectedPaneOrSplit)
  }

  /** Comma-separated siblings up to `close`. */
  function ParseChildren(s: string, close: char, depth: nat): (p: Parsed<seq<Layout>>)
    ensures p.Ok? ==> |p.rest| < |s|
    decreases |s|, 2
  {
    match ParseNode(s, depth)
    case Err(e) => Err(e)
    case Ok(child, rest) => ParseSiblings(child, rest, close, depth)
  }

  /** What follows a child: the closer, or a comma and more children. */
  function ParseSiblings(child: Layout, s: string, close: char, depth: nat): (p: Parsed<seq<Layout>>)
    ensures p.Ok? ==> |p.rest| < |s|
    decreases |s|, 4
  {
    if s == "" then Err(UnterminatedSplit)
    else if s[0] == close then Ok([child], s[1..])
    else if s[0] == ',' then Prepend([child], ParseChildren(s[1..], close, depth))
    else Err(ExpectedSeparator)
  }

  /** The recursive descent as the source runs it. */
  method RunParseNode(s: string, depth: nat) returns (p: Parsed<Layout>)
    ensures p == ParseNode(s, depth)
    decreases |s|, 0
  {
    if depth > MAX_LAYOUT_DEPTH {
      return Err(TooDeep);
    }
    var cell := TakeCell(s);
    if cell.Err? {
      return Err(cell.error);
    }
    if cell.value.sep == Some('{') {
      var children := RunParseChildren(cell.rest, '}', depth + 1);
      p := MakeSplitH(cell.value, children);
    } else if cell.value.sep == Some('[') {
      var children := RunParseChildren(cell.rest, ']', depth + 1);
      p := MakeSplitV(cell.value, children);
    } else if cell.value.sep == Some(',') {
      p := MakeLeaf(cell.value, TakePane(cell.rest));
    } else {
      p := Err(ExpectedPaneOrSplit);
    }
  }

  lemma PrependNothing(p: Parsed<seq<Layout>>)
    ensures Prepend([], p) == p
  {
    if p.Ok? {
      assert [] + p.value == p.value;
    }
  }

  lemma PrependOne(already: seq<Layout>, child: Layout, p: Parsed<seq<Layout>>)
    ensures Prepend(already, Prepend([child], p)) == Prepend(already + [child], p)
  {
    if p.Ok? {
      ConcatAssoc(already, [child], p.value);
    }
  }

  method RunParseChildren(s0: string, close: char, depth: nat) returns (p: Parsed<seq<Layout>>)
    ensures p == ParseChildren(s0, close, depth)
    decreases |s0|, 1
  {
    var s := s0;
    var children: seq<Layout> := [];
    PrependNothing(ParseChildren(s, close, depth));
    while true
      invariant |s| <= |s0|
      invariant ParseChildren(s0, close, depth) == Prepend(children, ParseChildren(s, close, depth))
      decreases |s|
    {
      ghost var already, tail := children, ParseChildren(s, close, depth);
      var child := RunParseNode(s, depth);
      if child.Err? {
        assert tail == Err(child.error);
        return Err(child.error);
      }
      children := children + [child.value];
      s := child.rest;
      if s == "" {
        assert tail == Err(UnterminatedSplit);
        return Err(UnterminatedSplit);
      } else if s[0] == close {
        assert tail == Ok([child.value], s[1..]);
        return Ok(children, s[1..]);
      } else if s[0] == ',' {
        PrependOne(already, child.value, ParseChildren(s[1..], close, depth));
        assert tail == Prepend([child.value], ParseChildren(s[1..], close, depth));
        s := s[1..];
      } else {
        assert tail == Err(ExpectedSeparator);
        return Err(ExpectedSeparator);
      }
    }
  }

  /** A leading checksum, if the text up to the first comma looks like one. */
  function SplitChecksum(s: string): (Option<u16>, string) {
    match SplitOnce(s, ',')
    case None => (None, s)
    case Some((head, tail)) =>
      if |head| == 4 && 'x' !in head && (forall k :: 0 <= k < |head| ==> IsHexDigit(head[k]))
      then HexValueBound(head); (Some(HexValue(head)), tail)
      else (None, s)
  }

  /** The tree alone: one node and nothing after it. */
  function ParseTree(body: string): Result<Layout> {
    match ParseNode(body, 0)
    case Err(e) => Failure(e)
    case Ok(t, rest) => if rest == "" then Success(t) else Failure(TrailingInput)
  }

  function Parse(s: string): Result<Layout> {
    var (expected, body) := SplitChecksum(s);
    if expected.Some? && expected.value != Checksum(body) then Failure(ChecksumMismatch) else ParseTree(body)
  }
}
