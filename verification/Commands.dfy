/** The typed commands: the lines they put on the wire, and reading them back. */
module Commands {
  import opened Text
  import opened Layouts
  import opened LayoutTheorems
  import opened Notifications
  import opened NotificationTheorems
  import opened Engines
  import opened Drivers
  import opened Systems
  import opened SystemInvariant
  import opened SystemTheorems

  /** ` xx` for each byte. */
  function KeyTokens(keys: seq<byte>): string {
    if keys == [] then "" else " " + Hex2(keys[0]) + KeyTokens(keys[1..])
  }

  function SendKeys(pane: u32, keys: seq<byte>): string {
    "send-keys -t " + Id('%', pane) + " -H" + KeyTokens(keys)
  }

  method FormatSendKeys(pane: u32, keys: seq<byte>) returns (cmd: string)
    ensures cmd == SendKeys(pane, keys)
  {
    cmd := "send-keys -t " + Id('%', pane) + " -H";
    for k := 0 to |keys|
      invariant cmd + KeyTokens(keys[k..]) == SendKeys(pane, keys)
    {
      assert keys[k..][1..] == keys[k + 1..];
      ConcatAssoc(cmd, " " + Hex2(keys[k]), KeyTokens(keys[k + 1..]));
      cmd := cmd + (" " + Hex2(keys[k]));
    }
    assert cmd + "" == cmd;
  }

  function Resize(cols: u16, rows: u16): string {
    "refresh-client -C " + (Decimal(cols) + "x" + Decimal(rows))
  }

  function ResizeWindow(window: u32, cols: u16, rows: u16): string {
    "resize-window -t " + Id('@', window) + " -x " + Decimal(cols) + " -y " + Decimal(rows)
  }

  function SelectLayout(window: u32, layout: Layout): string {
    "select-layout -t " + Id('@', window) + " " + ToLayoutString(layout)
  }

  // ---- Reading a command line back -----------------------------------------------

  /** A typed command. */
  datatype Typed =
    | Keys(pane: u32, keys: seq<byte>)
    | Size(cols: u16, rows: u16)
    | WindowSize(window: u32, cols: u16, rows: u16)
    | Arrange(window: u32, layout: Layout)

  function Line(t: Typed): string {
    match t
    case Keys(pane, keys) => SendKeys(pane, keys)
    case Size(cols, rows) => Resize(cols, rows)
    case WindowSize(window, cols, rows) => ResizeWindow(window, cols, rows)
    case Arrange(window, layout) => SelectLayout(window, layout)
  }

  /** Two hex digits as a byte. */
  function ReadHex2(token: string): Option<byte> {
    if |token| == 2 && IsHexDigit(token[0]) && IsHexDigit(token[1]) then
      Some((16 * HexVal(token[0]) + HexVal(token[1])) as char)
    else None
  }

  function ReadKeys(tokens: seq<string>): Option<seq<byte>> {
    if tokens == [] then Some([])
    else
      var key :- ReadHex2(tokens[0]);
      var keys :- ReadKeys(tokens[1..]);
      Some([key] + keys)
  }

  function ReadSize(token: string): Option<(u16, u16)> {
    var (cols, rows) :- SplitOnce(token, 'x');
    var c :- ParseUint(cols, U16_MAX);
    var r :- ParseUint(rows, U16_MAX);
    Some((c, r))
  }

  /** A typed command from the arguments of its line, each read by its own format. */
  function ReadFields(fields: seq<string>): Option<Typed> {
    if |fields| >= 4 && fields[0] == "send-keys" && fields[1] == "-t" && fields[3] == "-H" then
      var pane :- ParseId(fields[2], '%');
      var keys :- ReadKeys(fields[4..]);
      Some(Keys(pane, keys))
    else if |fields| == 3 && fields[0] == "refresh-client" && fields[1] == "-C" then
      var (cols, rows) :- ReadSize(fields[2]);
      Some(Size(cols, rows))
    else if |fields| == 7 && fields[0] == "resize-window" && fields[1] == "-t"
            && fields[3] == "-x" && fields[5] == "-y" then
      var window :- ParseId(fields[2], '@');
      var cols :- ParseUint(fields[4], U16_MAX);
      var rows :- ParseUint(fields[6], U16_MAX);
      Some(WindowSize(window, cols, rows))
    else if |fields| == 4 && fields[0] == "select-layout" && fields[1] == "-t" then
      var window :- ParseId(fields[2], '@');
      match Parse(fields[3])
      case Success(layout) => Some(Arrange(window, layout))
      case Failure(_) => None
    else None
  }

  /** This model's reader of command lines: split at spaces, then read the arguments.  It
      stands in for tmux's own command parser, which is not modelled. */
  function ReadLine(line: string): Option<Typed> { ReadFields(Split(line, ' ')) }

  /** The command lines, spelled out. */
  lemma ReferenceLines(t: Layout)
    ensures SendKeys(1, ['\U{1b}', '\U{5b}', '\U{41}']) == "send-keys -t " + "%1" + " -H" + " 1b 5b 41"
    ensures Resize(8, 2) == "refresh-client -C " + "8x2"
    ensures ResizeWindow(2, 8, 4) == "resize-window -t " + "@2" + " -x " + "8" + " -y " + "4"
    ensures SelectLayout(2, t) == "select-layout -t " + "@2" + " " + ToLayoutString(t)
  {
    hide ToLayoutString;
    Digit(1);
    Digit(2);
    Digit(4);
    Digit(8);
    ReferenceKeys();
  }

  lemma ReferenceKeys()
    ensures KeyTokens(['\U{1b}', '\U{5b}', '\U{41}']) == " 1b 5b 41"
  {
    var keys: seq<byte> := ['\U{1b}', '\U{5b}', '\U{41}'];
    assert keys[1..] == ['\U{5b}', '\U{41}'] && keys[1..][1..] == ['\U{41}'] && keys[1..][1..][1..] == [];
    assert Hex2('\U{1b}') == "1b" && Hex2('\U{5b}') == "5b" && Hex2('\U{41}') == "41";
    assert KeyTokens(keys[1..][1..]) == " 41" by { assert " " + "41" + "" == " 41"; }
    assert KeyTokens(keys[1..]) == " 5b 41" by { assert " " + "5b" + " 41" == " 5b 41"; }
    assert " " + "1b" + " 5b 41" == " 1b 5b 41";
  }

  // ---- Fields --------------------------------------------------------------------

  function HexTokens(keys: seq<byte>): (tokens: seq<string>)
    ensures |tokens| == |keys| && forall k :: 0 <= k < |keys| ==> tokens[k] == Hex2(keys[k])
  {
    seq(|keys|, k requires 0 <= k < |keys| => Hex2(keys[k]))
  }

  lemma {:induction false} JoinKeys(head: string, keys: seq<byte>)
    ensures Join([head] + HexTokens(keys)) == head + KeyTokens(keys)
    decreases |keys|
  {
    if keys == [] {
      assert [head] + HexTokens(keys) == [head] && head + "" == head;
    } else {
      var first := Hex2(keys[0]);
      assert HexTokens(keys) == [first] + HexTokens(keys[1..]);
      JoinKeys(first, keys[1..]);
      TailOfCons(head, HexTokens(keys));
      ConcatAssoc(head, " ", first + KeyTokens(keys[1..]));
      ConcatAssoc(" ", first, KeyTokens(keys[1..]));
    }
  }

  function Fields(t: Typed): (fields: seq<string>)
    ensures fields != []
  {
    match t
    case Keys(pane, keys) => ["send-keys", "-t", Id('%', pane), "-H"] + HexTokens(keys)
    case Size(cols, rows) => ["refresh-client", "-C", Decimal(cols) + "x" + Decimal(rows)]
    case WindowSize(window, cols, rows) =>
      ["resize-window", "-t", Id('@', window), "-x", Decimal(cols), "-y", Decimal(rows)]
    case Arrange(window, layout) => ["select-layout", "-t", Id('@', window), ToLayoutString(layout)]
  }

  lemma JoinTwo(a: string, fields: seq<string>)
    requires fields != []
    ensures Join([a] + fields) == a + " " + Join(fields)
  {
    TailOfCons(a, fields);
  }

  lemma JoinOne(a: string)
    ensures Join([a]) == a
  {
  }

  lemma LineOfKeys(pane: u32, keys: seq<byte>)
    ensures SendKeys(pane, keys) == Join(Fields(Keys(pane, keys)))
  {
    hide Join, KeyTokens;
    var id, tokens := Id('%', pane), HexTokens(keys);
    JoinKeys("-H", keys);
    JoinTwo(id, ["-H"] + tokens);
    JoinTwo("-t", [id] + (["-H"] + tokens));
    JoinTwo("send-keys", ["-t"] + ([id] + (["-H"] + tokens)));
    assert ["send-keys"] + (["-t"] + ([id] + (["-H"] + tokens))) == Fields(Keys(pane, keys));
    var rest := KeyTokens(keys);
    assert "send-keys -t " + id + " -H" + rest == "send-keys" + " " + ("-t" + " " + (id + " " + ("-H" + rest)));
  }

  lemma LineOfSize(cols: u16, rows: u16)
    ensures Resize(cols, rows) == Join(Fields(Size(cols, rows)))
  {
    hide Join;
    var size := Decimal(cols) + "x" + Decimal(rows);
    JoinOne(size);
    JoinTwo("-C", [size]);
    JoinTwo("refresh-client", ["-C", size]);
    assert ["refresh-client"] + ["-C", size] == ["refresh-client", "-C", size] && ["-C"] + [size] == ["-C", size];
  }

  lemma {:induction false} JoinAppend(fields: seq<string>, last: string)
    requires fields != []
    ensures Join(fields + [last]) == Join(fields) + " " + last
    decreases |fields|
  {
    if |fields| == 1 {
      assert (fields + [last])[1..] == [last];
    } else {
      assert (fields + [last])[1..] == fields[1..] + [last];
      JoinAppend(fields[1..], last);
      ConcatAssoc(fields[0] + " ", Join(fields[1..]), " " + last);
      ConcatAssoc(Join(fields[1..]), " ", last);
      ConcatAssoc(fields[0] + " " + Join(fields[1..]), " ", last);
    }
  }

  /** Another flag with its argument. */
  lemma JoinFlag(fields: seq<string>, flag: string, arg: string)
    requires fields != []
    ensures Join(fields + [flag, arg]) == Join(fields) + (" " + flag + " ") + arg
  {
    hide Join;
    JoinAppend(fields, flag);
    JoinAppend(fields + [flag], arg);
    assert fields + [flag] + [arg] == fields + [flag, arg];
    assert Join(fields) + " " + flag + " " == Join(fields) + (" " + flag + " ");
  }

  lemma LineOfWindowSize(window: u32, cols: u16, rows: u16)
    ensures ResizeWindow(window, cols, rows) == Join(Fields(WindowSize(window, cols, rows)))
  {
    hide Join, Decimal, Id;
    var id, c, r := Id('@', window), Decimal(cols), Decimal(rows);
    JoinOne("resize-window");
    JoinFlag(["resize-window"], "-t", id);
    JoinFlag(["resize-window", "-t", id], "-x", c);
    JoinFlag(["resize-window", "-t", id, "-x", c], "-y", r);
    assert ["resize-window"] + ["-t", id] == ["resize-window", "-t", id];
    assert ["resize-window", "-t", id] + ["-x", c] == ["resize-window", "-t", id, "-x", c];
    assert ["resize-window", "-t", id, "-x", c] + ["-y", r] == ["resize-window", "-t", id, "-x", c, "-y", r];
    assert "resize-window" + (" " + "-t" + " ") == "resize-window -t ";
    assert " " + "-x" + " " == " -x " && " " + "-y" + " " == " -y ";
  }

  lemma LineOfArrange(window: u32, layout: Layout)
    ensures SelectLayout(window, layout) == Join(Fields(Arrange(window, layout)))
  {
    hide Join, Decimal, ToLayoutString;
    var id, s := Id('@', window), ToLayoutString(layout);
    JoinOne(s);
    JoinTwo(id, [s]);
    JoinTwo("-t", [id] + [s]);
    JoinTwo("select-layout", ["-t"] + ([id] + [s]));
    assert ["select-layout"] + (["-t"] + ([id] + [s])) == Fields(Arrange(window, layout));
    assert "select-layout -t " + id + " " + s == "select-layout" + " " + ("-t" + " " + (id + " " + s));
  }

  /** Text that neither ends a field nor a line. */
  predicate Word(s: string) { ' ' !in s && '\n' !in s }

  lemma NumbersAreWords(n: nat, sigil: char, id: u32)
    requires Word([sigil])
    ensures Word(Decimal(n)) && Word(Id(sigil, id))
  {
    DecimalLacks(n, ' ');
    DecimalLacks(n, '\n');
    assert ' ' != sigil && '\n' != sigil by { assert sigil in [sigil]; }
    IdLacks(sigil, id, ' ');
    IdLacks(sigil, id, '\n');
  }

  lemma SizeIsWord(cols: u16, rows: u16)
    ensures Word(Decimal(cols) + "x" + Decimal(rows))
  {
    NumbersAreWords(cols, '@', 0);
    NumbersAreWords(rows, '@', 0);
  }

  lemma LayoutIsWord(layout: Layout)
    ensures Word(ToLayoutString(layout))
  {
    hide ToLayoutString;
    ToLayoutStringLacks(layout, ' ');
    ToLayoutStringLacks(layout, '\n');
  }

  lemma HexIsWord(b: byte)
    ensures Word(Hex2(b))
  {
  }

  lemma FieldsAreWords(t: Typed)
    ensures forall k :: 0 <= k < |Fields(t)| ==> Word(Fields(t)[k])
  {
    hide Decimal, Id, ToLayoutString, Hex2;
    match t {
      case Keys(pane, keys) =>
        NumbersAreWords(0, '%', pane);
        forall k | 0 <= k < |keys| ensures Word(HexTokens(keys)[k]) { HexIsWord(keys[k]); }
      case Size(cols, rows) =>
        SizeIsWord(cols, rows);
      case WindowSize(window, cols, rows) =>
        NumbersAreWords(cols, '@', window);
        NumbersAreWords(rows, '@', window);
      case Arrange(window, layout) =>
        NumbersAreWords(0, '@', window);
        LayoutIsWord(layout);
    }
  }

  lemma LineIsFields(t: Typed)
    ensures Line(t) == Join(Fields(t)) && Split(Line(t), ' ') == Fields(t)
  {
    hide SendKeys, Resize, ResizeWindow, SelectLayout, Fields, Join;
    match t {
      case Keys(pane, keys) => LineOfKeys(pane, keys);
      case Size(cols, rows) => LineOfSize(cols, rows);
      case WindowSize(window, cols, rows) => LineOfWindowSize(window, cols, rows);
      case Arrange(window, layout) => LineOfArrange(window, layout);
    }
    FieldsAreWords(t);
    SplitOfJoin(Fields(t));
  }

  lemma {:induction false} KeysReadBack(keys: seq<byte>)
    ensures ReadKeys(HexTokens(keys)) == Some(keys)
    decreases |keys|
  {
    if keys != [] {
      assert HexTokens(keys)[1..] == HexTokens(keys[1..]);
      KeysReadBack(keys[1..]);
      HeadTail(keys);
    }
  }

  lemma SizeReadsBack(cols: u16, rows: u16)
    ensures ReadSize(Decimal(cols) + "x" + Decimal(rows)) == Some((cols, rows))
  {
    DecimalLacks(cols, 'x');
    SplitOnceAppend(Decimal(cols), 'x', Decimal(rows));
    ParseUintDecimal(cols, U16_MAX);
    ParseUintDecimal(rows, U16_MAX);
  }

  lemma KeysRoundTrip(pane: u32, keys: seq<byte>)
    ensures ReadFields(Fields(Keys(pane, keys))) == Some(Keys(pane, keys))
  {
    hide ReadKeys, ParseId, Id;
    assert Fields(Keys(pane, keys))[4..] == HexTokens(keys);
    ParseIdOfId('%', pane);
    KeysReadBack(keys);
  }

  lemma SizeRoundTrip(cols: u16, rows: u16)
    ensures ReadFields(Fields(Size(cols, rows))) == Some(Size(cols, rows))
  {
    hide ReadSize, Decimal;
    SizeReadsBack(cols, rows);
  }

  lemma WindowSizeRoundTrip(window: u32, cols: u16, rows: u16)
    ensures ReadFields(Fields(WindowSize(window, cols, rows))) == Some(WindowSize(window, cols, rows))
  {
    hide ParseId, Id, Decimal, ParseUint;
    ParseIdOfId('@', window);
    ParseUintDecimal(cols, U16_MAX);
    ParseUintDecimal(rows, U16_MAX);
  }

  lemma ArrangeRoundTrip(window: u32, layout: Layout)
    ensures ReadFields(Fields(Arrange(window, layout))) == Some(Arrange(window, layout)) <==> Parsable(layout)
  {
    hide ParseId, Id, ToLayoutString, Parse, Parsable;
    ParseIdOfId('@', window);
    ParseOfPrinted(layout);
  }

  /** The line reads back as the command that was called, its keys byte for byte, except
      that a layout must be one the layout grammar can carry. */
  lemma TypedRoundTrip(t: Typed)
    ensures ReadLine(Line(t)) == Some(t) <==> (t.Arrange? ==> Parsable(t.layout))
  {
    hide Line, Split, ReadFields, Fields, Parsable;
    LineIsFields(t);
    match t {
      case Keys(pane, keys) => KeysRoundTrip(pane, keys);
      case Size(cols, rows) => SizeRoundTrip(cols, rows);
      case WindowSize(window, cols, rows) => WindowSizeRoundTrip(window, cols, rows);
      case Arrange(window, layout) => ArrangeRoundTrip(window, layout);
    }
  }

  lemma {:induction false} JoinLacks(fields: seq<string>, c: char)
    requires c != ' ' && forall k :: 0 <= k < |fields| ==> c !in fields[k]
    ensures c !in Join(fields)
  {
    if |fields| > 1 {
      JoinLacks(fields[1..], c);
    }
  }

  /** A typed command is always one non-empty line, so any free client can take it up. */
  lemma TypedIsOneLine(t: Typed)
    ensures Line(t) != "" && '\n' !in Line(t)
    ensures forall s: System, call :: s.lock.None? && call !in s.calls ==> Enabled(s, Start(call, Line(t)))
  {
    hide Line, Split;
    LineIsFields(t);
    FieldsAreWords(t);
    JoinLacks(Fields(t), '\n');
  }

  /** End to end: when a typed call comes back with anything but a disconnect, this is tmux's
      answer to a line that reads back as exactly that command. */
  lemma TypedCallIsAnswered(steps: seq<Step>, call: CallId, t: Typed) returns (id: CommandId)
    requires Possible(INITIAL, steps) && (t.Arrange? ==> Parsable(t.layout))
    requires var s := Run(INITIAL, steps);
             && call in s.calls && s.calls[call].cmd == Line(t)
             && s.calls[call].phase.Returned? && s.calls[call].phase.result != Disconnected
    ensures var s := Run(INITIAL, steps);
            && id < |s.answers| && id < |s.owners| && s.owners[id] == call
            && ReadLine(s.answers[id].line) == Some(t) && s.answers[id].result == s.calls[call].phase.result
  {
    hide Possible, Run, Line, ReadLine;
    TypedRoundTrip(t);
    id := NoCrossDelivery(steps, call);
  }
}
