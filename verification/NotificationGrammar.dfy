/** The notification grammar, said once more without the parser: which lines mean which
    notification, and that every other line is kept as it came. */
module NotificationGrammar {
  import opened Text
  import opened Notifications
  import opened NotificationTheorems
  import Output
  import Layouts
  import opened Parsers
  import opened Guards

  // ---- The grammar ---------------------------------------------------------------

  /** A sigil and the numeral of an id. */
  predicate IsId(token: string, sigil: char, id: u32) {
    token != "" && token[0] == sigil && IsNumeral(token[1..], id)
  }

  /** What a line has after its keyword; nothing, if it has no more. */
  function Args(line: string, word: string): Option<string> {
    if line == word then Some("")
    else if HasPrefix(line, word + " ") then Some(line[|word| + 1..])
    else None
  }

  /** The text up to the first space. */
  function Token(s: string): string { s[..IndexOf(s, ' ')] }

  /** The text starts with this token, a space, and then `more`. */
  predicate Leads(s: string, token: string, more: string) { ' ' !in token && s == token + " " + more }

  /** `<id>`, and anything after a space. */
  predicate IdFirst(args: string, sigil: char, id: u32) { IsId(Token(args), sigil, id) }

  /** `<id> <name>`, the name being all the rest. */
  predicate IdThenName(args: string, sigil: char, id: u32, name: string) {
    Leads(args, Token(args), name) && IsId(Token(args), sigil, id)
  }

  predicate TwoIds(args: string, sigil1: char, id1: u32, sigil2: char, id2: u32) {
    && IndexOf(args, ' ') < |args| && IsId(Token(args), sigil1, id1)
    && IsId(args[IndexOf(args, ' ') + 1..], sigil2, id2)
  }

  predicate ClientSays(args: string, client: string, session: u32, name: string) {
    && |client| < |args| && Leads(args, client, args[|client| + 1..])
    && IdThenName(args[|client| + 1..], '$', session, name)
  }

  /** The text after the first ` : `, if there is one. */
  predicate ValueSays(args: string, value: string) {
    || (value == "" && forall i :: 0 <= i <= |args| ==> !OccursAt(args, " : ", i))
    || exists i :: 0 <= i <= |args| && FirstAt(args, " : ", i) && value == args[i + 3..]
  }

  predicate FirstAt(s: string, needle: string, i: nat) {
    OccursAt(s, needle, i) && forall j :: 0 <= j < i ==> !OccursAt(s, needle, j)
  }

  function Others(field: string): string {
    if field == "" then "" else (if KnownFlag(field[0]) then "" else [field[0]]) + Others(field[1..])
  }

  /** A known mark is set exactly if it occurs; other characters are kept in order. */
  predicate FlagsSay(field: string, f: WindowFlags) {
    && f.current == ('*' in field) && f.last == ('-' in field) && f.activity == ('#' in field)
    && f.bell == ('!' in field) && f.silence == ('~' in field) && f.marked == ('M' in field)
    && f.zoomed == ('Z' in field) && f.unknown == Others(field)
  }

  /** Fields beyond the fourth are ignored. */
  predicate LayoutSays(fields: seq<string>, window: u32, layout: Layouts.Layout, visible: Option<Layouts.Layout>,
                       flags: Option<WindowFlags>) {
    && |fields| >= 2 && IsId(fields[0], '@', window) && Layouts.Parse(fields[1]) == Layouts.Success(layout)
    && (if |fields| < 3 then visible == None
        else visible.Some? && Layouts.Parse(fields[2]) == Layouts.Success(visible.value))
    && (if |fields| < 4 then flags == None else flags.Some? && FlagsSay(fields[3], flags.value))
  }

  predicate OutputSays(line: string, pane: u32, bytes: string) {
    && HasPrefix(line, "%output ")
    && var rest := line[|"%output "|..];
       var sp := IndexOf(rest, ' ');
       IsId(rest[..sp], '%', pane) && bytes == if sp < |rest| then Output.Decode(rest[sp + 1..]) else ""
  }

  predicate ExtendedSays(line: string, pane: u32, ms: u64, bytes: string) {
    && HasPrefix(line, "%extended-output ")
    && var rest := line[|"%extended-output "|..];
       var sp := IndexOf(rest, ' ');
       && sp < |rest| && IsId(rest[..sp], '%', pane)
       && var tail := rest[sp + 1..];
          exists i :: 0 <= i <= |tail| && FirstAt(tail, " : ", i) && IsNumeral(tail[..i], ms)
                      && bytes == Output.Decode(tail[i + 3..])
  }

  /** The keyword of a notification's text line. */
  function Word(n: Notification): Option<string> {
    match n
    case LayoutChange(_, _, _, _) => Some("layout-change")
    case WindowAdd(_) => Some("window-add")
    case WindowClose(_) => Some("window-close")
    case WindowRenamed(_, _) => Some("window-renamed")
    case WindowPaneChanged(_, _) => Some("window-pane-changed")
    case UnlinkedWindowAdd(_) => Some("unlinked-window-add")
    case UnlinkedWindowClose(_) => Some("unlinked-window-close")
    case UnlinkedWindowRenamed(_, _) => Some("unlinked-window-renamed")
    case SessionChanged(_, _) => Some("session-changed")
    case SessionRenamed(_, _) => Some("session-renamed")
    case SessionWindowChanged(_, _) => Some("session-window-changed")
    case ClientSessionChanged(_, _, _) => Some("client-session-changed")
    case SessionsChanged => Some("sessions-changed")
    case PaneModeChanged(_) => Some("pane-mode-changed")
    case Pause(_) => Some("pause")
    case Continue(_) => Some("continue")
    case SubscriptionChanged(_, _) => Some("subscription-changed")
    case Exit(_) => Some("exit")
    case _ => None
  }

  /** What the arguments of each keyword must be. */
  predicate ArgsSay(args: string, n: Notification) {
    match n
    case LayoutChange(w, layout, visible, flags) => LayoutSays(Split(args, ' '), w, layout, visible, flags)
    case WindowAdd(w) => IdFirst(args, '@', w)
    case WindowClose(w) => IdFirst(args, '@', w)
    case WindowRenamed(w, name) => IdThenName(args, '@', w, name)
    case WindowPaneChanged(w, p) => TwoIds(args, '@', w, '%', p)
    case UnlinkedWindowAdd(w) => IdFirst(args, '@', w)
    case UnlinkedWindowClose(w) => IdFirst(args, '@', w)
    case UnlinkedWindowRenamed(w, name) => IdThenName(args, '@', w, name)
    case SessionChanged(s, name) => IdThenName(args, '$', s, name)
    case SessionRenamed(s, name) => IdThenName(args, '$', s, name)
    case SessionWindowChanged(s, w) => TwoIds(args, '$', s, '@', w)
    case ClientSessionChanged(client, s, name) => ClientSays(args, client, s, name)
    case SessionsChanged => true
    case PaneModeChanged(p) => IdFirst(args, '%', p)
    case Pause(p) => IdFirst(args, '%', p)
    case Continue(p) => IdFirst(args, '%', p)
    case SubscriptionChanged(name, value) => name == Token(args) && ValueSays(args, value)
    case Exit(reason) => reason == if Trim(args) == "" then None else Some(Trim(args))
    case _ => false
  }

  /** The line means the notification. */
  predicate Says(line: string, n: Notification) {
    match n
    case Output(pane, bytes) => OutputSays(line, pane, bytes)
    case ExtendedOutput(pane, ms, bytes) => ExtendedSays(line, pane, ms, bytes)
    case Unknown(_) => false
    case _ =>
      var args := Args(line, "%" + Word(n).value);
      args.Some? && ArgsSay(args.value, n)
  }

  // ---- The pieces are parsed as the grammar says ---------------------------------

  lemma ParseIdExactly(token: string, sigil: char, id: u32)
    ensures ParseId(token, sigil) == Some(id) <==> IsId(token, sigil, id)
  {
    hide ParseUint, IsNumeral;
    if token != "" {
      ParseUintExactly(token[1..], U32_MAX, id);
    }
  }

  lemma FirstIdExactly(args: string, sigil: char, id: u32)
    ensures FirstId(args, sigil) == Some(id) <==> IdFirst(args, sigil, id)
  {
    hide ParseId, IsId, Split;
    SplitHead(args, ' ');
    ParseIdExactly(Token(args), sigil, id);
  }

  lemma TokenLeads(args: string)
    ensures IndexOf(args, ' ') < |args| ==> Leads(args, Token(args), args[IndexOf(args, ' ') + 1..])
  {
    var i := IndexOf(args, ' ');
    if i < |args| {
      SplitAt(args, i);
    }
  }

  lemma LeadsWhere(args: string, token: string, more: string)
    requires Leads(args, token, more)
    ensures IndexOf(args, ' ') == |token| < |args| && args[|token| + 1..] == more && Token(args) == token
  {
    IndexOfAppend(token, ' ', more);
  }

  lemma IdNameExactly(args: string, sigil: char, id: u32, name: string)
    ensures var r := ParseIdName(args, sigil);
            r.Some? && r.value.0 == id && r.value.1 == name <==> IdThenName(args, sigil, id, name)
  {
    hide ParseId, IsId, IndexOf, Leads;
    ParseIdExactly(Token(args), sigil, id);
    TokenLeads(args);
    if Leads(args, Token(args), name) {
      LeadsWhere(args, Token(args), name);
    }
  }

  lemma TwoIdsExactly(args: string, sigil1: char, id1: u32, sigil2: char, id2: u32)
    ensures var r := ParseTwoIds(args, sigil1, sigil2);
            r.Some? && r.value.0 == id1 && r.value.1 == id2 <==> TwoIds(args, sigil1, id1, sigil2, id2)
  {
    hide ParseId, IsId, IndexOf;
    ParseIdExactly(Token(args), sigil1, id1);
    if IndexOf(args, ' ') < |args| {
      ParseIdExactly(args[IndexOf(args, ' ') + 1..], sigil2, id2);
    }
  }

  lemma ClientExactly(args: string, client: string, session: u32, name: string)
    ensures ParseClientSessionChanged(args) == Some(ClientSessionChanged(client, session, name))
       <==> ClientSays(args, client, session, name)
  {
    hide ParseIdName, IdThenName, IndexOf, Leads;
    var i := IndexOf(args, ' ');
    TokenLeads(args);
    if |client| < |args| && Leads(args, client, args[|client| + 1..]) {
      LeadsWhere(args, client, args[|client| + 1..]);
    }
    if i < |args| {
      var rest := args[i + 1..];
      assert |Token(args)| == i;
      assert SplitOnce(args, ' ') == Some((Token(args), rest));
      IdNameExactly(rest, '$', session, name);
      if ParseIdName(rest, '$').Some? {
        assert ParseClientSessionChanged(args)
            == Some(ClientSessionChanged(Token(args), ParseIdName(rest, '$').value.0, ParseIdName(rest, '$').value.1));
      }
    }
  }

  lemma FoundFirst(s: string, needle: string, i: nat)
    ensures FindSubslice(s, needle) == Some(i) <==> FirstAt(s, needle, i)
    ensures FindSubslice(s, needle) == None ==> !OccursAt(s, needle, i)
  {
    hide FindSubslice;
    var found := FindSubslice(s, needle);
    if found.Some? {
      assert OccursAt(s, needle, found.value);
      forall j | 0 <= j < found.value ensures !OccursAt(s, needle, j) {
        if OccursAt(s, needle, j) {
          FindSubsliceFirst(s, needle, j);
        }
      }
    }
    if OccursAt(s, needle, i) {
      FindSubsliceFirst(s, needle, i);
    }
  }

  lemma ValueExactly(args: string, value: string)
    ensures (value == match FindSubslice(args, " : ") case None => "" case Some(i) => args[i + 3..])
       <==> ValueSays(args, value)
  {
    hide FindSubslice, FirstAt, OccursAt;
    forall i: nat ensures FindSubslice(args, " : ") == Some(i) <==> FirstAt(args, " : ", i)
    {
      FoundFirst(args, " : ", i);
    }
    forall i: nat ensures FindSubslice(args, " : ") == None ==> !OccursAt(args, " : ", i)
    {
      FoundFirst(args, " : ", i);
    }
    if FindSubslice(args, " : ").Some? {
      FirstOccurs(args, " : ", FindSubslice(args, " : ").value);
    }
  }

  lemma FirstOccurs(s: string, needle: string, i: nat)
    requires FirstAt(s, needle, i)
    ensures OccursAt(s, needle, i) && i <= |s|
  {
  }

  lemma InTail(c: char, field: string)
    requires field != ""
    ensures c in field <==> field[0] == c || c in field[1..]
  {
    HeadTail(field);
  }

  lemma {:induction false} AddFlagsSay(flags: WindowFlags, field: string)
    ensures AddFlags(flags, field) == WindowFlags(
              flags.current || '*' in field, flags.last || '-' in field, flags.activity || '#' in field,
              flags.bell || '!' in field, flags.silence || '~' in field, flags.marked || 'M' in field,
              flags.zoomed || 'Z' in field, flags.unknown + Others(field))
    decreases |field|
  {
    hide AddFlag, KnownFlag;
    if field == "" {
      assert flags.unknown + "" == flags.unknown;
    } else {
      AddFlagSays(flags, field[0]);
      AddFlagsSay(AddFlag(flags, field[0]), field[1..]);
      InTail('*', field); InTail('-', field); InTail('#', field); InTail('!', field);
      InTail('~', field); InTail('M', field); InTail('Z', field);
      ConcatAssoc(flags.unknown, if KnownFlag(field[0]) then "" else [field[0]], Others(field[1..]));
    }
  }

  lemma FlagsExactly(field: string, f: WindowFlags)
    ensures FlagsOf(field) == f <==> FlagsSay(field, f)
  {
    hide Others, AddFlags;
    AddFlagsSay(NO_FLAGS, field);
    assert "" + Others(field) == Others(field);
  }

  lemma LayoutExactly(fields: seq<string>, w: u32, layout: Layouts.Layout, visible: Option<Layouts.Layout>,
                      flags: Option<WindowFlags>)
    ensures LayoutChangeOfFields(fields) == Some(LayoutChange(w, layout, visible, flags))
       <==> LayoutSays(fields, w, layout, visible, flags)
  {
    hide Layouts.Parse, ParseId, IsId, FlagsOf, FlagsSay;
    if |fields| >= 2 {
      ParseIdExactly(fields[0], '@', w);
    }
    if |fields| >= 4 && flags.Some? {
      FlagsExactly(fields[3], flags.value);
    }
  }

  // ---- Lines ---------------------------------------------------------------------

  /** Text up to a first space and after it, against a word. */
  lemma WordThen(rest: string, word: string)
    requires ' ' !in word
    ensures var i := IndexOf(rest, ' ');
            && (rest == word <==> i == |rest| && rest[..i] == word)
            && (HasPrefix(rest, word + " ") <==> i < |rest| && rest[..i] == word)
  {
    var i := IndexOf(rest, ' ');
    IndexOfNone(rest, ' ');
    assert rest[..|rest|] == rest;
    if HasPrefix(rest, word + " ") {
      var more := rest[|word| + 1..];
      assert rest == word + " " + more;
      IndexOfAppend(word, ' ', more);
    }
    if i < |rest| {
      SplitAt(rest, i);
      assert rest[..i + 1] == rest[..i] + " ";
    }
  }

  lemma SignedPrefix(rest: string, word: string)
    ensures "%" + rest == "%" + word <==> rest == word
    ensures HasPrefix("%" + rest, "%" + word) <==> HasPrefix(rest, word)
  {
    TailOfCons('%', rest);
    TailOfCons('%', word);
    if |word| <= |rest| {
      assert ("%" + rest)[..|word| + 1] == "%" + rest[..|word|];
      TailOfCons('%', rest[..|word|]);
    }
  }

  /** A line's arguments, by its keyword. */
  lemma ArgsAre(rest: string, word: string)
    requires ' ' !in word
    ensures Args("%" + rest, "%" + word)
         == (if SplitKind("%" + rest).0 == word then Some(SplitKind("%" + rest).1) else None)
  {
    hide IndexOf, HasPrefix;
    TailOfCons('%', rest);
    WordThen(rest, word);
    SignedPrefix(rest, word);
    SignedPrefix(rest, word + " ");
    ConcatAssoc("%", word, " ");
    if SplitKind("%" + rest).0 == word && IndexOf(rest, ' ') < |rest| {
      assert ("%" + rest)[|word| + 2..] == rest[|word| + 1..];
    }
  }

  lemma KeywordOfNotification(n: Notification)
    ensures KeywordFor(n).Some? <==> Word(n).Some?
    ensures Word(n).Some? ==> Word(n).value == KeywordName(KeywordFor(n).value) && ' ' !in Word(n).value
  {
    hide KeywordName;
    if KeywordFor(n).Some? {
      KeywordIsOneWord(KeywordFor(n).value);
      WordIsName(n);
    }
  }

  lemma WordIsName(n: Notification)
    requires KeywordFor(n).Some?
    ensures Word(n) == Some(KeywordName(KeywordFor(n).value))
  {
  }

  lemma KeywordOfExactly(kind: string, k: Keyword)
    ensures KeywordOf(kind) == Some(k) <==> kind == KeywordName(k)
  {
    hide KeywordOf, KeywordName;
    KeywordRoundTrip(k);
    if KeywordOf(kind) == Some(k) {
      NamedKeyword(kind, k);
    }
  }

  lemma NamedKeyword(kind: string, k: Keyword)
    requires KeywordOf(kind) == Some(k)
    ensures kind == KeywordName(k)
  {
    hide KeywordOf, KeywordName;
    if IsWindowKeyword(k) {
      NamedWindow(kind, k);
    } else if IsUnlinkedKeyword(k) {
      NamedUnlinked(kind, k);
    } else if IsSessionKeyword(k) {
      NamedSession(kind, k);
    } else {
      NamedOther(kind, k);
    }
  }

  lemma NamedWindow(kind: string, k: Keyword)
    requires KeywordOf(kind) == Some(k) && IsWindowKeyword(k)
    ensures kind == KeywordName(k)
  {
  }

  lemma NamedUnlinked(kind: string, k: Keyword)
    requires KeywordOf(kind) == Some(k) && IsUnlinkedKeyword(k)
    ensures kind == KeywordName(k)
  {
  }

  lemma NamedSession(kind: string, k: Keyword)
    requires KeywordOf(kind) == Some(k) && IsSessionKeyword(k)
    ensures kind == KeywordName(k)
  {
  }

  lemma NamedOther(kind: string, k: Keyword)
    requires KeywordOf(kind) == Some(k) && !IsWindowKeyword(k) && !IsUnlinkedKeyword(k) && !IsSessionKeyword(k)
    ensures kind == KeywordName(k)
  {
  }

  lemma IdArgsExactly(k: Keyword, args: string, n: Notification)
    requires KeywordFor(n) == Some(k)
    requires k.KWindowAdd? || k.KWindowClose? || k.KUnlinkedWindowAdd? || k.KUnlinkedWindowClose?
             || k.KPaneModeChanged? || k.KPause? || k.KContinue?
    ensures ParseArgs(k, args) == Some(n) <==> ArgsSay(args, n)
  {
    hide FirstId, IdFirst;
    match n {
      case WindowAdd(w) => FirstIdExactly(args, '@', w);
      case WindowClose(w) => FirstIdExactly(args, '@', w);
      case UnlinkedWindowAdd(w) => FirstIdExactly(args, '@', w);
      case UnlinkedWindowClose(w) => FirstIdExactly(args, '@', w);
      case PaneModeChanged(p) => FirstIdExactly(args, '%', p);
      case Pause(p) => FirstIdExactly(args, '%', p);
      case Continue(p) => FirstIdExactly(args, '%', p);
    }
  }

  lemma NameArgsExactly(k: Keyword, args: string, n: Notification)
    requires KeywordFor(n) == Some(k)
    requires k.KWindowRenamed? || k.KUnlinkedWindowRenamed? || k.KSessionChanged? || k.KSessionRenamed?
             || k.KClientSessionChanged?
    ensures ParseArgs(k, args) == Some(n) <==> ArgsSay(args, n)
  {
    hide ParseIdName, ParseClientSessionChanged, IdThenName, ClientSays;
    match n {
      case WindowRenamed(w, name) => IdNameExactly(args, '@', w, name);
      case UnlinkedWindowRenamed(w, name) => IdNameExactly(args, '@', w, name);
      case SessionChanged(s, name) => IdNameExactly(args, '$', s, name);
      case SessionRenamed(s, name) => IdNameExactly(args, '$', s, name);
      case ClientSessionChanged(client, s, name) => ClientExactly(args, client, s, name);
    }
  }

  lemma OtherArgsExactly(k: Keyword, args: string, n: Notification)
    requires KeywordFor(n) == Some(k)
    requires k.KLayoutChange? || k.KWindowPaneChanged? || k.KSessionWindowChanged? || k.KSessionsChanged?
             || k.KSubscriptionChanged? || k.KExit?
    ensures ParseArgs(k, args) == Some(n) <==> ArgsSay(args, n)
  {
    hide ParseTwoIds, LayoutChangeOfFields, Trim, FindSubslice, Split, TwoIds, LayoutSays, ValueSays;
    match n {
      case LayoutChange(w, layout, visible, flags) => LayoutExactly(Split(args, ' '), w, layout, visible, flags);
      case WindowPaneChanged(w, p) => TwoIdsExactly(args, '@', w, '%', p);
      case SessionWindowChanged(s, w) => TwoIdsExactly(args, '$', s, '@', w);
      case SessionsChanged =>
      case SubscriptionChanged(name, value) =>
        SplitHead(args, ' ');
        ValueExactly(args, value);
      case Exit(reason) =>
    }
  }

  lemma ArgsExactly(k: Keyword, args: string, n: Notification)
    requires KeywordFor(n) == Some(k)
    ensures ParseArgs(k, args) == Some(n) <==> ArgsSay(args, n)
  {
    hide ParseArgs, ArgsSay, KeywordFor;
    match k {
      case KWindowAdd => IdArgsExactly(k, args, n);
      case KWindowClose => IdArgsExactly(k, args, n);
      case KUnlinkedWindowAdd => IdArgsExactly(k, args, n);
      case KUnlinkedWindowClose => IdArgsExactly(k, args, n);
      case KPaneModeChanged => IdArgsExactly(k, args, n);
      case KPause => IdArgsExactly(k, args, n);
      case KContinue => IdArgsExactly(k, args, n);
      case KWindowRenamed => NameArgsExactly(k, args, n);
      case KUnlinkedWindowRenamed => NameArgsExactly(k, args, n);
      case KSessionChanged => NameArgsExactly(k, args, n);
      case KSessionRenamed => NameArgsExactly(k, args, n);
      case KClientSessionChanged => NameArgsExactly(k, args, n);
      case _ => OtherArgsExactly(k, args, n);
    }
  }

  /** What a keyword's arguments yield is a notification of that keyword. */
  lemma ArgsKeyword(k: Keyword, args: string)
    ensures ParseArgs(k, args).Some? ==> KeywordFor(ParseArgs(k, args).value) == Some(k)
  {
    hide FirstId, ParseIdName, ParseTwoIds, Trim, FindSubslice, Split, Layouts.Parse, ParseId, FlagsOf;
  }

  // ---- The text path -------------------------------------------------------------

  lemma TextExactly(rest: string, n: Notification)
    requires Word(n).Some?
    ensures ParseNotification("%" + rest) == n <==> Says("%" + rest, n)
  {
    hide KeywordOf, KeywordName, ParseArgs, ArgsSay, Word, KeywordFor, SplitKind, Args;
    var line := "%" + rest;
    var (kind, args) := SplitKind(line);
    KeywordOfNotification(n);
    ArgsAre(rest, Word(n).value);
    KeywordOfExactly(kind, KeywordFor(n).value);
    ArgsExactly(KeywordFor(n).value, args, n);
    if KeywordOf(kind).Some? {
      ArgsKeyword(KeywordOf(kind).value, args);
    }
    HasWord(n);
  }

  lemma HasWord(n: Notification)
    ensures Word(n).Some? <==> !n.Output? && !n.ExtendedOutput? && !n.Unknown?
  {
  }

  // ---- The byte path -------------------------------------------------------------

  lemma OutputExactly(line: string, n: Notification)
    requires HasPrefix(line, "%output ") && !n.Unknown?
    ensures ParseLine(line) == n <==> n.Output? && OutputSays(line, n.pane, n.bytes)
  {
    hide ParseId, IsId, IndexOf, Output.Decode;
    var rest := line[|"%output "|..];
    if n.Output? {
      ParseIdExactly(rest[..IndexOf(rest, ' ')], '%', n.pane);
    }
    NoText();
  }

  lemma NoText()
    ensures Output.Decode("") == ""
  {
  }

  lemma ExtendedExactly(rest: string, n: Notification)
    requires n.ExtendedOutput?
    ensures ParseExtendedOutput(rest) == Some(n)
       <==> ExtendedSays("%extended-output " + rest, n.pane, n.msBehind, n.bytes)
  {
    hide ParseId, IsId, IndexOf, Output.Decode, FindSubslice, FirstAt, ParseUint, IsNumeral;
    var line := "%extended-output " + rest;
    assert line[..|"%extended-output "|] == "%extended-output " && line[|"%extended-output "|..] == rest;
    var sp := IndexOf(rest, ' ');
    if sp < |rest| {
      var tail := rest[sp + 1..];
      ParseIdExactly(rest[..sp], '%', n.pane);
      forall i: nat ensures FindSubslice(tail, " : ") == Some(i) <==> FirstAt(tail, " : ", i)
      {
        FoundFirst(tail, " : ", i);
      }
      if FindSubslice(tail, " : ").Some? {
        var i := FindSubslice(tail, " : ").value;
        ParseUintExactly(tail[..i], U64_MAX, n.msBehind);
      }
    }
  }

  /** A line of an output keyword has no other keyword. */
  lemma OutputHasNoArgs(line: string, n: Notification)
    requires Word(n).Some? && (HasPrefix(line, "%output ") || HasPrefix(line, "%extended-output "))
    ensures !Says(line, n)
  {
    OutputKind(line, if HasPrefix(line, "%output ") then "output" else "extended-output");
    WordIsNoOutput(n);
    KeywordOfNotification(n);
    HeadTail(line);
    ArgsAre(line[1..], Word(n).value);
    HasWord(n);
  }

  lemma OutputKind(line: string, word: string)
    requires word == "output" || word == "extended-output"
    requires HasPrefix(line, "%" + word + " ")
    ensures line != "" && line[0] == '%' && SplitKind(line).0 == word
  {
    var more := line[|word| + 2..];
    assert line == line[..|word| + 2] + more;
    assert line == "%" + (word + " " + more);
    TailOfCons('%', word + " " + more);
    SplitOnceAppend(word, ' ', more);
  }

  lemma WordIsNoOutput(n: Notification)
    ensures Word(n) != Some("output") && Word(n) != Some("extended-output")
  {
  }

  /** The two output keywords exclude each other, and need a `%`. */
  lemma OutputPrefixes(line: string)
    ensures !(HasPrefix(line, "%output ") && HasPrefix(line, "%extended-output "))
    ensures HasPrefix(line, "%output ") || HasPrefix(line, "%extended-output ") ==> line != "" && line[0] == '%'
  {
    if HasPrefix(line, "%output ") {
      PrefixChar(line, "%output ", 0);
      PrefixChar(line, "%output ", 1);
    }
    if HasPrefix(line, "%extended-output ") {
      PrefixChar(line, "%extended-output ", 0);
      PrefixChar(line, "%extended-output ", 1);
    }
  }

  lemma OutputLines(line: string, n: Notification)
    requires !n.Unknown? && (HasPrefix(line, "%output ") || HasPrefix(line, "%extended-output "))
    ensures ParseLine(line) == n <==> Says(line, n)
  {
    hide ParseNotification, ParseOutput, ParseExtendedOutput, OutputSays, ExtendedSays, HasPrefix, Word, ArgsSay, Args;
    OutputPrefixes(line);
    HasWord(n);
    NeedsPrefix(line, n);
    if Word(n).Some? {
      OutputHasNoArgs(line, n);
    }
    if HasPrefix(line, "%output ") {
      OutputExactly(line, n);
    } else {
      ExtendedLine(line, n);
    }
  }

  lemma NeedsPrefix(line: string, n: Notification)
    ensures n.Output? && OutputSays(line, n.pane, n.bytes) ==> HasPrefix(line, "%output ")
    ensures n.ExtendedOutput? && ExtendedSays(line, n.pane, n.msBehind, n.bytes)
            ==> HasPrefix(line, "%extended-output ")
  {
    hide IsId, FirstAt, IndexOf;
  }

  lemma ExtendedLine(line: string, n: Notification)
    requires HasPrefix(line, "%extended-output ") && !HasPrefix(line, "%output ") && !n.Unknown?
    ensures ParseLine(line) == n <==> n.ExtendedOutput? && ExtendedSays(line, n.pane, n.msBehind, n.bytes)
  {
    hide ExtendedSays, ParseNotification, ParseOutput;
    var rest := line[|"%extended-output "|..];
    assert line == "%extended-output " + rest;
    if n.ExtendedOutput? {
      ExtendedExactly(rest, n);
    }
    hide ParseExtendedOutput;
    YieldsExtended(rest);
  }

  lemma YieldsExtended(rest: string)
    ensures ParseExtendedOutput(rest).Some? ==> ParseExtendedOutput(rest).value.ExtendedOutput?
  {
    hide ParseId, FindSubslice, ParseUint, Output.Decode;
  }

  lemma TextLines(line: string, n: Notification)
    requires !n.Unknown? && !HasPrefix(line, "%output ") && !HasPrefix(line, "%extended-output ")
    ensures ParseLine(line) == n <==> Says(line, n)
  {
    hide ParseNotification, OutputSays, ExtendedSays, Word, ArgsSay, Args;
    HasWord(n);
    NeedsPrefix(line, n);
    assert ParseLine(line) == ParseNotification(line);
    if Word(n).None? {
      NeverOutput(line);
    } else if line != "" && line[0] == '%' {
      HeadTail(line);
      TextExactly(line[1..], n);
    } else {
      NoSign(line, n);
    }
  }

  lemma NeverOutput(line: string)
    ensures var n := ParseNotification(line); n.Unknown? || Word(n).Some?
  {
    hide KeywordOf, ParseArgs, KeywordFor, Word;
    if line != "" && KeywordOf(SplitKind(line).0).Some? {
      ArgsKeyword(KeywordOf(SplitKind(line).0).value, SplitKind(line).1);
    }
    KeywordOfNotification(ParseNotification(line));
  }

  lemma NoSign(line: string, n: Notification)
    requires Word(n).Some? && (line == "" || line[0] != '%')
    ensures ParseNotification(line).Unknown? && !Says(line, n)
  {
    hide Word, ArgsSay;
    HasWord(n);
    var word := "%" + Word(n).value;
    assert word[0] == '%';
    if HasPrefix(line, word + " ") {
      PrefixChar(line, word + " ", 0);
    }
  }

  // ---- Main results --------------------------------------------------------------

  /** A line parses to a notification exactly when the grammar says it means that one. */
  lemma {:induction false} ParseLineExactly(line: string, n: Notification)
    requires !n.Unknown?
    ensures ParseLine(line) == n <==> Says(line, n)
  {
    hide ParseLine, Says, HasPrefix;
    if HasPrefix(line, "%output ") || HasPrefix(line, "%extended-output ") {
      OutputLines(line, n);
    } else {
      TextLines(line, n);
    }
  }

  /** A line the grammar gives no meaning, with malformed arguments or an unknown keyword or
      none, is kept as it came; and only such a line is. */
  lemma {:induction false} UnknownExactly(line: string)
    ensures ParseLine(line) == Unknown(line) <==> forall n: Notification :: !Says(line, n)
    ensures ParseLine(line).Unknown? ==> ParseLine(line) == Unknown(line)
  {
    hide ParseLine, Says;
    forall n: Notification | !n.Unknown? ensures ParseLine(line) == n <==> Says(line, n)
    {
      ParseLineExactly(line, n);
    }
    forall n: Notification | n.Unknown? ensures !Says(line, n)
    {
      UnknownSaysNothing(line, n);
    }
    UnknownKeepsLine(line);
  }

  lemma UnknownSaysNothing(line: string, n: Notification)
    requires n.Unknown?
    ensures !Says(line, n)
  {
  }

  lemma UnknownKeepsLine(line: string)
    ensures ParseLine(line).Unknown? ==> ParseLine(line) == Unknown(line)
  {
    hide KeywordOf, ParseArgs, ParseOutput, ParseExtendedOutput, KeywordFor, SplitKind;
    if line != "" && KeywordOf(SplitKind(line).0).Some? {
      ArgsKeyword(KeywordOf(SplitKind(line).0).value, SplitKind(line).1);
    }
    NoKeywordForUnknown(line);
    if HasPrefix(line, OUTPUT_PREFIX) {
      YieldsOutput(line[|OUTPUT_PREFIX|..]);
    } else if HasPrefix(line, EXTENDED_PREFIX) {
      YieldsExtended(line[|EXTENDED_PREFIX|..]);
    }
  }

  lemma YieldsOutput(rest: string)
    ensures ParseOutput(rest).Some? ==> ParseOutput(rest).value.Output?
  {
    hide ParseId, Output.Decode;
  }

  lemma NoKeywordForUnknown(line: string)
    ensures forall n: Notification :: n.Unknown? ==> KeywordFor(n) == None
  {
  }

  /** A guard that stands outside a block, closing ones included, is kept as it came. */
  lemma {:induction false} GuardIsUnknown(line: string)
    requires ParseGuard(line).Some?
    ensures ParseLine(line) == Unknown(line)
  {
    hide ParseGuard, ParseLine, Says, Spells, Args, ArgsSay;
    var g := ParseGuard(line).value;
    var timestamp, number, flags, bits := ParsedIsSpelled(line, g);
    GuardKeyword(line, g, timestamp, number, flags, bits);
    forall n: Notification ensures !Says(line, n)
    {
      GuardSaysNothing(line, g, n);
    }
    UnknownExactly(line);
  }

  lemma GuardKeyword(line: string, g: Guard, timestamp: string, number: string, flags: string, bits: u32)
    requires Spells(line, g, timestamp, number, flags, bits)
    ensures line != "" && line[0] == '%' && SplitKind(line).0 == GuardName(g.kind)
  {
    hide IsNumeral, Head;
    var rest := timestamp + " " + (number + " " + flags);
    HeadIs(g.kind, rest);
    TailOfCons('%', GuardName(g.kind) + " " + rest);
    SplitOnceAppend(GuardName(g.kind), ' ', rest);
  }

  lemma GuardSaysNothing(line: string, g: Guard, n: Notification)
    requires line != "" && line[0] == '%' && SplitKind(line).0 == GuardName(g.kind)
    ensures !Says(line, n)
  {
    hide ArgsSay, OutputSays, ExtendedSays, Args, SplitKind, KeywordName;
    HeadTail(line);
    HasWord(n);
    if Word(n).Some? {
      KeywordOfNotification(n);
      ArgsAre(line[1..], Word(n).value);
      WordIsNoGuard(n, g.kind);
    } else {
      NeedsPrefix(line, n);
      GuardHasNoOutputPrefix(line, g.kind);
    }
  }

  lemma WordIsNoGuard(n: Notification, kind: GuardKind)
    ensures Word(n) != Some(GuardName(kind))
  {
  }

  lemma GuardHasNoOutputPrefix(line: string, kind: GuardKind)
    requires line != "" && line[0] == '%' && SplitKind(line).0 == GuardName(kind)
    ensures !HasPrefix(line, "%output ") && !HasPrefix(line, "%extended-output ")
  {
    hide SplitKind;
    if HasPrefix(line, "%output ") {
      OutputKind(line, "output");
    } else if HasPrefix(line, "%extended-output ") {
      OutputKind(line, "extended-output");
    }
  }
}
