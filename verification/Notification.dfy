/** The `%`-notification lines: the typed values, the line parser, and the printer that
    writes the lines tmux sends. */
module Notifications {
  import opened Text
  import Output
  import Layouts

  datatype WindowFlags = WindowFlags(
    current: bool, last: bool, activity: bool, bell: bool,
    silence: bool, marked: bool, zoomed: bool, unknown: string)

  datatype Notification =
    | Output(pane: u32, bytes: string)
    | ExtendedOutput(pane: u32, msBehind: u64, bytes: string)
    | LayoutChange(window: u32, layout: Layouts.Layout, visible: Option<Layouts.Layout>, flags: Option<WindowFlags>)
    | WindowAdd(window: u32)
    | WindowClose(window: u32)
    | WindowRenamed(window: u32, name: string)
    | WindowPaneChanged(window: u32, pane: u32)
    | UnlinkedWindowAdd(window: u32)
    | UnlinkedWindowClose(window: u32)
    | UnlinkedWindowRenamed(window: u32, name: string)
    | SessionChanged(session: u32, name: string)
    | SessionRenamed(session: u32, name: string)
    | SessionWindowChanged(session: u32, window: u32)
    | ClientSessionChanged(client: string, session: u32, name: string)
    | SessionsChanged
    | PaneModeChanged(pane: u32)
    | Pause(pane: u32)
    | Continue(pane: u32)
    | SubscriptionChanged(name: string, value: string)
    | Exit(reason: Option<string>)
    | Unknown(line: string)

  /** The keywords the text path recognizes. */
  datatype Keyword =
    | KLayoutChange | KWindowAdd | KWindowClose | KWindowRenamed | KWindowPaneChanged
    | KUnlinkedWindowAdd | KUnlinkedWindowClose | KUnlinkedWindowRenamed
    | KSessionChanged | KSessionRenamed | KSessionWindowChanged | KClientSessionChanged | KSessionsChanged
    | KPaneModeChanged | KPause | KContinue | KSubscriptionChanged | KExit

  function KeywordName(k: Keyword): string {
    match k
    case KLayoutChange => "layout-change"
    case KWindowAdd => "window-add"
    case KWindowClose => "window-close"
    case KWindowRenamed => "window-renamed"
    case KWindowPaneChanged => "window-pane-changed"
    case KUnlinkedWindowAdd => "unlinked-window-add"
    case KUnlinkedWindowClose => "unlinked-window-close"
    case KUnlinkedWindowRenamed => "unlinked-window-renamed"
    case KSessionChanged => "session-changed"
    case KSessionRenamed => "session-renamed"
    case KSessionWindowChanged => "session-window-changed"
    case KClientSessionChanged => "client-session-changed"
    case KSessionsChanged => "sessions-changed"
    case KPaneModeChanged => "pane-mode-changed"
    case KPause => "pause"
    case KContinue => "continue"
    case KSubscriptionChanged => "subscription-changed"
    case KExit => "exit"
  }

  function KeywordOf(kind: string): Option<Keyword> {
    if kind == "layout-change" then Some(KLayoutChange)
    else if kind == "window-add" then Some(KWindowAdd)
    else if kind == "window-close" then Some(KWindowClose)
    else if kind == "window-renamed" then Some(KWindowRenamed)
    else if kind == "window-pane-changed" then Some(KWindowPaneChanged)
    else if kind == "unlinked-window-add" then Some(KUnlinkedWindowAdd)
    else if kind == "unlinked-window-close" then Some(KUnlinkedWindowClose)
    else if kind == "unlinked-window-renamed" then Some(KUnlinkedWindowRenamed)
    else if kind == "session-changed" then Some(KSessionChanged)
    else if kind == "session-renamed" then Some(KSessionRenamed)
    else if kind == "session-window-changed" then Some(KSessionWindowChanged)
    else if kind == "client-session-changed" then Some(KClientSessionChanged)
    else if kind == "sessions-changed" then Some(KSessionsChanged)
    else if kind == "pane-mode-changed" then Some(KPaneModeChanged)
    else if kind == "pause" then Some(KPause)
    else if kind == "continue" then Some(KContinue)
    else if kind == "subscription-changed" then Some(KSubscriptionChanged)
    else if kind == "exit" then Some(KExit)
    else None
  }

  // ---- Parsing -------------------------------------------------------------------

  /** A sigil'd id token. */
  function ParseId(token: string, sigil: char): Option<u32> {
    if token != "" && token[0] == sigil then ParseUint(token[1..], U32_MAX) else None
  }

  function FirstField(args: string): string { Split(args, ' ')[0] }

  function AddFlag(flags: WindowFlags, c: char): WindowFlags {
    match c
    case '*' => flags.(current := true)
    case '-' => flags.(last := true)
    case '#' => flags.(activity := true)
    case '!' => flags.(bell := true)
    case '~' => flags.(silence := true)
    case 'M' => flags.(marked := true)
    case 'Z' => flags.(zoomed := true)
    case other => flags.(unknown := flags.unknown + [other])
  }

  function AddFlags(flags: WindowFlags, field: string): WindowFlags
    decreases |field|
  {
    if field == "" then flags else AddFlags(AddFlag(flags, field[0]), field[1..])
  }

  const NO_FLAGS := WindowFlags(false, false, false, false, false, false, false, "")

  function FlagsOf(field: string): WindowFlags { AddFlags(NO_FLAGS, field) }

  method ParseWindowFlags(field: string) returns (flags: WindowFlags)
    ensures flags == FlagsOf(field)
  {
    flags := NO_FLAGS;
    for k := 0 to |field|
      invariant FlagsOf(field) == AddFlags(flags, field[k..])
    {
      assert field[k..][1..] == field[k + 1..];
      match field[k]
      case '*' => flags := flags.(current := true);
      case '-' => flags := flags.(last := true);
      case '#' => flags := flags.(activity := true);
      case '!' => flags := flags.(bell := true);
      case '~' => flags := flags.(silence := true);
      case 'M' => flags := flags.(marked := true);
      case 'Z' => flags := flags.(zoomed := true);
      case other => flags := flags.(unknown := flags.unknown + [other]);
    }
  }

  /** A window, a layout, and if there are more fields a visible layout and flags;
      any fifth field is ignored. */
  function LayoutChangeOfFields(fields: seq<string>): Option<Notification> {
    if |fields| < 2 then None
    else
      match (ParseId(fields[0], '@'), Layouts.Parse(fields[1]))
      case (Some(window), Success(layout)) =>
        if |fields| == 2 then Some(LayoutChange(window, layout, None, None))
        else
          (match Layouts.Parse(fields[2])
           case Success(visible) =>
             var flags := if |fields| == 3 then None else Some(FlagsOf(fields[3]));
             Some(LayoutChange(window, layout, Some(visible), flags))
           case Failure(_) => None)
      case _ => None
  }

  function ParseLayoutChange(args: string): Option<Notification> {
    LayoutChangeOfFields(Split(args, ' '))
  }

  /** `<id> <remainder>` */
  function ParseIdName(args: string, sigil: char): Option<(u32, string)> {
    var (token, name) :- SplitOnce(args, ' ');
    var id :- ParseId(token, sigil);
    Some((id, name))
  }

  function ParseTwoIds(args: string, sigil1: char, sigil2: char): Option<(u32, u32)> {
    var (token1, token2) :- SplitOnce(args, ' ');
    var id1 :- ParseId(token1, sigil1);
    var id2 :- ParseId(token2, sigil2);
    Some((id1, id2))
  }

  function ParseClientSessionChanged(args: string): Option<Notification> {
    var (client, rest) :- SplitOnce(args, ' ');
    var (session, name) :- ParseIdName(rest, '$');
    Some(ClientSessionChanged(client, session, name))
  }

  function ParseSubscription(args: string): Notification {
    var value := match FindSubslice(args, " : ") case None => "" case Some(i) => args[i + 3..];
    SubscriptionChanged(FirstField(args), value)
  }

  function OptionalReason(args: string): Option<string> {
    if Trim(args) == "" then None else Some(Trim(args))
  }

  function FirstId(args: string, sigil: char): Option<u32> { ParseId(FirstField(args), sigil) }

  function ParseArgs(k: Keyword, args: string): Option<Notification> {
    match k
    case KLayoutChange => ParseLayoutChange(args)
    case KWindowAdd => var w :- FirstId(args, '@'); Some(WindowAdd(w))
    case KWindowClose => var w :- FirstId(args, '@'); Some(WindowClose(w))
    case KWindowRenamed => var (w, name) :- ParseIdName(args, '@'); Some(WindowRenamed(w, name))
    case KWindowPaneChanged => var (w, p) :- ParseTwoIds(args, '@', '%'); Some(WindowPaneChanged(w, p))
    case KUnlinkedWindowAdd => var w :- FirstId(args, '@'); Some(UnlinkedWindowAdd(w))
    case KUnlinkedWindowClose => var w :- FirstId(args, '@'); Some(UnlinkedWindowClose(w))
    case KUnlinkedWindowRenamed => var (w, name) :- ParseIdName(args, '@'); Some(UnlinkedWindowRenamed(w, name))
    case KSessionChanged => var (s, name) :- ParseIdName(args, '$'); Some(SessionChanged(s, name))
    case KSessionRenamed => var (s, name) :- ParseIdName(args, '$'); Some(SessionRenamed(s, name))
    case KSessionWindowChanged => var (s, w) :- ParseTwoIds(args, '$', '@'); Some(SessionWindowChanged(s, w))
    case KClientSessionChanged => ParseClientSessionChanged(args)
    case KSessionsChanged => Some(SessionsChanged)
    case KPaneModeChanged => var p :- FirstId(args, '%'); Some(PaneModeChanged(p))
    case KPause => var p :- FirstId(args, '%'); Some(Pause(p))
    case KContinue => var p :- FirstId(args, '%'); Some(Continue(p))
    case KSubscriptionChanged => Some(ParseSubscription(args))
    case KExit => Some(Exit(OptionalReason(args)))
  }

  /** The keyword token of a `%`-line, and what follows the first space. */
  function SplitKind(line: string): (string, string)
    requires line != ""
  {
    match SplitOnce(line[1..], ' ')
    case None => (line[1..], "")
    case Some((kind, args)) => (kind, args)
  }

  function ParseNotification(line: string): Notification {
    if line == "" || line[0] != '%' then Unknown(line)
    else
      var (kind, args) := SplitKind(line);
      match KeywordOf(kind)
      case None => Unknown(line)
      case Some(k) => match ParseArgs(k, args) case None => Unknown(line) case Some(n) => n
  }

  function ParseOutput(rest: string): Option<Notification> {
    var sp := IndexOf(rest, ' ');
    var data := if sp < |rest| then rest[sp + 1..] else "";
    var pane :- ParseId(rest[..sp], '%');
    Some(Output(pane, Output.Decode(data)))
  }

  function ParseExtendedOutput(rest: string): Option<Notification> {
    var (token, tail) :- SplitOnce(rest, ' ');
    var pane :- ParseId(token, '%');
    var sep :- FindSubslice(tail, " : ");
    var ms :- ParseUint(tail[..sep], U64_MAX);
    Some(ExtendedOutput(pane, ms, Output.Decode(tail[sep + 3..])))
  }

  const OUTPUT_PREFIX := "%output "
  const EXTENDED_PREFIX := "%extended-output "

  /** The byte path: an output line, malformed ones included; `None` for any other line. */
  function ParseOutputLine(line: string): Option<Notification> {
    if HasPrefix(line, OUTPUT_PREFIX) then
      (match ParseOutput(line[|OUTPUT_PREFIX|..]) case None => Some(Unknown(line)) case Some(n) => Some(n))
    else if HasPrefix(line, EXTENDED_PREFIX) then
      (match ParseExtendedOutput(line[|EXTENDED_PREFIX|..]) case None => Some(Unknown(line)) case Some(n) => Some(n))
    else None
  }

  lemma PrefixChar(s: string, prefix: string, i: nat)
    requires HasPrefix(s, prefix) && i < |prefix|
    ensures s[i] == prefix[i]
  {
    assert s[..|prefix|][i] == s[i];
  }

  /** A line whose second character rules out the output keywords takes the text path. */
  lemma NotAnOutputLine(line: string)
    requires |line| >= 4 && line[1] != 'o' && (line[1] == 'e' ==> line[3] != 't')
    ensures ParseOutputLine(line) == None
  {
    if HasPrefix(line, OUTPUT_PREFIX) {
      PrefixChar(line, OUTPUT_PREFIX, 1);
      assert false;
    }
    if HasPrefix(line, EXTENDED_PREFIX) {
      PrefixChar(line, EXTENDED_PREFIX, 1);
      PrefixChar(line, EXTENDED_PREFIX, 3);
      assert false;
    }
  }

  /** What a line means outside a reply block, when it is not a guard. */
  function ParseLine(line: string): Notification {
    match ParseOutputLine(line)
    case Some(n) => n
    case None => ParseNotification(line)
  }

  // ---- Printing ------------------------------------------------------------------

  function Id(sigil: char, id: u32): string { [sigil] + Decimal(id) }

  function Mark(on: bool, c: char): string { if on then [c] else "" }

  function FlagChars(f: WindowFlags): string {
    Mark(f.current, '*') + Mark(f.last, '-') + Mark(f.activity, '#') + Mark(f.bell, '!') +
    Mark(f.silence, '~') + Mark(f.marked, 'M') + Mark(f.zoomed, 'Z')
  }

  function PrintFlags(f: WindowFlags): string { FlagChars(f) + f.unknown }

  function KeywordFor(n: Notification): Option<Keyword> {
    match n
    case Output(_, _) => None
    case ExtendedOutput(_, _, _) => None
    case LayoutChange(_, _, _, _) => Some(KLayoutChange)
    case WindowAdd(_) => Some(KWindowAdd)
    case WindowClose(_) => Some(KWindowClose)
    case WindowRenamed(_, _) => Some(KWindowRenamed)
    case WindowPaneChanged(_, _) => Some(KWindowPaneChanged)
    case UnlinkedWindowAdd(_) => Some(KUnlinkedWindowAdd)
    case UnlinkedWindowClose(_) => Some(KUnlinkedWindowClose)
    case UnlinkedWindowRenamed(_, _) => Some(KUnlinkedWindowRenamed)
    case SessionChanged(_, _) => Some(KSessionChanged)
    case SessionRenamed(_, _) => Some(KSessionRenamed)
    case SessionWindowChanged(_, _) => Some(KSessionWindowChanged)
    case ClientSessionChanged(_, _, _) => Some(KClientSessionChanged)
    case SessionsChanged => Some(KSessionsChanged)
    case PaneModeChanged(_) => Some(KPaneModeChanged)
    case Pause(_) => Some(KPause)
    case Continue(_) => Some(KContinue)
    case SubscriptionChanged(_, _) => Some(KSubscriptionChanged)
    case Exit(_) => Some(KExit)
    case Unknown(_) => None
  }

  function PrintLayouts(layout: Layouts.Layout, visible: Option<Layouts.Layout>, flags: Option<WindowFlags>): string {
    match visible
    case None => Layouts.ToLayoutString(layout)
    case Some(v) =>
      Layouts.ToLayoutString(layout) + " " +
      (match flags
       case None => Layouts.ToLayoutString(v)
       case Some(f) => Layouts.ToLayoutString(v) + " " + PrintFlags(f))
  }

  /** The arguments after the keyword, if there are any.  `header` stands for the
      `<session> <window> <index> <pane>` fields of a subscription line. */
  function PrintArgs(n: Notification, header: string): Option<string>
    requires KeywordFor(n).Some?
  {
    match n
    case LayoutChange(w, layout, visible, flags) => Some(Id('@', w) + " " + PrintLayouts(layout, visible, flags))
    case WindowAdd(w) => Some(Id('@', w))
    case WindowClose(w) => Some(Id('@', w))
    case WindowRenamed(w, name) => Some(Id('@', w) + " " + name)
    case WindowPaneChanged(w, p) => Some(Id('@', w) + " " + Id('%', p))
    case UnlinkedWindowAdd(w) => Some(Id('@', w))
    case UnlinkedWindowClose(w) => Some(Id('@', w))
    case UnlinkedWindowRenamed(w, name) => Some(Id('@', w) + " " + name)
    case SessionChanged(s, name) => Some(Id('$', s) + " " + name)
    case SessionRenamed(s, name) => Some(Id('$', s) + " " + name)
    case SessionWindowChanged(s, w) => Some(Id('$', s) + " " + Id('@', w))
    case ClientSessionChanged(client, s, name) => Some(client + " " + (Id('$', s) + " " + name))
    case SessionsChanged => None
    case PaneModeChanged(p) => Some(Id('%', p))
    case Pause(p) => Some(Id('%', p))
    case Continue(p) => Some(Id('%', p))
    case SubscriptionChanged(name, value) => Some(name + " " + (header + (" : " + value)))
    case Exit(reason) => reason
  }

  /** The line tmux writes for a notification. */
  function PrintNote(n: Notification, header: string): string {
    match n
    case Output(pane, bytes) => OUTPUT_PREFIX + (Id('%', pane) + " " + Output.Encode(bytes))
    case ExtendedOutput(pane, ms, bytes) =>
      EXTENDED_PREFIX + (Id('%', pane) + " " + (Decimal(ms) + " : " + Output.Encode(bytes)))
    case Unknown(line) => line
    case _ =>
      match PrintArgs(n, header)
      case None => "%" + KeywordName(KeywordFor(n).value)
      case Some(args) => "%" + (KeywordName(KeywordFor(n).value) + " " + args)
  }
}
