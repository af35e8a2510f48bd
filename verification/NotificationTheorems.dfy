/** Printing a notification and parsing the line gives it back, exactly when its fields
    can be told apart on the wire. */
module NotificationTheorems {
  import opened Text
  import opened Notifications
  import Output
  import Layouts
  import opened LayoutTheorems

  predicate KnownFlag(c: char) {
    c == '*' || c == '-' || c == '#' || c == '!' || c == '~' || c == 'M' || c == 'Z'
  }

  /** No unknown flag character is a known one, or the field separator. */
  predicate PlainFlags(f: WindowFlags) {
    forall k :: 0 <= k < |f.unknown| ==> !KnownFlag(f.unknown[k]) && f.unknown[k] != ' '
  }

  /** A subscription's ids, between its name and its value. */
  predicate PlainHeader(header: string) { ':' !in header }

  /** The fields the line format can carry. */
  predicate Admissible(n: Notification)
    requires !n.Unknown?
  {
    match n
    case LayoutChange(_, layout, visible, flags) =>
      && Parsable(layout) && (visible.Some? ==> Parsable(visible.value))
      && (flags.Some? ==> visible.Some? && PlainFlags(flags.value))
    case ClientSessionChanged(client, _, _) => ' ' !in client
    case SubscriptionChanged(name, _) => ' ' !in name
    case Exit(reason) => reason.Some? ==> reason.value != "" && Trim(reason.value) == reason.value
    case _ => true
  }

  // ---- Keywords ------------------------------------------------------------------

  predicate IsWindowKeyword(k: Keyword) {
    k.KLayoutChange? || k.KWindowAdd? || k.KWindowClose? || k.KWindowRenamed? || k.KWindowPaneChanged?
  }

  predicate IsUnlinkedKeyword(k: Keyword) {
    k.KUnlinkedWindowAdd? || k.KUnlinkedWindowClose? || k.KUnlinkedWindowRenamed?
  }

  predicate IsSessionKeyword(k: Keyword) {
    k.KSessionChanged? || k.KSessionRenamed? || k.KSessionWindowChanged?
    || k.KClientSessionChanged? || k.KSessionsChanged?
  }

  lemma WindowKeyword(k: Keyword)
    requires IsWindowKeyword(k)
    ensures KeywordOf(KeywordName(k)) == Some(k)
  {
  }

  lemma UnlinkedKeyword(k: Keyword)
    requires IsUnlinkedKeyword(k)
    ensures KeywordOf(KeywordName(k)) == Some(k)
  {
  }

  lemma SessionKeyword(k: Keyword)
    requires IsSessionKeyword(k)
    ensures KeywordOf(KeywordName(k)) == Some(k)
  {
  }

  predicate IsFlowKeyword(k: Keyword) { k.KPaneModeChanged? || k.KPause? || k.KContinue? }

  lemma FlowKeyword(k: Keyword)
    requires IsFlowKeyword(k)
    ensures KeywordOf(KeywordName(k)) == Some(k)
  {
  }

  lemma OtherKeyword(k: Keyword)
    requires k.KSubscriptionChanged? || k.KExit?
    ensures KeywordOf(KeywordName(k)) == Some(k)
  {
  }

  /** Keywords are told apart by their names. */
  lemma KeywordRoundTrip(k: Keyword)
    ensures KeywordOf(KeywordName(k)) == Some(k)
  {
    if IsWindowKeyword(k) {
      WindowKeyword(k);
    } else if IsUnlinkedKeyword(k) {
      UnlinkedKeyword(k);
    } else if IsSessionKeyword(k) {
      SessionKeyword(k);
    } else if IsFlowKeyword(k) {
      FlowKeyword(k);
    } else {
      OtherKeyword(k);
    }
  }

  lemma WindowIsOneWord(k: Keyword)
    requires IsWindowKeyword(k)
    ensures ' ' !in KeywordName(k)
  {
  }

  lemma UnlinkedIsOneWord(k: Keyword)
    requires IsUnlinkedKeyword(k)
    ensures ' ' !in KeywordName(k)
  {
  }

  lemma SessionIsOneWord(k: Keyword)
    requires IsSessionKeyword(k)
    ensures ' ' !in KeywordName(k)
  {
  }

  lemma OtherIsOneWord(k: Keyword)
    requires !IsWindowKeyword(k) && !IsUnlinkedKeyword(k) && !IsSessionKeyword(k)
    ensures ' ' !in KeywordName(k)
  {
  }

  /** No keyword holds the field separator. */
  lemma KeywordIsOneWord(k: Keyword)
    ensures ' ' !in KeywordName(k)
  {
    if IsWindowKeyword(k) {
      WindowIsOneWord(k);
    } else if IsUnlinkedKeyword(k) {
      UnlinkedIsOneWord(k);
    } else if IsSessionKeyword(k) {
      SessionIsOneWord(k);
    } else {
      OtherIsOneWord(k);
    }
  }

  /** No keyword starts an output line. */
  lemma KeywordStart(k: Keyword)
    ensures var name := KeywordName(k);
            |name| >= 4 && name[0] != 'o' && (name[0] == 'e' ==> name[2] == 'i')
  {
  }

  /** No keyword is a guard's. */
  lemma KeywordIsNoGuard(k: Keyword)
    ensures KeywordName(k) != "begin" && KeywordName(k) != "end" && KeywordName(k) != "error"
  {
  }

  lemma SplitKindOfWord(name: string, args: string)
    requires ' ' !in name
    ensures SplitKind("%" + name) == (name, "")
    ensures SplitKind("%" + (name + " " + args)) == (name, args)
  {
    assert ("%" + name)[1..] == name;
    IndexOfNone(name, ' ');
    assert ("%" + (name + " " + args))[1..] == name + " " + args;
    SplitOnceAppend(name, ' ', args);
  }

  lemma PrintedTakesTextPath(n: Notification, header: string)
    requires KeywordFor(n).Some?
    ensures ParseOutputLine(PrintNote(n, header)) == None
  {
    var k := KeywordFor(n).value;
    KeywordStart(k);
    var line := PrintNote(n, header);
    assert line[1] == KeywordName(k)[0] && line[3] == KeywordName(k)[2];
    NotAnOutputLine(line);
  }

  lemma PrintedKind(n: Notification, header: string)
    requires KeywordFor(n).Some?
    ensures var line := PrintNote(n, header);
            line != "" && line[0] == '%' && SplitKind(line) == (KeywordName(KeywordFor(n).value), ArgsOf(n, header))
  {
    var k := KeywordFor(n).value;
    KeywordIsOneWord(k);
    SplitKindOfWord(KeywordName(k), ArgsOf(n, header));
  }

  // ---- Fields --------------------------------------------------------------------

  lemma ParseIdOfId(sigil: char, id: u32)
    ensures ParseId(Id(sigil, id), sigil) == Some(id)
  {
    assert Id(sigil, id)[1..] == Decimal(id);
    ParseUintDecimal(id, U32_MAX);
  }

  lemma IdLacks(sigil: char, id: u32, c: char)
    requires c != sigil && !IsDigit(c)
    ensures c !in Id(sigil, id)
  {
    DecimalLacks(id, c);
  }

  lemma FirstFieldOfId(sigil: char, id: u32)
    requires sigil != ' '
    ensures ParseId(FirstField(Id(sigil, id)), sigil) == Some(id)
  {
    IdLacks(sigil, id, ' ');
    SplitNone(Id(sigil, id), ' ');
    ParseIdOfId(sigil, id);
  }

  lemma IdNameRoundTrip(sigil: char, id: u32, name: string)
    requires sigil != ' '
    ensures ParseIdName(Id(sigil, id) + " " + name, sigil) == Some((id, name))
  {
    IdLacks(sigil, id, ' ');
    SplitOnceAppend(Id(sigil, id), ' ', name);
    ParseIdOfId(sigil, id);
  }

  lemma TwoIdsRoundTrip(sigil1: char, id1: u32, sigil2: char, id2: u32)
    requires sigil1 != ' '
    ensures ParseTwoIds(Id(sigil1, id1) + " " + Id(sigil2, id2), sigil1, sigil2) == Some((id1, id2))
  {
    IdLacks(sigil1, id1, ' ');
    SplitOnceAppend(Id(sigil1, id1), ' ', Id(sigil2, id2));
    ParseIdOfId(sigil1, id1);
    ParseIdOfId(sigil2, id2);
  }

  /** A field with a separator inside comes back shorter. */
  lemma FieldWithSpace(name: string, rest: string)
    requires ' ' in name
    ensures IndexOf(name + " " + rest, ' ') < |name|
  {
    var i := IndexOf(name, ' ');
    IndexOfNone(name, ' ');
    assert name == name[..i] + " " + name[i + 1..];
    IndexOfAppend(name[..i], ' ', name[i + 1..] + " " + rest);
    assert name + " " + rest == name[..i] + " " + (name[i + 1..] + " " + rest);
  }

  lemma ClientRoundTrip(client: string, session: u32, name: string)
    ensures (ParseClientSessionChanged(client + " " + (Id('$', session) + " " + name))
             == Some(ClientSessionChanged(client, session, name)))
       <==> ' ' !in client
  {
    var rest := Id('$', session) + " " + name;
    if ' ' in client {
      FieldWithSpace(client, rest);
    } else {
      SplitOnceAppend(client, ' ', rest);
      IdNameRoundTrip('$', session, name);
    }
  }

  /** No colon right after a space. */
  predicate NoColonAfterSpace(a: string) { forall j :: 0 < j < |a| && a[j] == ':' ==> a[j - 1] != ' ' }

  /** Such text does not hide the separator after it. */
  lemma {:induction false} FindSeparatorAfter(a: string, value: string)
    requires NoColonAfterSpace(a)
    ensures FindSubslice(a + (" : " + value), " : ") == Some(|a|)
  {
    var s := a + (" : " + value);
    if a == "" {
      assert s[..3] == " : ";
    } else {
      assert s[0] == a[0] && s[1] == (if |a| > 1 then a[1] else ' ');
      assert s[..3] != " : " by {
        assert s[..3][0] == s[0] && s[..3][1] == s[1];
      }
      assert s[1..] == a[1..] + (" : " + value);
      FindSeparatorAfter(a[1..], value);
    }
  }

  lemma PlainHeaderHasNone(name: string, header: string)
    requires ' ' !in name && PlainHeader(header)
    ensures NoColonAfterSpace(name + " " + header)
  {
    var a := name + " " + header;
    assert forall j :: |name| < j < |a| ==> a[j] == header[j - |name| - 1];
    assert forall j :: 0 <= j < |name| ==> a[j] == name[j];
  }

  lemma SubscriptionValue(named: string, header: string, value: string)
    requires NoColonAfterSpace(named + header)
    ensures FindSubslice(named + (header + (" : " + value)), " : ") == Some(|named| + |header|)
  {
    hide FindSubslice, NoColonAfterSpace;
    FindSeparatorAfter(named + header, value);
    FoundRegrouped(named, header, " : " + value, " : ");
  }

  lemma FoundRegrouped(a: string, b: string, c: string, needle: string)
    requires FindSubslice((a + b) + c, needle) == Some(|a + b|)
    ensures FindSubslice(a + (b + c), needle) == Some(|a| + |b|)
  {
    hide FindSubslice;
    ConcatAssoc(a, b, c);
  }

  lemma AfterPrefix(p: string, value: string)
    ensures (p + value)[|p|..] == value
  {
  }

  lemma AfterSeparator(name: string, header: string, value: string)
    ensures (name + " " + (header + (" : " + value)))[|name| + 1 + |header| + 3..] == value
  {
    ConcatAssoc(header, " : ", value);
    ConcatAssoc(name + " ", header + " : ", value);
    AfterPrefix(name + " " + (header + " : "), value);
  }

  lemma SubscriptionRoundTrip(name: string, header: string, value: string)
    requires PlainHeader(header)
    ensures (ParseSubscription(name + " " + (header + (" : " + value))) == SubscriptionChanged(name, value))
       <==> ' ' !in name
  {
    hide FindSubslice, IndexOf, Split, PlainHeader, NoColonAfterSpace;
    var rest := header + (" : " + value);
    var s := name + " " + rest;
    SplitHead(s, ' ');
    if ' ' in name {
      FieldWithSpace(name, rest);
    } else {
      PlainHeaderHasNone(name, header);
      SubscriptionValue(name + " ", header, value);
      IndexOfAppend(name, ' ', rest);
      AfterPrefixOnly(name, " " + rest);
      AfterSeparator(name, header, value);
    }
  }

  lemma AfterPrefixOnly(p: string, rest: string)
    ensures (p + rest)[..|p|] == p
  {
  }

  // ---- Flags ---------------------------------------------------------------------

  lemma {:induction false} AddFlagsAppend(f: WindowFlags, a: string, b: string)
    ensures AddFlags(f, a + b) == AddFlags(AddFlags(f, a), b)
    decreases |a|
  {
    if a == "" {
      assert a + b == b;
    } else {
      assert (a + b)[1..] == a[1..] + b;
      AddFlagsAppend(AddFlag(f, a[0]), a[1..], b);
    }
  }

  lemma {:induction false} AddUnknownFlags(f: WindowFlags, s: string)
    requires forall k :: 0 <= k < |s| ==> !KnownFlag(s[k])
    ensures AddFlags(f, s) == f.(unknown := f.unknown + s)
    decreases |s|
  {
    if s == "" {
      assert f.unknown + s == f.unknown;
    } else {
      AddUnknownFlags(AddFlag(f, s[0]), s[1..]);
      ConcatAssoc(f.unknown, [s[0]], s[1..]);
      assert [s[0]] + s[1..] == s;
    }
  }

  lemma AddMark(before: string, f: WindowFlags, on: bool, c: char)
    requires FlagsOf(before) == f
    ensures FlagsOf(before + Mark(on, c)) == if on then AddFlag(f, c) else f
  {
    AddFlagsAppend(NO_FLAGS, before, Mark(on, c));
    assert on ==> AddFlags(f, [c]) == AddFlags(AddFlag(f, c), "");
  }

  lemma AddFirstFlags(f: WindowFlags)
    ensures FlagsOf(Mark(f.current, '*') + Mark(f.last, '-') + Mark(f.activity, '#') + Mark(f.bell, '!'))
         == WindowFlags(f.current, f.last, f.activity, f.bell, false, false, false, "")
  {
    var s1, f1 := Mark(f.current, '*'), NO_FLAGS.(current := f.current);
    assert "" + s1 == s1;
    AddMark("", NO_FLAGS, f.current, '*');
    var s2, f2 := s1 + Mark(f.last, '-'), f1.(last := f.last);
    AddMark(s1, f1, f.last, '-');
    var s3, f3 := s2 + Mark(f.activity, '#'), f2.(activity := f.activity);
    AddMark(s2, f2, f.activity, '#');
    AddMark(s3, f3, f.bell, '!');
  }

  lemma AddFlagChars(f: WindowFlags)
    ensures FlagsOf(FlagChars(f)) == f.(unknown := "")
  {
    var s4 := Mark(f.current, '*') + Mark(f.last, '-') + Mark(f.activity, '#') + Mark(f.bell, '!');
    var f4 := WindowFlags(f.current, f.last, f.activity, f.bell, false, false, false, "");
    AddFirstFlags(f);
    var s5, f5 := s4 + Mark(f.silence, '~'), f4.(silence := f.silence);
    AddMark(s4, f4, f.silence, '~');
    var s6, f6 := s5 + Mark(f.marked, 'M'), f5.(marked := f.marked);
    AddMark(s5, f5, f.marked, 'M');
    AddMark(s6, f6, f.zoomed, 'Z');
  }

  lemma AddFlagSays(flags: WindowFlags, c: char)
    ensures AddFlag(flags, c) == WindowFlags(
              flags.current || c == '*', flags.last || c == '-', flags.activity || c == '#', flags.bell || c == '!',
              flags.silence || c == '~', flags.marked || c == 'M', flags.zoomed || c == 'Z',
              flags.unknown + (if KnownFlag(c) then "" else [c]))
  {
    assert flags.unknown + "" == flags.unknown;
  }

  lemma UnknownAfterFlag(f: WindowFlags, c: char)
    ensures KnownFlag(c) ==> AddFlag(f, c).unknown == f.unknown
    ensures !KnownFlag(c) ==> AddFlag(f, c).unknown == f.unknown + [c]
  {
    hide AddFlag;
    AddFlagSays(f, c);
    assert f.unknown + "" == f.unknown;
  }

  /** Every character read adds at most itself, and a known one adds nothing. */
  lemma {:induction false} AddFlagsLength(f: WindowFlags, s: string)
    ensures |AddFlags(f, s).unknown| <= |f.unknown| + |s|
    ensures (exists k :: 0 <= k < |s| && KnownFlag(s[k])) ==> |AddFlags(f, s).unknown| < |f.unknown| + |s|
    decreases |s|
  {
    if s != "" {
      UnknownAfterFlag(f, s[0]);
      AddFlagsLength(AddFlag(f, s[0]), s[1..]);
      if k :| 0 < k < |s| && KnownFlag(s[k]) {
        assert s[1..][k - 1] == s[k];
      }
    }
  }

  lemma FlagsOfPrinted(f: WindowFlags, shown: string)
    ensures FlagsOf(FlagChars(f) + shown) == AddFlags(f.(unknown := ""), shown)
  {
    AddFlagChars(f);
    AddFlagsAppend(NO_FLAGS, FlagChars(f), shown);
  }

  lemma FlagCharsLackSpace(f: WindowFlags)
    ensures ' ' !in FlagChars(f)
  {
  }

  /** The flags field of a line, cut at its first space, reads back as the flags that
      were printed exactly when those were plain. */
  lemma FlagsRoundTrip(f: WindowFlags)
    ensures FlagsOf(FirstField(PrintFlags(f))) == f <==> PlainFlags(f)
  {
    hide FlagChars, AddFlags, FirstField, IndexOf, AddFlag;
    var i := IndexOf(f.unknown, ' ');
    var shown := f.unknown[..i];
    FirstFieldOfFlags(f);
    FlagsOfPrinted(f, shown);
    AddFlagsLength(f.(unknown := ""), shown);
    IndexOfNone(f.unknown, ' ');
    if i == |f.unknown| {
      assert shown == f.unknown;
      if PlainFlags(f) {
        AddUnknownFlags(f.(unknown := ""), f.unknown);
        assert "" + f.unknown == f.unknown;
      }
    }
  }

  lemma FirstFieldOfFlags(f: WindowFlags)
    ensures FirstField(PrintFlags(f)) == FlagChars(f) + f.unknown[..IndexOf(f.unknown, ' ')]
  {
    var known, i := FlagChars(f), IndexOf(f.unknown, ' ');
    var s := known + f.unknown;
    FlagCharsLackSpace(f);
    if i == |f.unknown| {
      IndexOfNone(f.unknown, ' ');
      assert f.unknown[..i] == f.unknown;
      SplitNone(s, ' ');
    } else {
      SplitAt(f.unknown, i);
      ConcatAssoc(known, f.unknown[..i] + " ", f.unknown[i + 1..]);
      ConcatAssoc(known, f.unknown[..i], " ");
      SplitAppend(known + f.unknown[..i], ' ', f.unknown[i + 1..]);
    }
  }

  // ---- Layout changes ------------------------------------------------------------

  lemma TwoFields(a: string, b: string)
    requires ' ' !in a && ' ' !in b
    ensures Split(a + " " + b, ' ') == [a, b]
  {
    SplitAppend(a, ' ', b);
    SplitNone(b, ' ');
  }

  lemma ThreeFields(a: string, b: string, c: string)
    requires ' ' !in a && ' ' !in b && ' ' !in c
    ensures Split(a + " " + (b + " " + c), ' ') == [a, b, c]
  {
    SplitAppend(a, ' ', b + " " + c);
    TwoFields(b, c);
  }

  lemma FourFields(a: string, b: string, c: string, d: string) returns (fields: seq<string>)
    requires ' ' !in a && ' ' !in b && ' ' !in c
    ensures Split(a + " " + (b + " " + (c + " " + d)), ' ') == fields
    ensures |fields| >= 4 && fields[0] == a && fields[1] == b && fields[2] == c && fields[3] == FirstField(d)
  {
    var cd := c + " " + d;
    var bcd := b + " " + cd;
    SplitAppend(a, ' ', bcd);
    SplitAppend(b, ' ', cd);
    SplitAppend(c, ' ', d);
    fields := [a] + ([b] + ([c] + Split(d, ' ')));
  }

  /** Which fields make which layout change. */
  lemma FieldsOfLayoutChange(fields: seq<string>, w: u32, layout: Layouts.Layout,
                             visible: Option<Layouts.Layout>, flags: Option<WindowFlags>)
    requires |fields| >= 2 && ParseId(fields[0], '@') == Some(w)
    ensures LayoutChangeOfFields(fields) == Some(LayoutChange(w, layout, visible, flags)) <==>
            && Layouts.Parse(fields[1]) == Layouts.Success(layout)
            && (visible.Some? <==> |fields| > 2)
            && (visible.Some? ==> Layouts.Parse(fields[2]) == Layouts.Success(visible.value))
            && flags == if |fields| <= 3 then None else Some(FlagsOf(fields[3]))
  {
    hide Layouts.Parse, ParseId, FlagsOf;
  }

  lemma WindowAndLayout(w: u32, layout: Layouts.Layout)
    ensures ' ' !in Id('@', w) && ParseId(Id('@', w), '@') == Some(w) && ' ' !in Layouts.ToLayoutString(layout)
    ensures Layouts.Parse(Layouts.ToLayoutString(layout)) == Layouts.Success(layout) <==> Parsable(layout)
  {
    IdLacks('@', w, ' ');
    ParseIdOfId('@', w);
    ParseOfPrinted(layout);
    ToLayoutStringLacks(layout, ' ');
  }

  lemma LayoutOnlyRoundTrip(w: u32, layout: Layouts.Layout, flags: Option<WindowFlags>)
    ensures (ParseLayoutChange(Id('@', w) + " " + PrintLayouts(layout, None, flags))
         == Some(LayoutChange(w, layout, None, flags)))
       <==> Parsable(layout) && flags == None
  {
    var id, text := Id('@', w), Layouts.ToLayoutString(layout);
    WindowAndLayout(w, layout);
    TwoFields(id, text);
    FieldsOfLayoutChange([id, text], w, layout, None, flags);
  }

  lemma VisibleLayoutRoundTrip(w: u32, layout: Layouts.Layout, v: Layouts.Layout)
    ensures (ParseLayoutChange(Id('@', w) + " " + PrintLayouts(layout, Some(v), None))
         == Some(LayoutChange(w, layout, Some(v), None)))
       <==> Parsable(layout) && Parsable(v)
  {
    var id, text, text' := Id('@', w), Layouts.ToLayoutString(layout), Layouts.ToLayoutString(v);
    WindowAndLayout(w, layout);
    WindowAndLayout(w, v);
    ThreeFields(id, text, text');
    FieldsOfLayoutChange([id, text, text'], w, layout, Some(v), None);
  }

  lemma LayoutFlagsRoundTrip(w: u32, layout: Layouts.Layout, v: Layouts.Layout, f: WindowFlags)
    ensures (ParseLayoutChange(Id('@', w) + " " + PrintLayouts(layout, Some(v), Some(f)))
         == Some(LayoutChange(w, layout, Some(v), Some(f))))
       <==> Parsable(layout) && Parsable(v) && PlainFlags(f)
  {
    var id, text, text' := Id('@', w), Layouts.ToLayoutString(layout), Layouts.ToLayoutString(v);
    WindowAndLayout(w, layout);
    WindowAndLayout(w, v);
    var fields := FourFields(id, text, text', PrintFlags(f));
    FlagsRoundTrip(f);
    FieldsOfLayoutChange(fields, w, layout, Some(v), Some(f));
  }

  lemma {:induction false} LayoutChangeRoundTrip(w: u32, layout: Layouts.Layout, visible: Option<Layouts.Layout>,
                                                 flags: Option<WindowFlags>)
    ensures (ParseLayoutChange(Id('@', w) + " " + PrintLayouts(layout, visible, flags))
             == Some(LayoutChange(w, layout, visible, flags)))
       <==> Admissible(LayoutChange(w, layout, visible, flags))
  {
    if visible.None? {
      LayoutOnlyRoundTrip(w, layout, flags);
    } else if flags.None? {
      VisibleLayoutRoundTrip(w, layout, visible.value);
    } else {
      LayoutFlagsRoundTrip(w, layout, visible.value, flags.value);
    }
  }

  // ---- Whole lines ---------------------------------------------------------------

  /** The arguments of a printed line, as the text path sees them. */
  function ArgsOf(n: Notification, header: string): string
    requires KeywordFor(n).Some?
  {
    match PrintArgs(n, header) case None => "" case Some(args) => args
  }

  /** A line whose only argument is one id. */
  lemma OneIdRoundTrip(n: Notification, sigil: char, id: u32)
    requires || (sigil == '@' && (n == WindowAdd(id) || n == WindowClose(id)
                                  || n == UnlinkedWindowAdd(id) || n == UnlinkedWindowClose(id)))
             || (sigil == '%' && (n == PaneModeChanged(id) || n == Pause(id) || n == Continue(id)))
    ensures ParseArgs(KeywordFor(n).value, Id(sigil, id)) == Some(n)
  {
    FirstFieldOfId(sigil, id);
    ArgsFromId(n, sigil, id, Id(sigil, id));
  }

  lemma ArgsFromId(n: Notification, sigil: char, id: u32, args: string)
    requires || (sigil == '@' && (n == WindowAdd(id) || n == WindowClose(id)
                                  || n == UnlinkedWindowAdd(id) || n == UnlinkedWindowClose(id)))
             || (sigil == '%' && (n == PaneModeChanged(id) || n == Pause(id) || n == Continue(id)))
    requires FirstId(args, sigil) == Some(id)
    ensures ParseArgs(KeywordFor(n).value, args) == Some(n)
  {
    hide FirstId, ParseIdName, ParseTwoIds, ParseClientSessionChanged, ParseLayoutChange, ParseSubscription;
    hide OptionalReason;
  }

  /** A line with an id and a name. */
  lemma NamedRoundTrip(n: Notification, sigil: char, id: u32, name: string)
    requires || (sigil == '@' && (n == WindowRenamed(id, name) || n == UnlinkedWindowRenamed(id, name)))
             || (sigil == '$' && (n == SessionChanged(id, name) || n == SessionRenamed(id, name)))
    ensures ParseArgs(KeywordFor(n).value, Id(sigil, id) + " " + name) == Some(n)
  {
    IdNameRoundTrip(sigil, id, name);
    ArgsFromIdName(n, sigil, id, name, Id(sigil, id) + " " + name);
  }

  lemma ArgsFromIdName(n: Notification, sigil: char, id: u32, name: string, args: string)
    requires || (sigil == '@' && (n == WindowRenamed(id, name) || n == UnlinkedWindowRenamed(id, name)))
             || (sigil == '$' && (n == SessionChanged(id, name) || n == SessionRenamed(id, name)))
    requires ParseIdName(args, sigil) == Some((id, name))
    ensures ParseArgs(KeywordFor(n).value, args) == Some(n)
  {
    hide FirstId, ParseIdName, ParseTwoIds, ParseClientSessionChanged, ParseLayoutChange, ParseSubscription;
    hide OptionalReason;
  }

  /** A line with two ids. */
  lemma PairRoundTrip(n: Notification, sigil1: char, id1: u32, sigil2: char, id2: u32)
    requires || (sigil1 == '@' && sigil2 == '%' && n == WindowPaneChanged(id1, id2))
             || (sigil1 == '$' && sigil2 == '@' && n == SessionWindowChanged(id1, id2))
    ensures ParseArgs(KeywordFor(n).value, Id(sigil1, id1) + " " + Id(sigil2, id2)) == Some(n)
  {
    TwoIdsRoundTrip(sigil1, id1, sigil2, id2);
    ArgsFromTwoIds(n, sigil1, id1, sigil2, id2, Id(sigil1, id1) + " " + Id(sigil2, id2));
  }

  lemma ArgsFromTwoIds(n: Notification, sigil1: char, id1: u32, sigil2: char, id2: u32, args: string)
    requires || (sigil1 == '@' && sigil2 == '%' && n == WindowPaneChanged(id1, id2))
             || (sigil1 == '$' && sigil2 == '@' && n == SessionWindowChanged(id1, id2))
    requires ParseTwoIds(args, sigil1, sigil2) == Some((id1, id2))
    ensures ParseArgs(KeywordFor(n).value, args) == Some(n)
  {
    hide FirstId, ParseIdName, ParseTwoIds, ParseClientSessionChanged, ParseLayoutChange, ParseSubscription;
    hide OptionalReason;
  }

  lemma ArgsFromLayoutChange(args: string)
    ensures ParseArgs(KLayoutChange, args) == ParseLayoutChange(args)
  {
  }

  lemma ArgsFromClient(args: string)
    ensures ParseArgs(KClientSessionChanged, args) == ParseClientSessionChanged(args)
  {
  }

  lemma ArgsFromSubscription(args: string)
    ensures ParseArgs(KSubscriptionChanged, args) == Some(ParseSubscription(args))
  {
  }

  /** Exit reasons come back trimmed, and a blank one not at all. */
  lemma TrimNothing()
    ensures Trim("") == ""
  {
  }

  lemma ExitRoundTrip(reason: Option<string>, header: string)
    ensures ParseArgs(KExit, ArgsOf(Exit(reason), header)) == Some(Exit(reason)) <==> Admissible(Exit(reason))
  {
    hide Trim;
    TrimNothing();
  }

  lemma ArgsRoundTrip(n: Notification, header: string)
    requires KeywordFor(n).Some? && PlainHeader(header)
    ensures ParseArgs(KeywordFor(n).value, ArgsOf(n, header)) == Some(n) <==> Admissible(n)
  {
    match n {
      case WindowAdd(w) => OneIdRoundTrip(n, '@', w);
      case WindowClose(w) => OneIdRoundTrip(n, '@', w);
      case UnlinkedWindowAdd(w) => OneIdRoundTrip(n, '@', w);
      case UnlinkedWindowClose(w) => OneIdRoundTrip(n, '@', w);
      case PaneModeChanged(p) => OneIdRoundTrip(n, '%', p);
      case Pause(p) => OneIdRoundTrip(n, '%', p);
      case Continue(p) => OneIdRoundTrip(n, '%', p);
      case WindowRenamed(w, name) => NamedRoundTrip(n, '@', w, name);
      case UnlinkedWindowRenamed(w, name) => NamedRoundTrip(n, '@', w, name);
      case SessionChanged(s, name) => NamedRoundTrip(n, '$', s, name);
      case SessionRenamed(s, name) => NamedRoundTrip(n, '$', s, name);
      case WindowPaneChanged(w, p) => PairRoundTrip(n, '@', w, '%', p);
      case SessionWindowChanged(s, w) => PairRoundTrip(n, '$', s, '@', w);
      case LayoutChange(w, layout, visible, flags) =>
        LayoutChangeRoundTrip(w, layout, visible, flags);
        ArgsFromLayoutChange(ArgsOf(n, header));
      case ClientSessionChanged(client, s, name) =>
        ClientRoundTrip(client, s, name);
        ArgsFromClient(ArgsOf(n, header));
      case SubscriptionChanged(name, value) =>
        SubscriptionRoundTrip(name, header, value);
        ArgsFromSubscription(ArgsOf(n, header));
      case SessionsChanged =>
      case Exit(reason) => ExitRoundTrip(reason, header);
    }
  }

  lemma ParseLineOfKeyword(line: string, k: Keyword, args: string)
    requires ParseOutputLine(line) == None
    requires line != "" && line[0] == '%' && SplitKind(line) == (KeywordName(k), args)
    ensures ParseLine(line) == match ParseArgs(k, args) case None => Unknown(line) case Some(n) => n
  {
    KeywordRoundTrip(k);
  }

  /** A text notification's line parses back to it exactly when it is admissible. */
  lemma {:induction false} TextRoundTrip(n: Notification, header: string)
    requires KeywordFor(n).Some? && PlainHeader(header)
    ensures ParseLine(PrintNote(n, header)) == n <==> Admissible(n)
  {
    PrintedTakesTextPath(n, header);
    PrintedKind(n, header);
    ParseLineOfKeyword(PrintNote(n, header), KeywordFor(n).value, ArgsOf(n, header));
    ArgsRoundTrip(n, header);
  }

  /** Pane bytes survive the escaping and the line, whatever they are. */
  lemma OutputRoundTrip(pane: u32, bytes: string)
    ensures ParseLine(PrintNote(Output(pane, bytes), "")) == Output(pane, bytes)
  {
    var data := Output.Encode(bytes);
    var rest := Id('%', pane) + " " + data;
    var line := OUTPUT_PREFIX + rest;
    assert line[..|OUTPUT_PREFIX|] == OUTPUT_PREFIX && line[|OUTPUT_PREFIX|..] == rest;
    IdLacks('%', pane, ' ');
    IndexOfAppend(Id('%', pane), ' ', data);
    assert rest[..|Id('%', pane)|] == Id('%', pane) && rest[|Id('%', pane)| + 1..] == data;
    ParseIdOfId('%', pane);
    DecodeAll(bytes);
  }

  lemma DecodeAll(bytes: string)
    ensures Output.Decode(Output.Encode(bytes)) == bytes
  {
    Output.DecodeEncode(bytes, "");
    assert Output.Encode(bytes) + "" == Output.Encode(bytes) && bytes + Output.Decode("") == bytes;
  }

  /** The same under flow control, even when the bytes hold the ` : ` separator. */
  lemma ExtendedOutputRoundTrip(pane: u32, ms: u64, bytes: string)
    ensures ParseLine(PrintNote(ExtendedOutput(pane, ms, bytes), "")) == ExtendedOutput(pane, ms, bytes)
  {
    var data := Output.Encode(bytes);
    var tail := Decimal(ms) + " : " + data;
    var rest := Id('%', pane) + " " + tail;
    var line := EXTENDED_PREFIX + rest;
    assert line[..|EXTENDED_PREFIX|] == EXTENDED_PREFIX && line[|EXTENDED_PREFIX|..] == rest;
    assert line[1] == 'e';
    if HasPrefix(line, OUTPUT_PREFIX) {
      PrefixChar(line, OUTPUT_PREFIX, 1);
      assert false;
    }
    ExtendedRoundTrip(pane, ms, bytes);
  }

  lemma ExtendedRoundTrip(pane: u32, ms: u64, bytes: string)
    ensures ParseExtendedOutput(Id('%', pane) + " " + (Decimal(ms) + " : " + Output.Encode(bytes)))
         == Some(ExtendedOutput(pane, ms, bytes))
  {
    var data := Output.Encode(bytes);
    var tail := Decimal(ms) + " : " + data;
    IdLacks('%', pane, ' ');
    SplitOnceAppend(Id('%', pane), ' ', tail);
    ParseIdOfId('%', pane);
    DecimalLacks(ms, ' ');
    FindSubsliceAppend(Decimal(ms), " : ", data);
    assert tail[..|Decimal(ms)|] == Decimal(ms) && tail[|Decimal(ms)| + 3..] == data;
    ParseUintDecimal(ms, U64_MAX);
    DecodeAll(bytes);
  }

  /** Every notification but an unknown line: printing then parsing is the identity
      exactly on the admissible ones. */
  lemma {:induction false} RoundTrip(n: Notification, header: string)
    requires !n.Unknown? && PlainHeader(header)
    ensures ParseLine(PrintNote(n, header)) == n <==> Admissible(n)
  {
    match n {
      case Output(pane, bytes) => OutputRoundTrip(pane, bytes);
      case ExtendedOutput(pane, ms, bytes) => ExtendedOutputRoundTrip(pane, ms, bytes);
      case _ => TextRoundTrip(n, header);
    }
  }
}
