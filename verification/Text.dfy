/** Byte strings, and the pieces of Rust's `str` and integer parsing that the wire
    format rests on.  A byte is a `char` below 256; a Rust `String` is its UTF-8 bytes. */
module Text {
  /** A missing or present value, usable with `:-`. */
  datatype Option<+T> = None | Some(value: T) {
    predicate IsFailure() { None? }

    function PropagateFailure<U>(): Option<U>
      requires None?
    {
      None
    }

    function Extract(): T
      requires Some?
    {
      value
    }
  }

  type byte = c: char | c as int < 256
  type u16 = n: int | 0 <= n < 0x1_0000
  type u32 = n: int | 0 <= n < 0x1_0000_0000
  type u64 = n: int | 0 <= n < 0x1_0000_0000_0000_0000

  const U16_MAX: nat := 0xFFFF
  const U32_MAX: nat := 0xFFFF_FFFF
  const U64_MAX: nat := 0xFFFF_FFFF_FFFF_FFFF

  // ---- Searching and splitting -------------------------------------------------

  /** Index of the first `c` in `s`, or `|s|`. */
  function IndexOf(s: string, c: char): (i: nat)
    ensures i <= |s|
    ensures c !in s[..i]
    ensures i < |s| ==> s[i] == c
  {
    if s == "" || s[0] == c then 0 else 1 + IndexOf(s[1..], c)
  }

  lemma IndexOfAppend(a: string, c: char, b: string)
    requires c !in a
    ensures IndexOf(a + [c] + b, c) == |a|
  {
    if a != "" {
      assert (a + [c] + b)[1..] == a[1..] + [c] + b;
      IndexOfAppend(a[1..], c, b);
    }
  }

  lemma IndexOfNone(s: string, c: char)
    ensures c !in s <==> IndexOf(s, c) == |s|
  {
    assert s[..|s|] == s;
  }

  /** `str::split_once` on one character. */
  function SplitOnce(s: string, c: char): Option<(string, string)> {
    var i := IndexOf(s, c);
    if i == |s| then None else Some((s[..i], s[i + 1..]))
  }

  lemma SplitOnceAppend(a: string, c: char, b: string)
    requires c !in a
    ensures SplitOnce(a + [c] + b, c) == Some((a, b))
  {
    IndexOfAppend(a, c, b);
    var s := a + [c] + b;
    assert s[..|a|] == a && s[|a| + 1..] == b;
  }

  /** `str::split` on one character: always at least one field. */
  function Split(s: string, c: char): (fields: seq<string>)
    ensures |fields| >= 1
  {
    var i := IndexOf(s, c);
    if i == |s| then [s] else [s[..i]] + Split(s[i + 1..], c)
  }

  lemma SplitAppend(a: string, c: char, b: string)
    requires c !in a
    ensures Split(a + [c] + b, c) == [a] + Split(b, c)
  {
    IndexOfAppend(a, c, b);
    var s := a + [c] + b;
    assert s[..|a|] == a && s[|a| + 1..] == b;
  }

  lemma SplitNone(s: string, c: char)
    requires c !in s
    ensures Split(s, c) == [s]
  {
    IndexOfNone(s, c);
  }

  /** The first field of a split is what precedes the first separator. */
  lemma SplitHead(s: string, c: char)
    ensures Split(s, c)[0] == s[..IndexOf(s, c)]
  {
    assert s[..|s|] == s;
  }

  /** Fields with single spaces between them. */
  function Join(fields: seq<string>): string {
    if fields == [] then "" else if |fields| == 1 then fields[0] else fields[0] + " " + Join(fields[1..])
  }

  lemma {:induction false} SplitOfJoin(fields: seq<string>)
    requires fields != [] && forall k :: 0 <= k < |fields| ==> ' ' !in fields[k]
    ensures Split(Join(fields), ' ') == fields
  {
    if |fields| == 1 {
      SplitNone(fields[0], ' ');
    } else {
      SplitOfJoin(fields[1..]);
      SplitAppend(fields[0], ' ', Join(fields[1..]));
      HeadTail(fields);
    }
  }

  lemma JoinCons(field: string, fields: seq<string>)
    requires fields != []
    ensures Join([field] + fields) == field + " " + Join(fields)
  {
    TailOfCons(field, fields);
  }

  /** Splitting at spaces loses nothing, and leaves no space in any field. */
  lemma {:induction false} JoinOfSplit(s: string)
    ensures Join(Split(s, ' ')) == s
    ensures forall k :: 0 <= k < |Split(s, ' ')| ==> ' ' !in Split(s, ' ')[k]
    decreases |s|
  {
    var i := IndexOf(s, ' ');
    if i == |s| {
      IndexOfNone(s, ' ');
    } else {
      JoinOfSplit(s[i + 1..]);
      JoinCons(s[..i], Split(s[i + 1..], ' '));
      SplitAt(s, i);
      ConcatAssoc(s[..i], " ", s[i + 1..]);
    }
  }

  predicate OccursAt(s: string, needle: string, i: nat) {
    i + |needle| <= |s| && s[i..i + |needle|] == needle
  }

  /** Index of the first occurrence of `needle`. */
  function FindSubslice(s: string, needle: string): (r: Option<nat>)
    ensures r.Some? ==> r.value + |needle| <= |s| && s[r.value..r.value + |needle|] == needle
  {
    if |s| < |needle| then None
    else if s[..|needle|] == needle then Some(0)
    else if s == "" then None
    else
      match FindSubslice(s[1..], needle)
      case None => None
      case Some(i) =>
        assert s[1..][i..i + |needle|] == s[i + 1..i + 1 + |needle|];
        Some(i + 1)
  }

  /** There is no occurrence before the one found, and none at all if none is found. */
  lemma {:induction false} FindSubsliceFirst(s: string, needle: string, i: nat)
    requires OccursAt(s, needle, i)
    ensures FindSubslice(s, needle).Some? && FindSubslice(s, needle).value <= i
    decreases |s|
  {
    if i == 0 {
      assert s[0..|needle|] == s[..|needle|];
    } else {
      assert s[1..][i - 1..i - 1 + |needle|] == s[i..i + |needle|];
      FindSubsliceFirst(s[1..], needle, i - 1);
    }
  }

  /** A needle that starts with a character absent from `a` is found right after `a`. */
  lemma FindSubsliceAppend(a: string, needle: string, b: string)
    requires needle != "" && needle[0] !in a
    ensures FindSubslice(a + needle + b, needle) == Some(|a|)
  {
    var s := a + needle + b;
    if a == "" {
      assert s[..|needle|] == needle;
    } else {
      assert s[0] == a[0];
      assert s[..|needle|][0] == a[0];
      assert s[1..] == a[1..] + needle + b;
      FindSubsliceAppend(a[1..], needle, b);
    }
  }

  predicate HasPrefix(s: string, prefix: string) {
    |prefix| <= |s| && s[..|prefix|] == prefix
  }

  // ---- Lines ---------------------------------------------------------------------

  /** The complete (newline-terminated) lines of `s`, newlines stripped. */
  function Lines(s: string): (lines: seq<string>)
    ensures forall k :: 0 <= k < |lines| ==> '\n' !in lines[k]
  {
    var i := IndexOf(s, '\n');
    if i == |s| then [] else [s[..i]] + Lines(s[i + 1..])
  }

  /** What follows the last newline of `s`. */
  function Tail(s: string): (tail: string)
    ensures '\n' !in tail
  {
    var i := IndexOf(s, '\n');
    if i == |s| then IndexOfNone(s, '\n'); s else Tail(s[i + 1..])
  }

  /** Each line followed by a newline. */
  function Unlines(lines: seq<string>): string {
    if lines == [] then "" else lines[0] + "\n" + Unlines(lines[1..])
  }

  lemma ConcatAssoc<T>(a: seq<T>, b: seq<T>, c: seq<T>)
    ensures (a + b) + c == a + (b + c)
  {
  }

  lemma HeadTail<T>(s: seq<T>)
    requires s != []
    ensures s == [s[0]] + s[1..]
  {
  }

  lemma TailOfCons<T>(x: T, s: seq<T>)
    ensures ([x] + s)[1..] == s
  {
  }

  lemma SplitAt(s: string, i: nat)
    requires i < |s|
    ensures s == s[..i] + [s[i]] + s[i + 1..]
  {
  }

  lemma UnlinesCons(line: string, lines: seq<string>)
    ensures Unlines([line] + lines) == line + "\n" + Unlines(lines)
  {
    assert ([line] + lines)[1..] == lines;
  }

  /** Splitting into lines loses nothing. */
  lemma {:induction false} UnlinesOfLines(s: string)
    ensures Unlines(Lines(s)) + Tail(s) == s
  {
    var i := IndexOf(s, '\n');
    if i == |s| {
      assert Unlines([]) + s == s;
    } else {
      var line, rest := s[..i], s[i + 1..];
      UnlinesOfLines(rest);
      UnlinesCons(line, Lines(rest));
      ConcatAssoc(line + "\n", Unlines(Lines(rest)), Tail(rest));
      SplitAt(s, i);
    }
  }

  lemma LinesCons(line: string, rest: string)
    requires '\n' !in line
    ensures Lines(line + "\n" + rest) == [line] + Lines(rest)
    ensures Tail(line + "\n" + rest) == Tail(rest)
  {
    IndexOfAppend(line, '\n', rest);
    var s := line + "\n" + rest;
    assert s[..|line|] == line && s[|line| + 1..] == rest;
  }

  lemma {:induction false} LinesOfUnlines(lines: seq<string>, rest: string)
    requires forall k :: 0 <= k < |lines| ==> '\n' !in lines[k]
    ensures Lines(Unlines(lines) + rest) == lines + Lines(rest)
    ensures Tail(Unlines(lines) + rest) == Tail(rest)
  {
    if lines == [] {
      assert Unlines(lines) + rest == rest;
    } else {
      ConcatAssoc(lines[0] + "\n", Unlines(lines[1..]), rest);
      LinesCons(lines[0], Unlines(lines[1..]) + rest);
      LinesOfUnlines(lines[1..], rest);
      ConcatAssoc([lines[0]], lines[1..], Lines(rest));
      HeadTail(lines);
    }
  }

  lemma {:induction false} UnlinesAppend(a: seq<string>, b: seq<string>)
    ensures Unlines(a + b) == Unlines(a) + Unlines(b)
    decreases |a|
  {
    if a == [] {
      assert a + b == b && "" + Unlines(b) == Unlines(b);
    } else {
      assert (a + b)[1..] == a[1..] + b;
      UnlinesAppend(a[1..], b);
      ConcatAssoc(a[0] + "\n", Unlines(a[1..]), Unlines(b));
    }
  }

  lemma FirstLine(s: string)
    ensures var i := IndexOf(s, '\n');
            if i == |s| then Lines(s) == [] && Tail(s) == s
            else
              && s == s[..i] + "\n" + s[i + 1..]
              && Lines(s) == [s[..i]] + Lines(s[i + 1..]) && Tail(s) == Tail(s[i + 1..])
  {
    if IndexOf(s, '\n') < |s| {
      SplitAt(s, IndexOf(s, '\n'));
    }
  }

  /** A stream cut anywhere yields the same lines as the uncut stream. */
  lemma {:induction false} LinesAppend(a: string, b: string)
    ensures Lines(a + b) == Lines(a) + Lines(Tail(a) + b)
    ensures Tail(a + b) == Tail(Tail(a) + b)
    decreases |a|
  {
    hide Lines, Tail, IndexOf;
    var i := IndexOf(a, '\n');
    FirstLine(a);
    if i == |a| {
      assert [] + Lines(a + b) == Lines(a + b);
    } else {
      var line, a' := a[..i], a[i + 1..];
      ConcatAssoc(line + "\n", a', b);
      LinesCons(line, a' + b);
      LinesAppend(a', b);
      ConcatAssoc([line], Lines(a'), Lines(Tail(a') + b));
    }
  }

  // ---- Integers ------------------------------------------------------------------

  predicate IsDigit(c: char) { '0' <= c <= '9' }

  predicate AllDigits(s: string) { forall k :: 0 <= k < |s| ==> IsDigit(s[k]) }

  /** Length of the leading digit run. */
  function DigitRun(s: string): (n: nat)
    ensures n <= |s| && AllDigits(s[..n])
    ensures n < |s| ==> !IsDigit(s[n])
  {
    if s == "" || !IsDigit(s[0]) then 0 else 1 + DigitRun(s[1..])
  }

  lemma DigitRunAppend(ds: string, rest: string)
    requires AllDigits(ds) && !StartsWithDigit(rest)
    ensures DigitRun(ds + rest) == |ds|
  {
    if ds == "" {
      assert ds + rest == rest;
    } else {
      assert (ds + rest)[1..] == ds[1..] + rest;
      DigitRunAppend(ds[1..], rest);
    }
  }

  predicate StartsWithDigit(s: string) { s != "" && IsDigit(s[0]) }

  /** The number a digit string denotes, most significant digit first. */
  function Value(ds: string): nat
    requires AllDigits(ds)
  {
    if ds == "" then 0
    else 10 * Value(ds[..|ds| - 1]) + (ds[|ds| - 1] as int - '0' as int)
  }

  function Unsigned(s: string): string { if s != "" && s[0] == '+' then s[1..] else s }

  /** `uN::from_str`: an optional `+`, then at least one digit, at most `max`. */
  function ParseUint(s: string, max: nat): (r: Option<nat>)
    ensures r.Some? ==> r.value <= max
  {
    var ds := Unsigned(s);
    if ds == "" || !AllDigits(ds) || Value(ds) > max then None else Some(Value(ds))
  }

  /** Rust's decimal `Display` of an unsigned integer. */
  function Decimal(n: nat): (s: string)
    ensures s != "" && AllDigits(s)
    ensures Value(s) == n
  {
    var last := ['0' + (n % 10) as char];
    if n < 10 then
      assert last[..0] == "";
      last
    else
      var s := Decimal(n / 10) + last;
      assert s[..|s| - 1] == Decimal(n / 10);
      s
  }

  /** A printed number has no character but digits. */
  lemma DecimalLacks(n: nat, c: char)
    requires !IsDigit(c)
    ensures c !in Decimal(n)
  {
  }

  /** Printing then parsing an integer is the identity exactly when it fits. */
  lemma ParseUintDecimal(n: nat, max: nat)
    ensures ParseUint(Decimal(n), max) == if n <= max then Some(n) else None
  {
  }

  /** A digit string is its own value's decimal form behind some zeros. */
  lemma {:induction false} DecimalOfValue(ds: string) returns (zeros: nat)
    requires ds != "" && AllDigits(ds)
    ensures zeros + |Decimal(Value(ds))| == |ds|
    ensures ds[zeros..] == Decimal(Value(ds))
    ensures forall k :: 0 <= k < zeros ==> ds[k] == '0'
  {
    var init, last := ds[..|ds| - 1], ds[|ds| - 1];
    assert ds == init + [last];
    if init == "" {
      zeros := 0;
      assert Value(ds) < 10;
      assert Decimal(Value(ds)) == [last];
      assert ds[0..] == [last];
    } else {
      var z := DecimalOfValue(init);
      if Value(init) == 0 {
        assert init[z..] == "0";
        zeros := z + 1;
        assert Decimal(Value(ds)) == [last];
        assert ds[zeros..] == [last];
        assert forall k :: 0 <= k < zeros ==> ds[k] == init[k];
      } else {
        zeros := z;
        assert Value(ds) / 10 == Value(init) && Value(ds) % 10 == last as int - '0' as int;
        assert Decimal(Value(ds)) == Decimal(Value(init)) + [last];
        assert ds[zeros..] == init[z..] + [last];
      }
    }
  }

  predicate BehindZeros(ds: string, d: string) {
    && |ds| >= |d| && ds[|ds| - |d|..] == d
    && forall k :: 0 <= k < |ds| - |d| ==> ds[k] == '0'
  }

  /** A decimal numeral of `n` as Rust reads it: perhaps a `+`, perhaps zeros in front. */
  predicate IsNumeral(s: string, n: nat) {
    BehindZeros(s, Decimal(n)) || (s != "" && s[0] == '+' && BehindZeros(s[1..], Decimal(n)))
  }

  lemma {:induction false} ValueBehindZeros(ds: string, d: string)
    requires BehindZeros(ds, d) && AllDigits(d)
    ensures AllDigits(ds) && Value(ds) == Value(d)
    decreases |d|
  {
    var zeros := |ds| - |d|;
    assert forall k :: zeros <= k < |ds| ==> ds[k] == ds[zeros..][k - zeros];
    if d == "" {
      ValueOfZeros(ds);
    } else {
      var init, init' := ds[..|ds| - 1], d[..|d| - 1];
      assert init[zeros..] == init';
      ValueBehindZeros(init, init');
    }
  }

  lemma {:induction false} ValueOfZeros(ds: string)
    requires forall k :: 0 <= k < |ds| ==> ds[k] == '0'
    ensures Value(ds) == 0
    decreases |ds|
  {
    if ds != "" {
      ValueOfZeros(ds[..|ds| - 1]);
    }
  }

  /** Integer parsing accepts the numerals of the numbers that fit, and nothing else. */
  lemma {:induction false} ParseUintExactly(s: string, max: nat, n: nat)
    ensures ParseUint(s, max) == Some(n) <==> n <= max && IsNumeral(s, n)
  {
    hide Decimal, BehindZeros, Value;
    var ds := Unsigned(s);
    if ds != "" && AllDigits(ds) {
      DigitsAreNumeral(ds);
    }
    if BehindZeros(s, Decimal(n)) {
      NumeralHasNoSign(s, n);
    }
    if BehindZeros(ds, Decimal(n)) {
      ValueBehindZeros(ds, Decimal(n));
      NumeralHasNoSign(ds, n);
    }
  }

  lemma NumeralHasNoSign(ds: string, n: nat)
    requires BehindZeros(ds, Decimal(n))
    ensures ds != "" && ds[0] != '+'
  {
    hide Decimal;
    var zeros := |ds| - |Decimal(n)|;
    assert ds[zeros] == Decimal(n)[0];
  }

  lemma DigitsAreNumeral(ds: string)
    requires ds != "" && AllDigits(ds)
    ensures BehindZeros(ds, Decimal(Value(ds)))
  {
    hide Decimal;
    var zeros := DecimalOfValue(ds);
    assert zeros == |ds| - |Decimal(Value(ds))|;
  }

  // ---- Hexadecimal ---------------------------------------------------------------

  function HexDigit(n: nat): (c: char)
    requires n < 16
    ensures IsHexDigit(c) && HexVal(c) == n
    ensures IsDigit(c) || 'a' <= c <= 'f'
  {
    if n < 10 then '0' + n as char else 'a' + (n - 10) as char
  }

  predicate IsHexDigit(c: char) { IsDigit(c) || 'a' <= c <= 'f' || 'A' <= c <= 'F' }

  function HexVal(c: char): (n: nat)
    requires IsHexDigit(c)
    ensures n < 16
  {
    if IsDigit(c) then c as int - '0' as int
    else if 'a' <= c <= 'f' then c as int - 'a' as int + 10
    else c as int - 'A' as int + 10
  }

  const HEX_DIGITS := "0123456789abcdef"
  const UPPER_DIGITS := "0123456789ABCDEF"

  /** The hexadecimal digits, in either case, and what each stands for. */
  lemma HexDigitExactly(c: char, n: nat)
    ensures IsHexDigit(c) && HexVal(c) == n <==> n < 16 && (HEX_DIGITS[n] == c || UPPER_DIGITS[n] == c)
    ensures n < 16 ==> HexDigit(n) == HEX_DIGITS[n]
  {
  }

  /** `{:04x}` of a `u16`. */
  function Hex4(n: u16): string {
    [HexDigit(n / 4096), HexDigit(n / 256 % 16), HexDigit(n / 16 % 16), HexDigit(n % 16)]
  }

  /** `{:02x}` of a byte. */
  function Hex2(b: byte): string {
    [HexDigit(b as int / 16), HexDigit(b as int % 16)]
  }

  /** `from_str_radix(_, 16)` on hex digits. */
  function HexValue(s: string): nat
    requires forall k :: 0 <= k < |s| ==> IsHexDigit(s[k])
  {
    if s == "" then 0 else 16 * HexValue(s[..|s| - 1]) + HexVal(s[|s| - 1])
  }

  lemma HexValueOfHex4(n: u16)
    ensures HexValue(Hex4(n)) == n
  {
    var s := Hex4(n);
    assert s[..3][..2][..1] == [s[0]] && s[..3][..2] == [s[0], s[1]] && s[..3] == [s[0], s[1], s[2]];
    assert HexValue(s[..3][..2][..1]) == n / 4096;
    assert HexValue(s[..3][..2]) == n / 256;
    assert HexValue(s[..3]) == n / 16;
  }

  /** Four hex digits denote a `u16`. */
  lemma HexValueBound(s: string)
    requires |s| == 4 && forall k :: 0 <= k < |s| ==> IsHexDigit(s[k])
    ensures HexValue(s) < 0x1_0000
  {
    assert HexValue(s[..3][..2][..1]) < 16;
    assert HexValue(s[..3][..2]) < 256;
    assert HexValue(s[..3]) < 4096;
  }

  // ---- Trimming ------------------------------------------------------------------

  /** One white space character of Unicode, as its UTF-8 bytes. */
  predicate IsSpace(s: string) {
    match |s|
    case 1 => s[0] == ' ' || '\t' <= s[0] <= '\r'
    case 2 => s[0] as int == 0xC2 && (s[1] as int == 0x85 || s[1] as int == 0xA0)
    case 3 =>
      var c0, c1, c2 := s[0] as int, s[1] as int, s[2] as int;
      || (c0 == 0xE1 && c1 == 0x9A && c2 == 0x80)
      || (c0 == 0xE2 && c1 == 0x80 && (0x80 <= c2 <= 0x8A || c2 == 0xA8 || c2 == 0xA9 || c2 == 0xAF))
      || (c0 == 0xE2 && c1 == 0x81 && c2 == 0x9F)
      || (c0 == 0xE3 && c1 == 0x80 && c2 == 0x80)
    case _ => false
  }

  /** A character below U+10000 as its UTF-8 bytes. */
  function Utf8(point: u16): string {
    if point < 0x80 then [point as char]
    else if point < 0x800 then [(0xC0 + point / 64) as char, (0x80 + point % 64) as char]
    else [(0xE0 + point / 4096) as char, (0x80 + point / 64 % 64) as char, (0x80 + point % 64) as char]
  }

  /** Unicode's `White_Space`. */
  predicate WhiteSpace(point: u16) {
    || 9 <= point <= 13 || point in {0x20, 0x85, 0xA0, 0x1680, 0x2028, 0x2029, 0x202F, 0x205F, 0x3000}
    || 0x2000 <= point <= 0x200A
  }

  /** The byte strings taken for white space are those of its characters. */
  lemma IsSpaceExactly(point: u16)
    ensures IsSpace(Utf8(point)) <==> WhiteSpace(point)
  {
  }

  /** The number of bytes of the white space character at the front, 0 if there is none. */
  function SpaceAtFront(s: string): (n: nat)
    ensures n <= |s| && (n > 0 ==> IsSpace(s[..n]))
  {
    if |s| >= 1 && IsSpace(s[..1]) then 1
    else if |s| >= 2 && IsSpace(s[..2]) then 2
    else if |s| >= 3 && IsSpace(s[..3]) then 3
    else 0
  }

  /** The same at the end. */
  function SpaceAtEnd(s: string): (n: nat)
    ensures n <= |s| && (n > 0 ==> IsSpace(s[|s| - n..]))
  {
    if |s| >= 1 && IsSpace(s[|s| - 1..]) then 1
    else if |s| >= 2 && IsSpace(s[|s| - 2..]) then 2
    else if |s| >= 3 && IsSpace(s[|s| - 3..]) then 3
    else 0
  }

  function TrimStart(s: string): string {
    if SpaceAtFront(s) > 0 then TrimStart(s[SpaceAtFront(s)..]) else s
  }

  function TrimEnd(s: string): string {
    if SpaceAtEnd(s) > 0 then TrimEnd(s[..|s| - SpaceAtEnd(s)]) else s
  }

  /** `str::trim`. */
  function Trim(s: string): string { TrimEnd(TrimStart(s)) }

  /** Nothing but white space characters. */
  predicate AllSpace(s: string) {
    s == "" || exists n :: 0 < n <= |s| && IsSpace(s[..n]) && AllSpace(s[n..])
  }

  lemma SpaceCons(first: string, later: string)
    requires IsSpace(first) && AllSpace(later)
    ensures AllSpace(first + later)
  {
    hide IsSpace;
    var s, n := first + later, |first|;
    assert n > 0 by { SpaceIsSome(first); }
    assert s[..n] == first && s[n..] == later;
  }

  lemma NoSpace()
    ensures AllSpace("")
  {
  }

  lemma SpaceIsSome(s: string)
    requires IsSpace(s)
    ensures s != ""
  {
  }

  lemma {:induction false} AllSpaceAppend(a: string, b: string)
    requires AllSpace(a) && AllSpace(b)
    ensures AllSpace(a + b)
    decreases |a|
  {
    hide IsSpace;
    if a == "" {
      assert a + b == b;
    } else {
      var n :| 0 < n <= |a| && IsSpace(a[..n]) && AllSpace(a[n..]);
      hide AllSpace;
      AllSpaceAppend(a[n..], b);
      SpaceCons(a[..n], a[n..] + b);
      ConcatAssoc(a[..n], a[n..], b);
      assert a == a[..n] + a[n..];
    }
  }

  predicate NoSpaceAtFront(s: string) { forall n :: 0 < n <= |s| ==> !IsSpace(s[..n]) }

  predicate NoSpaceAtEnd(s: string) { forall m :: 0 <= m < |s| ==> !IsSpace(s[m..]) }

  lemma NoneAtFront(s: string)
    requires SpaceAtFront(s) == 0
    ensures NoSpaceAtFront(s) && TrimStart(s) == s
  {
    forall n | 0 < n <= |s| ensures !IsSpace(s[..n]) {
      assert |s[..n]| == n;
    }
  }

  lemma NoneAtEnd(s: string)
    requires SpaceAtEnd(s) == 0
    ensures NoSpaceAtEnd(s) && TrimEnd(s) == s
  {
    forall m | 0 <= m < |s| ensures !IsSpace(s[m..]) {
      assert |s[m..]| == |s| - m;
    }
  }

  lemma {:induction false} TrimStartDrops(s: string) returns (before: string)
    ensures s == before + TrimStart(s) && AllSpace(before) && NoSpaceAtFront(TrimStart(s))
    decreases |s|
  {
    hide IsSpace, AllSpace, NoSpaceAtFront;
    var n := SpaceAtFront(s);
    NoSpace();
    if n > 0 {
      var before' := TrimStartDrops(s[n..]);
      before := s[..n] + before';
      SpaceCons(s[..n], before');
      ConcatAssoc(s[..n], before', TrimStart(s));
      assert s == s[..n] + s[n..];
    } else {
      NoneAtFront(s);
      before := "";
      assert "" + s == s;
    }
  }

  lemma TrimEndOnce(s: string)
    requires SpaceAtEnd(s) > 0
    ensures var n := |s| - SpaceAtEnd(s);
            s == s[..n] + s[n..] && AllSpace(s[n..]) && n < |s| && TrimEnd(s) == TrimEnd(s[..n])
  {
    hide IsSpace, AllSpace, SpaceAtEnd;
    var last := s[|s| - SpaceAtEnd(s)..];
    NoSpace();
    SpaceCons(last, "");
    assert last + "" == last;
  }

  lemma {:induction false} TrimEndDrops(s: string) returns (after: string)
    ensures s == TrimEnd(s) + after && AllSpace(after) && NoSpaceAtEnd(TrimEnd(s))
    decreases |s|
  {
    hide IsSpace, AllSpace, NoSpaceAtEnd, SpaceAtEnd, TrimEnd;
    if SpaceAtEnd(s) > 0 {
      var n := |s| - SpaceAtEnd(s);
      TrimEndOnce(s);
      var after' := TrimEndDrops(s[..n]);
      AllSpaceAppend(after', s[n..]);
      after := after' + s[n..];
      ConcatAssoc(TrimEnd(s), after', s[n..]);
    } else {
      NoneAtEnd(s);
      NoSpace();
      after := "";
      assert s + "" == s;
    }
  }

  /** Trimming drops white space characters at both edges, all of them, and nothing else. */
  lemma {:induction false} TrimExactly(s: string) returns (before: string, after: string)
    ensures s == before + Trim(s) + after && AllSpace(before) && AllSpace(after)
    ensures NoSpaceAtFront(Trim(s)) && NoSpaceAtEnd(Trim(s))
  {
    hide AllSpace, TrimStart, TrimEnd, IsSpace;
    before := TrimStartDrops(s);
    after := TrimEndDrops(TrimStart(s));
    ConcatAssoc(before, Trim(s), after);
    forall n | 0 < n <= |Trim(s)| ensures !IsSpace(Trim(s)[..n]) {
      assert Trim(s)[..n] == TrimStart(s)[..n];
    }
  }
}
