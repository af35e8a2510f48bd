/** Decoding of the `%output` payload escaping, against tmux's encoder. */
module Output {
  import opened Text

  predicate IsOctalDigit(c: char) { '0' <= c <= '7' }

  predicate AllOctal(s: string) { forall k :: 0 <= k < |s| ==> IsOctalDigit(s[k]) }

  /** The number an octal digit string denotes. */
  function OctalValue(s: string): nat
    requires AllOctal(s)
  {
    if s == "" then 0 else 8 * OctalValue(s[..|s| - 1]) + (s[|s| - 1] as int - '0' as int)
  }

  /** The byte three octal digits denote; none for another digit or a value past 255. */
  function OctalByte(digits: string): (r: Option<byte>)
    requires |digits| == 3
  {
    if AllOctal(digits) && OctalValue(digits) < 256 then Some(OctalValue(digits) as char) else None
  }

  method ParseOctal(digits: string) returns (r: Option<byte>)
    requires |digits| == 3
    ensures r == OctalByte(digits)
  {
    var value: nat := 0;
    for k := 0 to |digits|
      invariant AllOctal(digits[..k])
      invariant value == OctalValue(digits[..k])
      invariant k == 0 ==> value == 0
      invariant k == 1 ==> value < 8
      invariant k == 2 ==> value < 64
      invariant k == 3 ==> value < 512
    {
      var d := digits[k];
      if !IsDigit(d) || d > '7' {
        return None;
      }
      assert digits[..k + 1][..k] == digits[..k];
      value := value * 8 + (d as int - '0' as int);
    }
    assert digits[..3] == digits;
    r := if value < 256 then Some(value as char) else None;
  }

  /** Does a complete escape `\ooo` stand at the front of `s`? */
  function EscapeAtFront(s: string): Option<byte> {
    if 3 < |s| && s[0] == '\\' then OctalByte(s[1..4]) else None
  }

  /** What an escaped payload decodes to: an escape yields its byte, anything else itself. */
  function Decode(s: string): string {
    if s == "" then ""
    else
      match EscapeAtFront(s)
      case Some(b) => [b] + Decode(s[4..])
      case None => [s[0]] + Decode(s[1..])
  }

  method DecodeOutput(escaped: string) returns (out: string)
    ensures out == Decode(escaped)
  {
    out := "";
    var i := 0;
    while i < |escaped|
      invariant 0 <= i <= |escaped|
      invariant Decode(escaped) == out + Decode(escaped[i..])
    {
      var escape: Option<byte> := None;
      if escaped[i] == '\\' && i + 3 < |escaped| {
        escape := ParseOctal(escaped[i + 1..i + 4]);
      }
      ghost var rest := escaped[i..];
      assert i + 3 < |escaped| ==> rest[1..4] == escaped[i + 1..i + 4] && rest[4..] == escaped[i + 4..];
      assert rest[1..] == escaped[i + 1..];
      match escape {
        case None =>
          ConcatAssoc(out, [escaped[i]], Decode(escaped[i + 1..]));
          out := out + [escaped[i]];
          i := i + 1;
        case Some(b) =>
          ConcatAssoc(out, [b], Decode(escaped[i + 4..]));
          out := out + [b];
          i := i + 4;
      }
    }
  }

  /** The byte that three octal digits ahead stand for, if there are three and it is one. */
  function ByteAhead(s: string): Option<byte> {
    if |s| < 3 || exists k :: 0 <= k < 3 && !('0' <= s[k] <= '7') then None
    else
      var n := 64 * (s[0] as int - '0' as int) + 8 * (s[1] as int - '0' as int) + (s[2] as int - '0' as int);
      if n < 256 then Some(n as char) else None
  }

  /** What decoding does at each character: a backslash and three octal digits of a byte are
      that byte, and everything else, other backslashes included, stands for itself. */
  lemma {:induction false} DecodeHead(c: char, y: string)
    ensures Decode("") == ""
    ensures Decode([c] + y)
         == if c == '\\' && ByteAhead(y).Some? then [ByteAhead(y).value] + Decode(y[3..]) else [c] + Decode(y)
  {
    var s := [c] + y;
    TailOfCons(c, y);
    if |y| >= 3 {
      assert s[1..4] == y[..3] && s[4..] == y[3..];
      assert forall k :: 0 <= k < 3 ==> y[..3][k] == y[k];
      if AllOctal(y[..3]) {
        OctalValueOfThree(y[..3]);
      }
    }
  }

  // ---- tmux's encoder ------------------------------------------------------------

  predicate NeedsEscape(c: char) { c < ' ' || c == '\\' }

  /** `\%03o` */
  function Octal3(c: char): string
    requires c as int < 512
  {
    [ '0' + (c as int / 64) as char, '0' + (c as int / 8 % 8) as char, '0' + (c as int % 8) as char ]
  }

  function EncodeByte(c: char): string {
    if NeedsEscape(c) then "\\" + Octal3(c) else [c]
  }

  /** tmux's escaping of pane output. */
  function Encode(s: string): string {
    if s == "" then "" else EncodeByte(s[0]) + Encode(s[1..])
  }

  /** What tmux writes for each byte: below 0x20, and for the backslash, a backslash and the
      byte in three octal digits, the leading ones first; any other byte as it is. */
  lemma EncodeHead(c: byte, y: string) returns (d: string)
    ensures |d| == 3 && ByteAhead(d) == Some(c)
    ensures Encode([c] + y) == (if c as int < 0x20 || c as int == 0x5C then "\\" + d else [c]) + Encode(y)
  {
    d := Octal3(c);
    TailOfCons(c, y);
  }

  lemma OctalOfOctal3(c: char)
    requires c as int < 256
    ensures OctalByte(Octal3(c)) == Some(c)
  {
    var s := Octal3(c);
    assert s[..2][..1] == [s[0]] && s[..2] == [s[0], s[1]];
    assert OctalValue(s[..2][..1]) == c as int / 64;
    assert OctalValue(s[..2]) == c as int / 8;
  }

  /** Three octal digits are the only ones that denote their byte. */
  lemma Octal3OfOctal(digits: string)
    requires |digits| == 3 && OctalByte(digits).Some?
    ensures Octal3(OctalByte(digits).value) == digits
  {
    var a, b, c := digits[0] as int - '0' as int, digits[1] as int - '0' as int, digits[2] as int - '0' as int;
    OctalValueOfThree(digits);
    DivideOctal(a, b, c);
    assert Octal3(OctalByte(digits).value) == [digits[0], digits[1], digits[2]];
  }

  lemma OctalValueOfThree(digits: string)
    requires |digits| == 3 && AllOctal(digits)
    ensures OctalValue(digits) == 64 * (digits[0] as int - '0' as int)
                                + 8 * (digits[1] as int - '0' as int) + (digits[2] as int - '0' as int)
  {
    assert digits[..2][..1] == [digits[0]] && digits[..2] == [digits[0], digits[1]];
    assert OctalValue(digits[..2][..1]) == digits[0] as int - '0' as int;
  }

  lemma DivideOctal(a: nat, b: nat, c: nat)
    requires a < 8 && b < 8 && c < 8
    ensures (64 * a + 8 * b + c) / 64 == a
    ensures (64 * a + 8 * b + c) / 8 % 8 == b
    ensures (64 * a + 8 * b + c) % 8 == c
  {
    assert (64 * a + 8 * b + c) / 8 == 8 * a + b;
  }

  lemma DecodeEncodedByte(c: char, y: string)
    ensures Decode(EncodeByte(c) + y) == [c] + Decode(y)
  {
    var s := EncodeByte(c) + y;
    if NeedsEscape(c) {
      OctalOfOctal3(c);
      assert s[1..4] == Octal3(c) && s[4..] == y;
    } else {
      assert s[1..] == y;
    }
  }

  /** Decoding undoes tmux's escaping, whatever follows the escaped text. */
  lemma {:induction false} DecodeEncode(b: string, y: string)
    ensures Decode(Encode(b) + y) == b + Decode(y)
  {
    if b == "" {
      assert Encode(b) + y == y && b + Decode(y) == Decode(y);
    } else {
      ConcatAssoc(EncodeByte(b[0]), Encode(b[1..]), y);
      DecodeEncodedByte(b[0], Encode(b[1..]) + y);
      DecodeEncode(b[1..], y);
      ConcatAssoc([b[0]], b[1..], Decode(y));
      assert [b[0]] + b[1..] == b;
    }
  }

  /** tmux's escaping leaves no control character, so a payload never breaks its line. */
  lemma {:induction false} EncodeHasNoControl(b: string)
    ensures forall k :: 0 <= k < |Encode(b)| ==> Encode(b)[k] >= ' '
  {
    if b != "" {
      EncodeHasNoControl(b[1..]);
    }
  }

  /** Text tmux could have produced: no raw control character, and every backslash
      starts an escape of a byte that needs one. */
  predicate WellEscaped(s: string) {
    s == "" ||
    match EscapeAtFront(s)
    case Some(b) => NeedsEscape(b) && WellEscaped(s[4..])
    case None => !NeedsEscape(s[0]) && WellEscaped(s[1..])
  }

  /** Re-escaping a decoded payload restores it exactly when tmux could have sent it. */
  lemma {:induction false} EncodeDecode(s: string)
    ensures Encode(Decode(s)) == s <==> WellEscaped(s)
  {
    if s != "" {
      match EscapeAtFront(s) {
        case Some(b) =>
          var rest := s[4..];
          EncodeDecode(rest);
          Octal3OfOctal(s[1..4]);
          assert ([b] + Decode(rest))[1..] == Decode(rest);
          assert s == ("\\" + Octal3(b)) + rest;
          assert Encode(Decode(s)) == EncodeByte(b) + Encode(Decode(rest));
          if NeedsEscape(b) {
            assert Encode(Decode(s))[4..] == Encode(Decode(rest));
          } else {
            assert Encode(Decode(s))[0] == b != s[0];
          }
        case None =>
          var c, rest := s[0], s[1..];
          EncodeDecode(rest);
          assert ([c] + Decode(rest))[1..] == Decode(rest);
          assert Encode(Decode(s)) == EncodeByte(c) + Encode(Decode(rest));
          assert s == [c] + rest;
          if !NeedsEscape(c) {
            assert Encode(Decode(s))[1..] == Encode(Decode(rest));
          } else {
            NoEscapeNoMatch(s, Encode(Decode(rest)));
          }
      }
    }
  }

  lemma NoEscapeNoMatch(s: string, y: string)
    requires s != "" && EscapeAtFront(s) == None && NeedsEscape(s[0])
    ensures ("\\" + Octal3(s[0])) + y != s
  {
    var t := ("\\" + Octal3(s[0])) + y;
    OctalOfOctal3(s[0]);
    assert t[1..4] == Octal3(s[0]);
    assert EscapeAtFront(t).Some?;
  }
}
