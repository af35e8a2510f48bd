/** tmux's 16-bit layout checksum: rotate right by one, add the byte, modulo 2^16. */
module Checksums {
  import opened Text

  /** `(csum >> 1) + ((csum & 1) << 15)` */
  function RotateRight(csum: u16): (r: u16) {
    csum / 2 + csum % 2 * 0x8000
  }

  function Step(csum: u16, c: char): (r: u16) {
    (RotateRight(csum) + c as int) % 0x1_0000
  }

  function ChecksumFrom(csum: u16, s: string): u16
    decreases |s|
  {
    if s == "" then csum else ChecksumFrom(Step(csum, s[0]), s[1..])
  }

  function Checksum(s: string): u16 { ChecksumFrom(0, s) }

  method ComputeChecksum(layout: string) returns (csum: u16)
    ensures csum == Checksum(layout)
  {
    csum := 0;
    for i := 0 to |layout|
      invariant Checksum(layout) == ChecksumFrom(csum, layout[i..])
    {
      assert layout[i..][1..] == layout[i + 1..];
      csum := csum / 2 + csum % 2 * 0x8000;
      csum := (csum + layout[i] as int) % 0x1_0000;
    }
  }

  lemma {:induction false} ChecksumFromAppend(csum: u16, a: string, b: string)
    ensures ChecksumFrom(csum, a + b) == ChecksumFrom(ChecksumFrom(csum, a), b)
    decreases |a|
  {
    if a == "" {
      assert a + b == b;
    } else {
      assert (a + b)[1..] == a[1..] + b;
      ChecksumFromAppend(Step(csum, a[0]), a[1..], b);
    }
  }

  // ---- What is computed ----------------------------------------------------------

  function PowerOfTwo(k: nat): (p: nat)
    ensures p > 0
  {
    if k == 0 then 1 else 2 * PowerOfTwo(k - 1)
  }

  /** Bit `k`, the lowest first. */
  predicate Bit(v: nat, k: nat) { v / PowerOfTwo(k) % 2 == 1 }

  lemma DivideTwice(v: nat, p: nat)
    requires p > 0
    ensures v / 2 / p == v / (2 * p)
  {
    var q, r := v / 2 / p, v / 2 % p;
    assert v == (2 * p) * q + (2 * r + v % 2);
    QuotientIs(v, 2 * p, q, 2 * r + v % 2);
  }

  lemma QuotientIs(n: nat, p: nat, q: nat, r: nat)
    requires n == p * q + r && r < p
    ensures n / p == q
  {
    var d := n / p - q;
    assert p * (n / p) + n % p == n;
    assert p * d == r - n % p;
    AtLeastOne(p, d);
  }

  lemma AtLeastOne(p: int, d: int)
    requires p > 0
    ensures d >= 1 ==> p * d >= p
    ensures d <= -1 ==> p * d <= -p
  {
  }

  lemma HalfBit(v: nat, k: nat)
    ensures Bit(v / 2, k) == Bit(v, k + 1)
  {
    DivideTwice(v, PowerOfTwo(k));
  }

  lemma TimesTwo(p: nat, m: nat)
    ensures p * (2 * m) == 2 * (p * m)
  {
  }

  lemma {:induction false} PowersAdd(a: nat, b: nat)
    ensures PowerOfTwo(a + b) == PowerOfTwo(a) * PowerOfTwo(b)
  {
    if b > 0 {
      PowersAdd(a, b - 1);
      TimesTwo(PowerOfTwo(a), PowerOfTwo(b - 1));
    }
  }

  lemma Distribute(p: nat, a: nat, b: nat)
    ensures p * (a + b) == p * a + p * b
  {
  }

  lemma AddEven(n: nat, p: nat, m: nat)
    requires p > 0
    ensures (n + p * (2 * m)) / p % 2 == n / p % 2
  {
    var q, r := n / p, n % p;
    Distribute(p, q, 2 * m);
    QuotientIs(n + p * (2 * m), p, q + 2 * m, r);
  }

  /** Adding the sixteenth bit leaves the lower ones alone. */
  lemma LowBits(n: nat, k: nat)
    requires k < 15
    ensures Bit(n + 0x8000, k) == Bit(n, k)
  {
    var p, m := PowerOfTwo(k), PowerOfTwo(14 - k);
    PowersAdd(k, 14 - k);
    LargePowers();
    TimesTwo(p, m);
    hide PowerOfTwo;
    AddEven(n, p, m);
  }

  /** The rotation moves every bit one place down and the lowest to the top. */
  lemma RotateBits(csum: u16, k: nat)
    requires k < 16
    ensures Bit(RotateRight(csum), k) == Bit(csum, (k + 1) % 16)
  {
    if k == 15 {
      TopBit(csum);
    } else {
      hide Bit;
      HalfBit(csum, k);
      if csum % 2 == 1 {
        LowBits(csum / 2, k);
      }
    }
  }

  lemma LargePowers()
    ensures PowerOfTwo(0) == 1 && PowerOfTwo(14) == 0x4000 && PowerOfTwo(15) == 0x8000
  {
    PowersAdd(5, 5);
    PowersAdd(10, 4);
    PowersAdd(10, 5);
  }

  lemma TopBit(csum: u16)
    ensures Bit(RotateRight(csum), 15) == Bit(csum, 0)
  {
    LargePowers();
    hide PowerOfTwo;
  }

  /** The checksum of no text is 0, and each byte is added, modulo 2^16, to the checksum so
      far with its bits rotated right by one. */
  lemma ChecksumSnoc(s: string, c: byte) returns (rotated: u16)
    ensures Checksum("") == 0
    ensures forall k :: 0 <= k < 16 ==> Bit(rotated, k) == Bit(Checksum(s), (k + 1) % 16)
    ensures Checksum(s + [c]) == (rotated + c as int) % 0x1_0000
  {
    hide Bit, RotateRight;
    rotated := RotateRight(Checksum(s));
    forall k | 0 <= k < 16 ensures Bit(rotated, k) == Bit(Checksum(s), (k + 1) % 16) {
      RotateBits(Checksum(s), k);
    }
    ChecksumFromAppend(0, s, [c]);
    assert [c][1..] == "";
  }

  lemma ChecksumOfCons(csum: u16, c: char, s: string)
    ensures ChecksumFrom(csum, [c] + s) == ChecksumFrom(Step(csum, c), s)
  {
    assert ([c] + s)[1..] == s;
  }

  lemma FourMore(csum: u16, s: string, rest: string)
    requires |s| == 4
    ensures ChecksumFrom(csum, s + rest) == ChecksumFrom(Step(Step(Step(Step(csum, s[0]), s[1]), s[2]), s[3]), rest)
  {
    hide Step, ChecksumFrom;
    var d, c, b := [s[3]] + rest, [s[2]] + ([s[3]] + rest), [s[1]] + ([s[2]] + ([s[3]] + rest));
    assert s + rest == [s[0]] + b;
    ChecksumOfCons(csum, s[0], b);
    ChecksumOfCons(Step(csum, s[0]), s[1], c);
    ChecksumOfCons(Step(Step(csum, s[0]), s[1]), s[2], d);
    ChecksumOfCons(Step(Step(Step(csum, s[0]), s[1]), s[2]), s[3], rest);
  }

  lemma NoText(csum: u16)
    ensures ChecksumFrom(csum, "") == csum
  {
  }

  /** tmux's reference value. */
  lemma ReferenceChecksum()
    ensures Checksum("159x" + ("48,0" + (",0{7" + ("9x48" + (",0,0" + (",79x" + ("48,8" + ("0,0}" + "")))))))) == 0xbb62
  {
    ReferenceSteps();
    hide ChecksumFrom, Step;
    var h := "0,0}" + "";
    var g := "48,8" + h;
    var f := ",79x" + g;
    var e := ",0,0" + f;
    var d := "9x48" + e;
    var c := ",0{7" + d;
    var b := "48,0" + c;
    FourMore(0, "159x", b);
    FourMore(0xe0a7, "48,0", c);
    FourMore(0xfe64, ",0{7", d);
    FourMore(0x506c, "9x48", e);
    FourMore(0xe57d, ",0,0", f);
    FourMore(0x5eaf, ",79x", g);
    FourMore(0xb692, "48,8", h);
    FourMore(0xabcb, "0,0}", "");
    NoText(0xbb62);
  }

  lemma ReferenceSteps()
    ensures Step(Step(Step(Step(0x0000, '1'), '5'), '9'), 'x') == 0xe0a7
    ensures Step(Step(Step(Step(0xe0a7, '4'), '8'), ','), '0') == 0xfe64
    ensures Step(Step(Step(Step(0xfe64, ','), '0'), '{'), '7') == 0x506c
    ensures Step(Step(Step(Step(0x506c, '9'), 'x'), '4'), '8') == 0xe57d
    ensures Step(Step(Step(Step(0xe57d, ','), '0'), ','), '0') == 0x5eaf
    ensures Step(Step(Step(Step(0x5eaf, ','), '7'), '9'), 'x') == 0xb692
    ensures Step(Step(Step(Step(0xb692, '4'), '8'), ','), '8') == 0xabcb
    ensures Step(Step(Step(Step(0xabcb, '0'), ','), '0'), '}') == 0xbb62
  {
    hide Step;
    ReferenceSteps1();
    ReferenceSteps2();
    ReferenceSteps3();
    ReferenceSteps4();
  }

  lemma ReferenceSteps1()
    ensures Step(Step(Step(Step(0x0000, '1'), '5'), '9'), 'x') == 0xe0a7
    ensures Step(Step(Step(Step(0xe0a7, '4'), '8'), ','), '0') == 0xfe64
  {
    assert Step(0x0000, '1') == 0x0031 && Step(0x0031, '5') == 0x804d;
    assert Step(0x804d, '9') == 0xc05f && Step(0xc05f, 'x') == 0xe0a7;
    assert Step(0xe0a7, '4') == 0xf087 && Step(0xf087, '8') == 0xf87b;
    assert Step(0xf87b, ',') == 0xfc69 && Step(0xfc69, '0') == 0xfe64;
  }

  lemma ReferenceSteps2()
    ensures Step(Step(Step(Step(0xfe64, ','), '0'), '{'), '7') == 0x506c
    ensures Step(Step(Step(Step(0x506c, '9'), 'x'), '4'), '8') == 0xe57d
  {
    assert Step(0xfe64, ',') == 0x7f5e && Step(0x7f5e, '0') == 0x3fdf;
    assert Step(0x3fdf, '{') == 0xa06a && Step(0xa06a, '7') == 0x506c;
    assert Step(0x506c, '9') == 0x286f && Step(0x286f, 'x') == 0x94af;
    assert Step(0x94af, '4') == 0xca8b && Step(0xca8b, '8') == 0xe57d;
  }

  lemma ReferenceSteps3()
    ensures Step(Step(Step(Step(0xe57d, ','), '0'), ','), '0') == 0x5eaf
    ensures Step(Step(Step(Step(0x5eaf, ','), '7'), '9'), 'x') == 0xb692
  {
    assert Step(0xe57d, ',') == 0xf2ea && Step(0xf2ea, '0') == 0x79a5;
    assert Step(0x79a5, ',') == 0xbcfe && Step(0xbcfe, '0') == 0x5eaf;
    assert Step(0x5eaf, ',') == 0xaf83 && Step(0xaf83, '7') == 0xd7f8;
    assert Step(0xd7f8, '9') == 0x6c35 && Step(0x6c35, 'x') == 0xb692;
  }

  lemma ReferenceSteps4()
    ensures Step(Step(Step(Step(0xb692, '4'), '8'), ','), '8') == 0xabcb
    ensures Step(Step(Step(Step(0xabcb, '0'), ','), '0'), '}') == 0xbb62
  {
    assert Step(0xb692, '4') == 0x5b7d && Step(0x5b7d, '8') == 0xadf6;
    assert Step(0xadf6, ',') == 0x5727 && Step(0x5727, '8') == 0xabcb;
    assert Step(0xabcb, '0') == 0xd615 && Step(0xd615, ',') == 0xeb36;
    assert Step(0xeb36, '0') == 0x75cb && Step(0x75cb, '}') == 0xbb62;
  }

  // ---- Changes are detected ------------------------------------------------------

  /** Undoes one step, for the byte that step added. */
  function Unstep(csum: u16, c: byte): (r: u16) {
    var rotated := (csum - c as int) % 0x1_0000;
    rotated % 0x8000 * 2 + rotated / 0x8000
  }

  lemma UnstepOfStep(csum: u16, c: byte)
    ensures Unstep(Step(csum, c), c) == csum
  {
    assert (Step(csum, c) - c as int) % 0x1_0000 == RotateRight(csum);
  }

  lemma StepOfUnstep(csum: u16, c: byte)
    ensures Step(Unstep(csum, c), c) == csum
  {
    assert RotateRight(Unstep(csum, c)) == (csum - c as int) % 0x1_0000;
  }

  /** For each byte the step is a bijection on the 16-bit states. */
  lemma StepIsBijection(csum: u16, c: byte)
    ensures Unstep(Step(csum, c), c) == csum
    ensures Step(Unstep(csum, c), c) == csum
  {
    UnstepOfStep(csum, c);
    StepOfUnstep(csum, c);
  }

  /** From one state, different bytes lead to different states. */
  lemma StepSeparatesBytes(csum: u16, a: byte, b: byte)
    requires a != b
    ensures Step(csum, a) != Step(csum, b)
  {
  }

  /** Different states stay different over any common text. */
  lemma {:induction false} StatesStayApart(p: u16, q: u16, s: seq<byte>)
    requires p != q
    ensures ChecksumFrom(p, s) != ChecksumFrom(q, s)
    decreases |s|
  {
    if s != "" {
      StepIsBijection(p, s[0]);
      StepIsBijection(q, s[0]);
      StatesStayApart(Step(p, s[0]), Step(q, s[0]), s[1..]);
    }
  }

  /** Changing any one byte changes the checksum. */
  lemma SingleByteChangeDetected(s: seq<byte>, k: nat, b: byte)
    requires k < |s| && s[k] != b
    ensures Checksum(s[k := b]) != Checksum(s)
  {
    var front, back := s[..k], s[k + 1..];
    var mid := ChecksumFrom(0, front);
    assert s == front + [s[k]] + back && s[k := b] == front + [b] + back;
    ChecksumFromAppend(0, front + [s[k]], back);
    ChecksumFromAppend(0, front + [b], back);
    ChecksumFromAppend(0, front, [s[k]]);
    ChecksumFromAppend(0, front, [b]);
    assert ChecksumFrom(mid, [s[k]]) == Step(mid, s[k]);
    assert ChecksumFrom(mid, [b]) == Step(mid, b);
    StepSeparatesBytes(mid, s[k], b);
    StatesStayApart(Step(mid, s[k]), Step(mid, b), back);
  }
}
