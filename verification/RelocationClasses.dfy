/** The relocator's masks select the instruction classes of the architecture. */
module RelocationClasses {
  import opened Words
  import opened A64
  import opened Options
  import opened Relocation

  lemma Fields26(w: Word, h: nat, f: nat)
    requires h == w / 0x400_0000 && f == w % 0x400_0000
    ensures h < 64 && w == Word26(h, f) && w / 0x100_0000 / 4 == h
  {
  }

  lemma Fields24(w: Word, t: nat, f: nat)
    requires t == w / 0x100_0000 && f == w % 0x100_0000
    ensures t < 256 && w == Word24(t, f)
  {
  }

  lemma Fields19(w: Word, t: nat, f: nat, r: nat)
    requires t == w / 0x100_0000 && f == w / 32 % 0x8_0000 && r == w % 32
    ensures t < 256 && w == Word19(t, f, r) && w / 16 % 2 == r / 16
  {
    var q: int := w / 32;
    assert w == q * 32 + r;
    assert t == q / 0x8_0000;
    assert q == t * 0x8_0000 + f;
    FifthBit(w, q, r);
  }

  lemma FifthBit(w: int, q: int, r: int)
    requires w == q * 32 + r && 0 <= r < 32
    ensures w / 16 % 2 == r / 16
  {
    assert w / 16 == 2 * q + r / 16;
  }

  lemma Fields14(w: Word, t: nat, f: nat, r: nat)
    requires t == w / 0x8_0000 && f == w / 32 % 0x4000 && r == w % 32
    ensures t < 0x2000 && w == Word14(t, f, r) && w / 0x100_0000 == t / 32
  {
  }

  lemma BranchImmClass(w: Word)
    ensures And(w, 0xfc00_0000) == w / 0x400_0000 * 0x400_0000
    ensures And(w, 0xfc00_0000) == OP_B <==> w / 0x100_0000 / 4 == 0x05
    ensures And(w, 0xfc00_0000) == OP_BL <==> w / 0x100_0000 / 4 == 0x25
  {
    var h, f := w / 0x400_0000, w % 0x400_0000;
    Fields26(w, h, f);
    Opcode26(h, f);
  }

  /** The top byte under each mask that selects a class. */
  lemma TopBytes(w: Word, t: nat)
    requires t == w / 0x100_0000
    ensures And(w, 0xff00_0000) == t * 0x100_0000
    ensures And(w, 0x7f00_0000) == And(t, 0x7f) * 0x100_0000
    ensures And(w, 0x3f00_0000) == And(t, 0x3f) * 0x100_0000
    ensures And(w, 0xbf00_0000) == And(t, 0xbf) * 0x100_0000
    ensures And(w, 0x9f00_0000) == And(t, 0x9f) * 0x100_0000
  {
    var f := w % 0x100_0000;
    Fields24(w, t, f);
    TopMask(t, f, 0xff);
    TopMask(t, f, 0x7f);
    TopMask(t, f, 0x3f);
    TopMask(t, f, 0xbf);
    TopMask(t, f, 0x9f);
    Powers();
    AndOnes(t, 8);
  }

  lemma Low7(t: nat)
    requires t < 256
    ensures And(t, 0x7f) == t % 128
  {
    Byte7(t / 128, t % 128);
  }

  lemma Low6(t: nat)
    requires t < 256
    ensures And(t, 0x3f) == t % 64
  {
    Byte6(t / 64, t % 64);
  }

  lemma SplitByte6(t: nat, b: nat, c: nat, l: nat)
    requires t < 256 && b == t / 128 && c == t % 128 / 64 && l == t % 64
    ensures b < 2 && c < 2 && t == b * 128 + (c * 64 + l)
  {
  }

  lemma TopAndLow6(t: nat)
    requires t < 256
    ensures And(t, 0xbf) == t / 128 * 128 + t % 64
  {
    var b, c, l := t / 128, t % 128 / 64, t % 64;
    SplitByte6(t, b, c, l);
    ByteTopBit(b, c * 64 + l, 0x3f);
    Byte6(c, l);
  }

  lemma SplitByte5(t: nat, b: nat, c: nat, l: nat)
    requires t < 256 && b == t / 128 && c == t % 128 / 32 && l == t % 32
    ensures b < 2 && c < 4 && t == b * 128 + (c * 32 + l)
  {
  }

  lemma TopAndLow5(t: nat)
    requires t < 256
    ensures And(t, 0x9f) == t / 128 * 128 + t % 32
  {
    var b, c, l := t / 128, t % 128 / 32, t % 32;
    SplitByte5(t, b, c, l);
    ByteTopBit(b, c * 32 + l, 0x1f);
    Byte5(c, l);
  }

  lemma CondSelector(w: Word)
    ensures And(w, 0xff00_0010) == 0x5400_0000 <==> w / 0x100_0000 == 0x54 && w / 16 % 2 == 0
  {
    var t, f, r := w / 0x100_0000, w / 32 % 0x8_0000, w % 32;
    Fields19(w, t, f, r);
    KeepCond(t, f, r / 16, r % 16);
  }

  /** The two other classes of conditional branches. */
  lemma CompareSelector(w: Word)
    ensures And(w, 0x7f00_0000) == w / 0x100_0000 % 128 * 0x100_0000
  {
    var t := w / 0x100_0000;
    TopBytes(w, t);
    Low7(t);
  }

  /** Conditional branches are recognised exactly, with the offset field of their width. */
  lemma CondBranchClass(w: Word)
    ensures CondMask(w).Some? <==> IsBranch19(w) || IsBranch14(w)
    ensures IsBranch19(w) ==> CondMask(w) == Some(0xff00_001f)
    ensures IsBranch14(w) ==> CondMask(w) == Some(0xfff8_001f)
  {
    CondSelector(w);
    CompareSelector(w);
    var x := w / 0x100_0000 % 128;
    Scaled(x, 0x34);
    Scaled(x, 0x35);
    Scaled(x, 0x36);
    Scaled(x, 0x37);
  }

  lemma Scaled(x: nat, k: nat)
    ensures x * 0x100_0000 == k * 0x100_0000 <==> x == k
  {
  }

  lemma WholeByteSelector(w: Word)
    ensures And(w, 0xff00_0000) == w / 0x100_0000 * 0x100_0000
  {
    TopBytes(w, w / 0x100_0000);
  }

  lemma LoadSelectorValue(w: Word, t: nat)
    requires t == w / 0x100_0000
    ensures And(w, 0xbf00_0000) == (t / 128 * 128 + t % 64) * 0x100_0000
  {
    TopBytes(w, t);
    TopAndLow6(t);
  }

  lemma LoadSelector(w: Word)
    ensures And(w, 0xbf00_0000) == 0x1800_0000 <==> w / 0x100_0000 == 0x18 || w / 0x100_0000 == 0x58
  {
    var t := w / 0x100_0000;
    LoadSelectorValue(w, t);
    var b, l := t / 128, t % 64;
    assert t < 128 <==> b == 0;
    Scaled(b * 128 + l, 0x18);
  }

  lemma LoadVectorSelector(w: Word)
    ensures And(w, 0x3f00_0000) == 0x1c00_0000 <==> w / 0x100_0000 % 64 == 0x1c
  {
    var t := w / 0x100_0000;
    TopBytes(w, t);
    Low6(t);
    Scaled(And(t, 0x3f), 0x1c);
  }

  lemma LiteralClasses(w: Word)
    ensures IsPrefetch(w) <==> w / 0x100_0000 == 0xd8
    ensures LoadClass(w).Some? <==> IsLoadLiteral(w)
  {
    WholeByteSelector(w);
    LoadSelector(w);
    LoadVectorSelector(w);
    Scaled(w / 0x100_0000, 0xd8);
    Scaled(w / 0x100_0000, 0x98);
  }

  lemma AddressSelector(w: Word, t: nat)
    requires t == w / 0x100_0000
    ensures And(w, 0x9f00_0000) == (t / 128 * 128 + t % 32) * 0x100_0000
  {
    TopBytes(w, t);
    TopAndLow5(t);
  }

  lemma AddressClasses(w: Word)
    ensures IsAdrWord(w) <==> IsAdr(w)
    ensures IsAdrpWord(w) <==> IsAdrp(w)
  {
    var t := w / 0x100_0000;
    AddressSelector(w, t);
    var x := t / 128 * 128 + t % 32;
    Scaled(x, 0x10);
    Scaled(x, 0x90);
  }
}
