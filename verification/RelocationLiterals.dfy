/** What the relocated copies of PC-relative loads and addresses do, in the terms of the architecture, and exactly when
    that is what the original did. */
module RelocationLiterals {
  import opened Words
  import opened A64
  import opened Options
  import opened Relocation
  import opened RelocationClasses
  import opened RelocationWords
  import opened RelocationEmission
  import opened RelocationLayout
  import opened RelocationInvariant
  import opened RelocationLimits
  import opened RelocationSimulation

  /** The word without its offset: which load it is, and to which register. */
  function LiteralKey(w: Word): nat {
    w / 0x100_0000 * 0x100_0000 + w % 32
  }

  /** The bytes that a literal load reads. */
  function LiteralSize(w: Word): nat {
    var top := w / 0x100_0000;
    if top == 0x58 || top == 0x5c then 8 else if top == 0x9c then 16 else 4
  }

  // ---------- bits ----------

  lemma {:induction false} AndCommutes(a: nat, b: nat)
    ensures And(a, b) == And(b, a)
  {
    if a > 0 && b > 0 {
      AndCommutes(a / 2, b / 2);
    }
  }

  /** Disjunction works on the three fields separately. */
  lemma OrFields19(t1: nat, f1: nat, r1: nat, t2: nat, f2: nat, r2: nat)
    requires f1 < 0x8_0000 && f2 < 0x8_0000 && r1 < 32 && r2 < 32
    requires OrBits(f1, f2) < 0x8_0000 && OrBits(r1, r2) < 32
    ensures OrBits(Word19(t1, f1, r1), Word19(t2, f2, r2)) == Word19(OrBits(t1, t2), OrBits(f1, f2), OrBits(r1, r2))
  {
    hide OrBits, Word19, Join;
    Joined19(t1, f1, r1);
    Joined19(t2, f2, r2);
    OrJoin(Join(t1, f1, 19), r1, Join(t2, f2, 19), r2, 5);
    OrJoin(t1, f1, t2, f2, 19);
    Joined19(OrBits(t1, t2), OrBits(f1, f2), OrBits(r1, r2));
  }

  lemma OrZero(a: nat)
    ensures OrBits(a, 0) == a && OrBits(0, a) == a
  {
  }

  /** The masks of the three load classes keep bits of the top byte beside the offset. */
  predicate LoadMask(mask: Word, extra: nat) {
    (mask == 0xbf00_0000 && extra == 0x40) || (mask == 0x3f00_0000 && extra == 0xc0) || (mask == 0xff00_0000 && extra == 0)
  }

  lemma OffsetEight(mask: Word, extra: nat)
    requires LoadMask(mask, extra)
    ensures And(64, 0xffff_ffff - mask) == 64
  {
    hide And, Pow2;
    Powers();
    AndCommutes(64, 0xffff_ffff - mask);
    OneBit(0xffff_ffff - mask, 6);
  }

  /** The copy of a load that reads two words further on. */
  lemma EightAhead(w: Word)
    ensures var v := Or(64, And(w, 0xff00_001f)); LiteralKey(v) == LiteralKey(w) && LiteralDisplacement(v) == 8
  {
    hide And, OrBits;
    var t, f, r := w / 0x100_0000, w / 32 % 0x8_0000, w % 32;
    Fields19(w, t, f, r);
    Keep19(t, f, r);
    OrOffset19(t, 2, r);
    Parts19(t, 2, r);
  }

  // ---------- a copied literal ----------

  lemma LoadMaskIs(w: Word, c: LiteralClass)
    requires LoadClass(w) == Some(c)
    ensures LoadMask(c.mask, if c.mask == 0xbf00_0000 then 0x40 else if c.mask == 0x3f00_0000 then 0xc0 else 0)
    ensures c.size >= LiteralSize(w) && c.size in {4, 8, 16}
    ensures w / 0x100_0000 in {0x18, 0x58, 0x98, 0x1c, 0x5c, 0x9c, 0xdc}
  {
    hide And, OrBits;
    var t := w / 0x100_0000;
    LiteralClasses(w);
    LoadSelector(w);
    LoadVectorSelector(w);
    SizeBits(w, t);
  }

  lemma BranchOver(k: nat)
    requires k < 0x1000
    ensures Decode(0x1400_0000 + k) == Branch(4 * k)
  {
    DecodeWord26(5, k);
  }

  /** A load whose literal is copied reads the copy, in the same way and into the same register; a branch leads over the
      copy to the end of the block; and the copy has at least the bytes of the literal and is aligned for them. */
  lemma CopiedLoad(win: Window, i: nat, pos: nat, c: LiteralClass)
    requires i < |win.code| && LoadClass(win.code[i]) == Some(c) && CopiesLiteral(win, i, pos, c.size) && win.dst % 4 == 0
    ensures var w, e, n := win.code[i], EmitLoadLiteral(win, i, pos, c), pos + CopyPad(win, pos, c.size);
      && e.pad == n - pos < c.size / 4 && e.forward.None? && |e.words| == 2 + c.size / 4 && c.size >= LiteralSize(w)
      && LiteralKey(e.words[0]) == LiteralKey(w) && LiteralDisplacement(e.words[0]) == 8
      && Decode(e.words[1]) == Branch(4 * (1 + c.size / 4))
      && (forall j :: 0 <= j < c.size / 4 ==> e.words[2 + j] == win.data(LoadTarget(win, i) + 4 * j))
      && OutputAddress(win, n + 2) % c.size == 0
  {
    hide And, OrBits, LoadTarget, LoadClass, CopiesLiteral, CopyPad, LiteralKey, Decode;
    var w := win.code[i];
    LoadMaskIs(w, c);
    OffsetEight(c.mask, if c.mask == 0xbf00_0000 then 0x40 else if c.mask == 0x3f00_0000 then 0xc0 else 0);
    EightAhead(w);
    BranchOver(1 + c.size / 4);
    CopyAligned(win, pos, c.size);
  }

  lemma CopyAligned(win: Window, pos: nat, size: nat)
    requires size in {4, 8, 16} && win.dst % 4 == 0
    ensures CopyPad(win, pos, size) < size / 4
    ensures OutputAddress(win, pos + CopyPad(win, pos, size) + 2) % size == 0
  {
    var b := win.dst / 4 + pos + 2;
    assert OutputAddress(win, pos + 2) == 4 * b;
    var k := CopyPad(win, pos, size);
    assert OutputAddress(win, pos + k + 2) == 4 * (b + k);
    if size == 4 {
      Quarter(b, 1, k);
    } else if size == 8 {
      Quarter(b, 2, k);
    } else {
      Quarter(b, 4, k);
    }
  }

  lemma Quarter(b: int, m: nat, k: nat)
    requires m == 1 || m == 2 || m == 4
    requires k == -(4 * b) % (4 * m) / 4
    ensures k < m && 4 * (b + k) % (4 * m) == 0
  {
    var q, r := b / m, b % m;
    assert b == m * q + r;
    if m == 4 {
      NegatedRest(4 * b, q, r);
      assert r == 0 ==> 4 * (b + k) == 16 * q;
      assert r != 0 ==> 4 * (b + k) == 16 * (q + 1);
    } else if m == 2 {
      assert r == 0 ==> -(4 * b) == 8 * -q;
      assert r == 1 ==> -(4 * b) == 8 * (-q - 1) + 4;
    } else {
      assert -(4 * b) == 4 * -b;
    }
  }

  // ---------- a moved load ----------

  /** The offset field of a moved load, and what of the offset's sign reaches the top byte. */
  lemma OffsetBits(o: int, mask: Word, extra: nat)
    requires LoadMask(mask, extra) && -0x4_0000 <= o < 0x4_0000
    ensures And(Shl(o, 32), 0xffff_ffff - mask) == Word19(if o < 0 then extra else 0, o % 0x8_0000, 0)
  {
    hide And, OrBits;
    var f := o % 0x8_0000;
    var d := if o < 0 then 255 else 0;
    Cut19(o, if o < 0 then -1 else 0, d, f);
    var l := f * 32;
    assert Word19(d, f, 0) == Word24(d, l) == d * 0x100_0000 + l;
    Powers();
    SplitMask(d, l, extra, 0xff_ffff, 24);
    AndOnes(l, 24);
    AndCommutes(255, extra);
    AndOnes(extra, 8);
    assert And(0, extra) == 0 by { AndNothing(extra); }
    assert 0xffff_ffff - mask == extra * 0x100_0000 + 0xff_ffff;
  }

  lemma AndNothing(b: nat)
    ensures And(0, b) == 0
  {
  }

  /** A load that is moved reads at the new offset, in the same way and into the same register, exactly if the offset is
      not negative, or the bits of the top byte that a negative one sets are set already. */
  lemma MovedWord(w: Word, o: int, mask: Word, extra: nat)
    requires LoadMask(mask, extra) && -0x4_0000 <= o < 0x4_0000
    ensures var v := Or(And(Shl(o, 32), 0xffff_ffff - mask), And(w, 0xff00_001f));
      && LiteralDisplacement(v) == 4 * o
      && (LiteralKey(v) == LiteralKey(w) <==> o >= 0 || OrBits(extra, w / 0x100_0000) == w / 0x100_0000)
  {
    hide And, OrBits, Shl;
    var t, f, r := w / 0x100_0000, w / 32 % 0x8_0000, w % 32;
    var d := if o < 0 then extra else 0;
    Fields19(w, t, f, r);
    Keep19(t, f, r);
    OffsetBits(o, mask, extra);
    OrZero(o % 0x8_0000);
    OrZero(r);
    OrZero(t);
    OrFields19(d, o % 0x8_0000, 0, t, 0, r);
    SignExtended(o, 0x4_0000);
    assert OrBits(d, t) < 256 by { Powers(); OrBound(d, t, 8); }
    Parts19(OrBits(d, t), o % 0x8_0000, r);
  }

  lemma MovedLoad(win: Window, i: nat, pos: nat, c: LiteralClass)
    requires Placed(win) && i < |win.code| && LoadClass(win.code[i]) == Some(c) && !CopiesLiteral(win, i, pos, c.size)
    ensures var w, e := win.code[i], EmitLoadLiteral(win, i, pos, c);
      var extra := if c.mask == 0xbf00_0000 then 0x40 else if c.mask == 0x3f00_0000 then 0xc0 else 0;
      var offset := LoadTarget(win, i) - OutputAddress(win, pos + e.pad);
      && e.pad < c.size / 4 && e.forward.None? && |e.words| == 1 && offset % c.size == 0
      && LiteralDisplacement(e.words[0]) == offset
      && (LiteralKey(e.words[0]) == LiteralKey(w) <==> offset >= 0 || OrBits(extra, w / 0x100_0000) == w / 0x100_0000)
  {
    hide And, OrBits, LoadTarget, LoadClass, LiteralKey, LiteralDisplacement, Shl, Or;
    LoadMaskIs(win.code[i], c);
    WordTarget(win, i);
    var target := LoadTarget(win, i);
    var q := Asr(target - OutputAddress(win, pos), 4);
    var k := Excess(q, c.size / 4);
    assert target - OutputAddress(win, pos) == 4 * q;
    assert target - OutputAddress(win, pos + k) == 4 * (q - k);
    Whole(q, c.size / 4);
    MovedWord(win.code[i], q - k, c.mask, if c.mask == 0xbf00_0000 then 0x40 else if c.mask == 0x3f00_0000 then 0xc0 else 0);
  }

  /** In bytes: a literal is copied if it is in the window, or as far away as a load reaches, less its own length beyond
      one word. */
  lemma CopiedExactly(win: Window, i: nat, pos: nat, c: LiteralClass)
    requires Placed(win) && i < |win.code| && LoadClass(win.code[i]) == Some(c)
    ensures var target := LoadTarget(win, i); var distance := target - (win.dst + 4 * pos);
      CopiesLiteral(win, i, pos, c.size) <==>
        (win.src <= target < win.src + 4 * |win.code| || distance >= 0x10_0000 - c.size || distance <= c.size - 0x10_0000)
  {
    hide LoadTarget, LoadClass;
    WordTarget(win, i);
    var q := Asr(LoadTarget(win, i) - OutputAddress(win, pos), 4);
    assert LoadTarget(win, i) - OutputAddress(win, pos) == 4 * q;
  }

  lemma Whole(q: int, m: nat)
    requires m == 1 || m == 2 || m == 4
    ensures q % m < m && 4 * (q - q % m) % (4 * m) == 0
  {
    var d := q / m;
    assert q - q % m == m * d;
    if m == 4 { assert 4 * (4 * d) == 16 * d; } else if m == 2 { assert 4 * (2 * d) == 8 * d; }
  }

  lemma WordTarget(win: Window, i: nat)
    requires Placed(win) && i < |win.code|
    ensures LoadTarget(win, i) % 4 == 0
  {
    hide UnsignedDisplacement;
    UnsignedDisplacementIs(win.code[i]);
    var d := win.code[i] / 32 % 0x8_0000;
    LowWhole(SignExtend(d, 0x4_0000));
  }

  lemma LowWhole(x: int)
    ensures Low32(4 * x) % 4 == 0
  {
    var q := 4 * x / 0x1_0000_0000;
    assert Low32(4 * x) == 4 * (x - 0x4000_0000 * q);
  }

  // ---------- ADR and ADRP ----------

  /** The page displacement of ADRP in the architecture. */
  function PageDisplacement(w: Word): int {
    0x1000 * AdrDisplacement(w)
  }

  function PageOf(a: int): int {
    a - a % 0x1000
  }

  /** A far address is loaded from behind a branch, into the same register. */
  lemma AddressLiteral(win: Window, i: nat, pos: nat, target: int)
    requires Placed(win) && i < |win.code|
    ensures var w, e := win.code[i], EmitAddressLiteral(win, i, pos, target);
      && e.pad <= 1 && e.forward.None? && |e.words| == 4 && OutputAddress(win, pos + e.pad + 2) % 8 == 0
      && LiteralKey(e.words[0]) == 0x5800_0000 + w % 32 && LiteralDisplacement(e.words[0]) == 8
      && Decode(e.words[1]) == Branch(12)
      && JoinLiteral(e.words[2], e.words[3]) == Wrap(target)
  {
    hide And, OrBits, Or, LiteralKey, LiteralDisplacement, Decode, OutputAddress, JoinLiteral, Wrap;
    LoadToRegister(win.code[i]);
    BranchOver(3);
    LiteralValue(target);
    AddressPad(win, pos);
  }

  lemma AddressPad(win: Window, pos: nat)
    requires Placed(win)
    ensures OutputAddress(win, pos + (if OutputAddress(win, pos + 2) % 8 != 0 then 1 else 0) + 2) % 8 == 0
  {
    hide OutputAddress;
    Aligned(win, pos + 2, if OutputAddress(win, pos + 2) % 8 != 0 then 1 else 0);
  }

  lemma LoadToRegister(w: Word)
    ensures var v := Or(Or(0x5800_0000, And(64, 0x60ff_ffff)), And(w, 0x1f));
      LiteralKey(v) == 0x5800_0000 + w % 32 && LiteralDisplacement(v) == 8
  {
    hide And, OrBits;
    var r := w % 32;
    Powers();
    AndCommutes(64, 0x60ff_ffff);
    OneBit(0x60ff_ffff, 6);
    LowMask(w / 32, r, 5);
    assert w == w / 32 * 32 + r;
    OrZero(0);
    OrZero(2);
    OrZero(0x58);
    OrZero(r);
    OrFields19(0x58, 0, 0, 0, 2, 0);
    assert OrBits(0x5800_0000, 64) == Word19(0x58, 2, 0);
    OrFields19(0x58, 2, 0, 0, 0, r);
    Parts19(0x58, 2, r);
  }

  /** ADR whose target is in reach of its new place points there from there; the two low bits of the offset also reach
      the register field, so that the register is the same exactly if they change nothing there. */
  lemma NearAdr(win: Window, i: nat, pos: nat, entry: seq<nat>)
    requires Placed(win) && i < |win.code| && |entry| == i && IsAdrWord(win.code[i])
    requires var target := SourceAddress(win, i) + UnsignedAddressDisplacement(win.code[i]);
      !InRange(win, target) && Abs(target - OutputAddress(win, pos)) < 0x000f_ffff
    ensures var w, e := win.code[i], EmitAdr(win, i, pos, entry);
      var offset := SourceAddress(win, i) + UnsignedAddressDisplacement(w) - OutputAddress(win, pos);
      && e.pad == 0 && e.forward.None? && |e.words| == 1
      && e.words[0] / 0x100_0000 == w / 0x100_0000 && AdrDisplacement(e.words[0]) == offset
      && e.words[0] % 32 == OrBits(offset % 4 * 8, w % 32)
  {
    hide And, OrBits, IsAdrWord, UnsignedAddressDisplacement, AdrDisplacement, Shl, Or;
    var w := win.code[i];
    var offset := SourceAddress(win, i) + UnsignedAddressDisplacement(w) - OutputAddress(win, pos);
    LowBitsKept(win, i, pos);
    MovedAdr(w, offset);
  }

  lemma LowBitsKept(win: Window, i: nat, pos: nat)
    requires Placed(win) && i < |win.code|
    ensures (SourceAddress(win, i) + UnsignedAddressDisplacement(win.code[i]) - OutputAddress(win, pos)) % 4
         == win.code[i] / 0x2000_0000 % 4
  {
    hide UnsignedAddressDisplacement;
    var w := win.code[i];
    UnsignedAddressDisplacementIs(w);
    LowTwo(SignExtend(w / 32 % 0x8_0000, 0x4_0000), w / 0x2000_0000 % 4);
    var d := UnsignedAddressDisplacement(w);
    assert SourceAddress(win, i) - OutputAddress(win, pos) == 4 * (win.src / 4 - win.dst / 4 + i - pos);
    AddWhole(win.src / 4 - win.dst / 4 + i - pos, d);
  }

  lemma AddWhole(x: int, d: int)
    ensures (4 * x + d) % 4 == d % 4
  {
  }

  lemma LowTwo(x: int, b: nat)
    requires b < 4
    ensures Low32(4 * x + b) % 4 == b
  {
    var q := (4 * x + b) / 0x1_0000_0000;
    assert Low32(4 * x + b) == 4 * (x - 0x4000_0000 * q) + b;
  }

  lemma MovedAdr(w: Word, offset: int)
    requires -0x10_0000 <= offset < 0x10_0000 && offset % 4 == w / 0x2000_0000 % 4
    ensures var v := Or(And(Shl(offset, 8), 0x00ff_ffff), And(w, 0xff00_001f));
      && v / 0x100_0000 == w / 0x100_0000 && AdrDisplacement(v) == offset && v % 32 == OrBits(offset % 4 * 8, w % 32)
  {
    hide And, OrBits, Shl;
    var t, f, r := w / 0x100_0000, w / 32 % 0x8_0000, w % 32;
    var o, b := offset / 4, offset % 4;
    var g := o % 0x8_0000;
    Fields19(w, t, f, r);
    Keep19(t, f, r);
    OffsetOnly24(offset);
    OrZero(t);
    OrZero(g);
    assert OrBits(b * 8, r) < 32 by { Powers(); OrBound(b * 8, r, 5); }
    OrFields19(0, g, b * 8, t, 0, r);
    SignExtended(o, 0x4_0000);
    Parts19(t, g, OrBits(b * 8, r));
    TopTwo(Word19(t, g, OrBits(b * 8, r)), t);
    TopTwo(w, t);
  }

  lemma TopTwo(w: Word, t: nat)
    requires t == w / 0x100_0000
    ensures w / 0x2000_0000 % 4 == t / 32 % 4
  {
    assert w / 0x2000_0000 == t / 32;
  }

  lemma OffsetOnly24(offset: int)
    ensures And(Shl(offset, 8), 0x00ff_ffff) == Word19(0, offset / 4 % 0x8_0000, offset % 4 * 8)
  {
    hide And;
    var x := offset * 8;
    var d, l := Low32(x) / 0x100_0000, Low32(x) % 0x100_0000;
    Powers();
    LowMask(d, l, 24);
    LowFields(offset, x / 0x1_0000_0000);
  }

  lemma LowFields(offset: int, c: int)
    requires c == offset * 8 / 0x1_0000_0000
    ensures Low32(offset * 8) % 0x100_0000 == Word19(0, offset / 4 % 0x8_0000, offset % 4 * 8)
  {
    var o, b := offset / 4, offset % 4;
    var q, g := o / 0x8_0000, o % 0x8_0000;
    assert offset * 8 == q * 0x100_0000 + (g * 32 + b * 8);
    assert Low32(offset * 8) == offset * 8 - c * 0x1_0000_0000;
    assert Low32(offset * 8) == (q - 256 * c) * 0x100_0000 + (g * 32 + b * 8);
  }

  /** ADR of an address in the window waits for the entry of its target, if that is a later instruction; with the offset
      added, in words, it points as far into the target's copy as it did into the target. */
  lemma InsideAdr(win: Window, i: nat, pos: nat, entry: seq<nat>, delta: nat)
    requires Placed(win) && i < |win.code| && |entry| == i && IsAdrWord(win.code[i]) && delta < 0x4_0000
    requires InRange(win, SourceAddress(win, i) + UnsignedAddressDisplacement(win.code[i]))
    ensures var w, e := win.code[i], EmitAdr(win, i, pos, entry);
      var j := RefIndex(win, SourceAddress(win, i) + UnsignedAddressDisplacement(w));
      && e.pad == 0 && |e.words| == 1 && e.forward == (if j > i then Some(Forward(j, 5, 0x00ff_ffff)) else None)
      && var v := Or(e.words[0], OffsetField(delta, 5, 0x00ff_ffff));
         && AdrDisplacement(v) == 4 * delta + w / 0x2000_0000 % 4 && LiteralKey(v) == LiteralKey(w)
  {
    hide And, OrBits, IsAdrWord, UnsignedAddressDisplacement, AdrDisplacement, LiteralKey, OffsetField, Or;
    PatchedAdr(win.code[i], delta);
  }

  lemma FieldOf(delta: nat)
    requires delta < 0x4_0000
    ensures OffsetField(delta, 5, 0x00ff_ffff) == Word19(0, delta, 0)
  {
    hide And;
    Powers();
    var x := delta * 32;
    assert Low32(x) == x;
    LowMask(0, x, 24);
  }

  lemma PatchedAdr(w: Word, delta: nat)
    requires delta < 0x4_0000
    ensures var v := Or(And(w, 0xff00_001f), OffsetField(delta, 5, 0x00ff_ffff));
      AdrDisplacement(v) == 4 * delta + w / 0x2000_0000 % 4 && LiteralKey(v) == LiteralKey(w)
  {
    hide And, OrBits, OffsetField;
    var t, f, r := w / 0x100_0000, w / 32 % 0x8_0000, w % 32;
    Fields19(w, t, f, r);
    Keep19(t, f, r);
    FieldOf(delta);
    OrZero(t);
    OrZero(delta);
    OrZero(r);
    OrFields19(t, 0, r, 0, delta, 0);
    Parts19(t, delta, r);
    TopTwo(Word19(t, delta, r), t);
    TopTwo(w, t);
  }

  /** The source's target of ADRP is the architecture's exactly for displacements that are not negative. */
  lemma AdrpTargetIsRight(w: Word, pc: int)
    ensures PageOf(pc) + Shl(UnsignedAddressDisplacement(w), 4096) == PageOf(pc) + PageDisplacement(w)
      <==> w / 0x80_0000 % 2 == 0
  {
    hide UnsignedAddressDisplacement, AdrDisplacement;
    UnsignedAddressDisplacementIs(w);
    SignBit(w);
    var d := AdrDisplacement(w);
    Unsigned(d);
    Pages(d);
  }

  lemma Pages(d: int)
    requires -0x10_0000 <= d < 0x10_0000
    ensures Shl(if d >= 0 then d else d + 0x1_0000_0000, 4096) == if d >= 0 then 4096 * d else 4096 * d + 0x1_0000_0000
  {
    if d < 0 {
      assert (d + 0x1_0000_0000) * 4096 == 4095 * 0x1_0000_0000 + (4096 * d + 0x1_0000_0000);
    }
  }

  /** What the relocator writes for ADRP: a far page as an address literal, and a page of the window as the word itself,
      which is right exactly if the new place is in the page of the old one. */
  lemma Adrp(win: Window, i: nat, pos: nat)
    requires i < |win.code|
    ensures var w, pc, e := win.code[i], SourceAddress(win, i), EmitAdrp(win, i, pos);
      var target := PageOf(pc) + Shl(UnsignedAddressDisplacement(w), 4096);
      if InRange(win, target) then
        && e == Emission(0, [w], None)
        && (PageOf(OutputAddress(win, pos)) + PageDisplacement(e.words[0]) == PageOf(pc) + PageDisplacement(w)
            <==> PageOf(OutputAddress(win, pos)) == PageOf(pc))
      else e == EmitAddressLiteral(win, i, pos, target)
  {
    hide UnsignedAddressDisplacement, EmitAddressLiteral, AdrDisplacement, Shl;
  }
}
