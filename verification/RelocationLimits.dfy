/** The limits of the relocator: the displacements of PC-relative loads and addresses lose their sign, so they are
    right exactly when they are not negative; and the windows whose relocated code is longest. */
module RelocationLimits {
  import opened Words
  import opened A64
  import opened Options
  import opened Relocation
  import opened RelocationClasses
  import opened RelocationWords
  import opened RelocationInvariant

  /** The displacement of LDR and LDRSW of a literal in the architecture. */
  function LiteralDisplacement(w: Word): int {
    4 * SignExtend(w / 32 % 0x8_0000, 0x4_0000)
  }

  /** The displacement of ADR in the architecture: immhi:immlo, sign-extended. */
  function AdrDisplacement(w: Word): int {
    4 * SignExtend(w / 32 % 0x8_0000, 0x4_0000) + w / 0x2000_0000 % 4
  }

  /** The field of 24 bits at the top of a word, shifted down to 21 bits. */
  lemma ShiftedDown(f: nat, r: nat)
    requires f < 0x8_0000 && r < 32
    ensures (f * 32 + r) * 256 < 0x1_0000_0000
    ensures Asr(AsInt32((f * 32 + r) * 256), 2048) == 4 * SignExtend(f, 0x4_0000) + r / 8
  {
    var x := (f * 32 + r) * 256;
    if f < 0x4_0000 {
      assert x < 0x8000_0000;
    } else {
      assert x >= 0x8000_0000;
    }
  }

  lemma ClearLowBits(a: nat, b: nat)
    requires b < 4 && 4 * a + b < 0x1_0000_0000
    ensures And(4 * a + b, 0xffff_fffc) == 4 * a
  {
    Powers();
    SplitMask(a, b, 0x3fff_ffff, 0, 2);
    AndOnes(a, 30);
  }

  lemma SignLost(s: int, b: nat)
    requires b < 4 && -0x4_0000 <= s < 0x4_0000
    ensures And(Low32(4 * s + b), 0xffff_fffc) == Low32(4 * s)
  {
    var a := if s >= 0 then s else s + 0x4000_0000;
    assert Low32(4 * s + b) == 4 * a + b;
    assert Low32(4 * s) == 4 * a;
    ClearLowBits(a, b);
  }

  lemma UnsignedDisplacementIs(w: Word)
    ensures UnsignedDisplacement(w) == Low32(LiteralDisplacement(w))
  {
    hide And, OrBits;
    var t, f, r := w / 0x100_0000, w / 32 % 0x8_0000, w % 32;
    Fields19(w, t, f, r);
    LowWord(t, f, r);
    ShiftedDown(f, r);
    SignLost(SignExtend(f, 0x4_0000), r / 8);
  }

  lemma LowWord(t: nat, f: nat, r: nat)
    requires f < 0x8_0000 && r < 32
    ensures Shl(Word19(t, f, r), 256) == (f * 32 + r) * 256
  {
    LowPart(Word19(t, f, r) * 256, t, (f * 32 + r) * 256);
  }

  lemma LowPart(x: int, t: int, y: int)
    requires x == t * 0x1_0000_0000 + y && 0 <= y < 0x1_0000_0000
    ensures x % 0x1_0000_0000 == y
  {
  }

  lemma TopBits(w: Word)
    ensures Shl(w, 2) / 0x4000_0000 == w / 0x2000_0000 % 4
  {
    var q, l := w / 0x2000_0000, w % 0x2000_0000;
    assert w * 2 == q / 4 * 0x1_0000_0000 + (q % 4 * 0x4000_0000 + l * 2);
  }

  lemma JoinLow(a: nat, b: nat)
    requires b < 4
    ensures OrBits(4 * a, b) == 4 * a + b
  {
    Powers();
    JoinIs(a, 0, 2);
    JoinIs(0, b, 2);
    JoinIs(a, b, 2);
    OrJoin(a, 0, 0, b, 2);
  }

  /** An offset of 21 bits with its two low bits apart. */
  lemma AddLow(s: int, b: nat)
    requires b < 4 && -0x4_0000 <= s < 0x4_0000
    ensures Low32(4 * s) + b < 0x1_0000_0000
    ensures OrBits(Low32(4 * s), b) == Low32(4 * s + b)
  {
    hide OrBits;
    var a := if s >= 0 then s else s + 0x4000_0000;
    assert Low32(4 * s) == 4 * a && Low32(4 * s + b) == 4 * a + b;
    JoinLow(a, b);
  }

  lemma UnsignedAddressDisplacementIs(w: Word)
    ensures UnsignedAddressDisplacement(w) == Low32(AdrDisplacement(w))
  {
    hide And, OrBits, UnsignedDisplacement, Shl, Low32;
    UnsignedDisplacementIs(w);
    TopBits(w);
    AddLow(SignExtend(w / 32 % 0x8_0000, 0x4_0000), w / 0x2000_0000 % 4);
  }

  /** The sign of a displacement is bit 23 of the word. */
  lemma SignBit(w: Word)
    ensures -0x10_0000 <= LiteralDisplacement(w) < 0x10_0000 && -0x10_0000 <= AdrDisplacement(w) < 0x10_0000
    ensures LiteralDisplacement(w) >= 0 <==> w / 0x80_0000 % 2 == 0
    ensures AdrDisplacement(w) >= 0 <==> w / 0x80_0000 % 2 == 0
  {
    var f := w / 32 % 0x8_0000;
    assert f < 0x4_0000 <==> w / 0x80_0000 % 2 == 0;
  }

  lemma Unsigned(d: int)
    requires -0x10_0000 <= d < 0x10_0000
    ensures Low32(d) == if d >= 0 then d else d + 0x1_0000_0000
  {
  }

  /** The source's target of a literal load is the architecture's exactly for forward displacements. */
  lemma LoadTargetIsRight(win: Window, i: nat)
    requires i < |win.code|
    ensures LoadTarget(win, i) == SourceAddress(win, i) + LiteralDisplacement(win.code[i])
      <==> win.code[i] / 0x80_0000 % 2 == 0
  {
    hide LiteralDisplacement, UnsignedDisplacement, Low32, AdrDisplacement;
    var w := win.code[i];
    UnsignedDisplacementIs(w);
    SignBit(w);
    Unsigned(LiteralDisplacement(w));
  }

  /** The source's target of ADR is the architecture's exactly for forward displacements. */
  lemma AdrTargetIsRight(win: Window, i: nat)
    requires i < |win.code|
    ensures SourceAddress(win, i) + UnsignedAddressDisplacement(win.code[i])
         == SourceAddress(win, i) + AdrDisplacement(win.code[i])
      <==> win.code[i] / 0x80_0000 % 2 == 0
  {
    hide AdrDisplacement, UnsignedAddressDisplacement, Low32, LiteralDisplacement;
    var w := win.code[i];
    UnsignedAddressDisplacementIs(w);
    SignBit(w);
    Unsigned(AdrDisplacement(w));
  }

  /** ADR X0, #-4 is relocated to an address 4 GiB too high. */
  lemma BackwardAdrGoesWrong(win: Window)
    requires Placed(win) && win.code == [0x10ff_ffe0] && win.dst == win.src + 0x1000
    ensures AdrDisplacement(win.code[0]) == -4
    ensures Emit(win, 0, 0, []) == EmitAddressLiteral(win, 0, 0, win.src - 4 + 0x1_0000_0000)
  {
    hide And, OrBits, Or, Low32, UnsignedAddressDisplacement, IsBranchImm, CondMask, IsPrefetch, LoadClass, IsAdrWord, EmitAddressLiteral;
    var w := win.code[0];
    assert AdrDisplacement(w) == -4;
    UnsignedAddressDisplacementIs(w);
    Unsigned(-4);
    ClassOfExample(w);
  }

  lemma ClassOfExample(w: Word)
    requires w == 0x10ff_ffe0
    ensures !IsBranchImm(w) && CondMask(w).None? && !IsPrefetch(w) && LoadClass(w).None? && IsAdrWord(w)
  {
    hide And, OrBits;
    BranchImmClass(w);
    CondBranchClass(w);
    LiteralClasses(w);
    AddressClasses(w);
  }

  /** LDR W0 of the word before the load copies a word from 4 GiB higher up. */
  lemma BackwardLoadGoesWrong(win: Window)
    requires Placed(win) && win.code == [0x18ff_ffe0] && win.dst == win.src + 0x1000
    ensures LiteralDisplacement(win.code[0]) == -4
    ensures var words := Emit(win, 0, 0, []).words;
      |words| == 3 && words[2] == win.data(win.src - 4 + 0x1_0000_0000)
  {
    hide And, OrBits, Or, Low32, UnsignedDisplacement, IsBranchImm, CondMask, IsPrefetch, LoadClass, EmitLoadLiteral;
    var w := win.code[0];
    assert LiteralDisplacement(w) == -4;
    UnsignedDisplacementIs(w);
    Unsigned(-4);
    ClassOfLoad(w);
    CopiedWord(win, LiteralClass(0xbf00_0000, 4), win.src - 4 + 0x1_0000_0000);
  }

  lemma CopiedWord(win: Window, c: LiteralClass, target: int)
    requires win.code != [] && c.size == 4 && target == LoadTarget(win, 0)
    requires target - win.dst >= 0x10_0000
    ensures var words := EmitLoadLiteral(win, 0, 0, c).words;
      |words| == 3 && words[2] == win.data(target)
  {
    hide And, OrBits, Or, LoadTarget;
  }

  lemma ClassOfLoad(w: Word)
    requires w == 0x18ff_ffe0
    ensures !IsBranchImm(w) && CondMask(w).None? && !IsPrefetch(w)
    ensures LoadClass(w) == Some(LiteralClass(0xbf00_0000, 4))
  {
    hide And, OrBits;
    BranchImmClass(w);
    CondBranchClass(w);
    LiteralClasses(w);
    LoadSelector(w);
    SizeBits(w, 0x18);
  }

  /** The two bits of the top byte that give the size of a literal. */
  lemma SizeBits(w: Word, t: nat)
    requires t == w / 0x100_0000
    ensures And(w, 0x4000_0000) == t / 64 % 2 * 0x4000_0000
    ensures And(w, 0x8000_0000) == t / 128 % 2 * 0x8000_0000
  {
    hide And, OrBits;
    var f := w % 0x100_0000;
    Fields24(w, t, f);
    TopMask(t, f, 0x40);
    TopMask(t, f, 0x80);
    Powers();
    OneBit(t, 6);
    OneBit(t, 7);
  }

  lemma OneBit(t: nat, k: nat)
    ensures And(t, Pow2(k)) == t / Pow2(k) % 2 * Pow2(k)
  {
    hide And, Pow2;
    var p := Pow2(k);
    var h, l := t / p, t % p;
    assert t == h * p + l;
    SplitMask(h, l, 1, 0, k);
    LowBit(h);
    assert 1 * p + 0 == p;
  }

  lemma LowBit(h: nat)
    ensures And(h, 1) == h % 2
  {
  }

  // ---------- the longest output ----------

  /** LDR Q0 of its own address: the literal is in the window, so it is copied. */
  const LDR_Q0_HERE: Word := 0x9c00_0000

  lemma ClassOfWideLoad(w: Word)
    requires w == LDR_Q0_HERE
    ensures !IsBranchImm(w) && CondMask(w).None? && !IsPrefetch(w)
    ensures LoadClass(w) == Some(LiteralClass(0x3f00_0000, 16))
  {
    hide And, OrBits;
    BranchImmClass(w);
    CondBranchClass(w);
    LiteralClasses(w);
    LoadSelector(w);
    LoadVectorSelector(w);
    SizeBits(w, 0x9c);
  }

  ghost predicate WideLoads(win: Window) {
    && Placed(win) && (win.dst % 16 == 0 || win.dst % 16 == 12)
    && forall i :: 0 <= i < |win.code| ==> win.code[i] == LDR_Q0_HERE
  }

  lemma WideEmission(win: Window, i: nat, pos: nat, entry: seq<nat>)
    requires WideLoads(win) && i < |win.code| && |entry| == i
    ensures Emit(win, i, pos, entry).pad == CopyPad(win, pos, 16) && |Emit(win, i, pos, entry).words| == 6
  {
    hide And, OrBits, Or, Low32, UnsignedDisplacement, IsBranchImm, CondMask, IsPrefetch, LoadClass, CopyPad;
    ClassOfWideLoad(win.code[i]);
    UnsignedDisplacementIs(win.code[i]);
    assert LiteralDisplacement(win.code[i]) == 0;
    Unsigned(0);
    assert InRange(win, LoadTarget(win, i));
  }

  lemma WidePad(win: Window, k: nat)
    requires win.dst % 16 == 0 || win.dst % 16 == 12
    ensures win.dst % 16 == 0 ==> CopyPad(win, 8 * k, 16) == 2
    ensures win.dst % 16 == 12 ==> CopyPad(win, 0, 16) == 3 && CopyPad(win, 8 * k + 1, 16) == 2
  {
    var q := win.dst / 16;
    if win.dst % 16 == 0 {
      PadAt(win, 8 * k, q + 2 * k, 2);
    } else {
      PadAt(win, 0, q + 1, 1);
      PadAt(win, 8 * k + 1, q + 2 * k + 1, 2);
    }
  }

  lemma PadAt(win: Window, pos: nat, q: int, s: int)
    requires OutputAddress(win, pos + 2) == 16 * q + 4 * s && 0 < s < 4
    ensures CopyPad(win, pos, 16) == 4 - s
  {
    NegatedRest(16 * q + 4 * s, q, s);
  }

  lemma {:induction false} WidePrefix(win: Window, k: nat)
    requires WideLoads(win) && k <= |win.code|
    ensures |Prefix(win, k).out| == 8 * k + if k > 0 && win.dst % 16 == 12 then 1 else 0
  {
    hide Emit, Patch, CopyPad;
    if k > 0 {
      var t := Prefix(win, k - 1);
      WidePrefix(win, k - 1);
      WidePad(win, k - 1);
      WideEmission(win, k - 1, |t.out|, t.entry);
    }
  }

  ghost predicate FarAway(win: Window) {
    win.dst - win.src >= 0x1000_0000 || win.src - win.dst >= 0x1000_0000
  }

  lemma FarTail(win: Window, pos: nat)
    requires Placed(win) && pos <= 50 && FarAway(win)
    ensures EmitTail(win, pos).pad == Odd(win, pos) && |EmitTail(win, pos).words| == 4
  {
    hide And, OrBits, Or;
    OddStep(win, pos, 2);
  }

  lemma WideEven(win: Window)
    requires WideLoads(win) && win.code != []
    ensures var pos := |Prefix(win, |win.code|).out|;
      pos == 8 * |win.code| + Odd(win, 0) <= 50 && Odd(win, pos) == 0
  {
    hide Prefix, Odd;
    var pos := |Prefix(win, |win.code|).out|;
    WidePrefix(win, |win.code|);
    FirstOdd(win);
    OddStep(win, 0, pos);
  }

  lemma FirstOdd(win: Window)
    requires win.dst % 16 == 0 || win.dst % 16 == 12
    ensures Odd(win, 0) == if win.dst % 16 == 12 then 1 else 0
  {
    var q := win.dst / 16;
    assert win.dst == 8 * (2 * q) || win.dst == 8 * (2 * q + 1) + 4;
  }

  /** The bound on the size is exact: 128-bit literals that are copied reach it, with the slot far from the window. */
  lemma SizeIsReached(win: Window)
    requires WideLoads(win) && win.code != [] && FarAway(win)
    ensures |Relocated(win)| == 8 * |win.code| + 4 + Odd(win, 0)
  {
    hide Prefix, EmitTail, Odd;
    WideEven(win);
    FarTail(win, |Prefix(win, |win.code|).out|);
  }
}
