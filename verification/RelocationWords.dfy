/** Each word the relocator composes decodes to the instruction it is meant to be. */
module RelocationWords {
  import opened Words
  import opened A64
  import opened Options
  import opened Relocation
  import opened RelocationClasses

  lemma {:induction false} OrCommutes(a: nat, b: nat)
    ensures OrBits(a, b) == OrBits(b, a)
    decreases a + b
  {
    if a > 0 && b > 0 {
      OrCommutes(a / 2, b / 2);
    }
  }

  lemma SignExtended(o: int, half: int)
    requires half > 0 && -half <= o < half
    ensures SignExtend(o % (2 * half), half) == o
  {
    if o >= 0 {
      ModSmall(o, 2 * half);
    } else {
      ModNegative(o, 2 * half);
    }
  }

  lemma ModSmall(o: int, m: int)
    requires 0 <= o < m
    ensures o % m == o
  {
  }

  lemma ModNegative(o: int, m: int)
    requires 0 < m && -m <= o < 0
    ensures o % m == o + m
  {
  }

  // ---------- B and BL ----------

  /** The low bits of an offset are the same before and after it is cut to 32 bits. */
  lemma Cut26(o: int, c: int, d: nat, f: nat)
    requires o == (64 * c + d) * 0x400_0000 + f && d < 64 && f < 0x400_0000
    ensures Low32(o) == Word26(d, f)
  {
    assert o == c * 0x1_0000_0000 + Word26(d, f);
  }

  lemma OffsetOnly26(o: int)
    ensures And(Low32(o), 0x03ff_ffff) == o % 0x400_0000
  {
    var q, f := o / 0x400_0000, o % 0x400_0000;
    Cut26(o, q / 64, q % 64, f);
    Offset26(q % 64, f);
  }

  lemma DecodeWord26(h: nat, f: nat)
    requires (h == 5 || h == 37) && f < 0x400_0000
    ensures Decode(Word26(h, f))
         == if h == 5 then Branch(4 * SignExtend(f, 0x200_0000)) else BranchLink(4 * SignExtend(f, 0x200_0000))
  {
    var w := Word26(h, f);
    assert w / 0x400_0000 == h && w % 0x400_0000 == f;
    assert w / 0x100_0000 / 4 == h;
  }

  /** Every offset in range that is written into B or BL is the offset that is read back. */
  lemma BranchWord(opc: Word, o: int)
    requires opc == OP_B || opc == OP_BL
    requires -0x200_0000 <= o < 0x200_0000
    ensures Decode(Or(opc, And(Low32(o), 0x03ff_ffff)))
         == if opc == OP_B then Branch(4 * o) else BranchLink(4 * o)
  {
    var h := if opc == OP_B then 5 else 37;
    var f := o % 0x400_0000;
    OffsetOnly26(o);
    OrOffset26(h, f);
    SignExtended(o, 0x200_0000);
    DecodeWord26(h, f);
  }

  /** A forward reference patched into an empty field gives the same word. */
  lemma PatchedBranchWord(opc: Word, o: int)
    requires opc == OP_B || opc == OP_BL
    ensures Or(opc, And(Low32(0), 0x03ff_ffff)) == opc
    ensures OffsetField(o, 0, 0x03ff_ffff) == And(Low32(o), 0x03ff_ffff)
  {
    OffsetOnly26(0);
    OrCommutes(opc, 0);
    assert o * Pow2(0) == o;
  }

  // ---------- conditional branches ----------

  lemma Cut19(o: int, c: int, d: nat, f: nat)
    requires o == (256 * c + d) * 0x8_0000 + f && d < 256 && f < 0x8_0000
    ensures Shl(o, 32) == Word19(d, f, 0)
  {
    assert o * 32 == c * 0x1_0000_0000 + Word19(d, f, 0);
  }

  lemma OffsetOnly19(o: int)
    ensures And(Shl(o, 32), 0x00ff_ffe0) == Word19(0, o % 0x8_0000, 0)
  {
    var q, f := o / 0x8_0000, o % 0x8_0000;
    Cut19(o, q / 256, q % 256, f);
    Offset19(q % 256, f, 0);
  }

  lemma Cut14(o: int, c: int, d: nat, f: nat)
    requires o == (0x2000 * c + d) * 0x4000 + f && d < 0x2000 && f < 0x4000
    ensures Shl(o, 32) == Word14(d, f, 0)
  {
    assert o * 32 == c * 0x1_0000_0000 + Word14(d, f, 0);
  }

  lemma OffsetOnly14(o: int)
    ensures And(Shl(o, 32), 0x0007_ffe0) == Word14(0, o % 0x4000, 0)
  {
    var q, f := o / 0x4000, o % 0x4000;
    Cut14(o, q / 0x2000, q % 0x2000, f);
    Offset14(q % 0x2000, f, 0);
  }

  predicate Top19(t: nat, r: nat) {
    t < 256 && r < 32 && ((t == 0x54 && r / 16 == 0) || t % 128 == 0x34 || t % 128 == 0x35)
  }

  lemma Parts19(t: nat, f: nat, r: nat)
    requires t < 256 && f < 0x8_0000 && r < 32
    ensures var v := Word19(t, f, r);
      && v < 0x1_0000_0000 && v / 0x100_0000 == t && v / 32 % 0x8_0000 == f && v % 32 == r && v / 16 % 2 == r / 16
    ensures t * 0x100_0000 + r == Word19(t, 0, r)
  {
    var v := Word19(t, f, r);
    assert v == t * 0x100_0000 + (f * 32 + r);
    assert v / 32 == t * 0x8_0000 + f;
  }

  lemma DecodeWord19(t: nat, f: nat, r: nat)
    requires Top19(t, r) && f < 0x8_0000
    ensures Decode(Word19(t, f, r)) == CondBranch(Word19(t, 0, r), 4 * SignExtend(f, 0x4_0000))
  {
    hide Word19, SignExtend;
    Parts19(t, f, r);
  }

  lemma CondWord19(w: Word, o: int)
    requires IsBranch19(w) && -0x4_0000 <= o < 0x4_0000
    ensures Decode(w).CondBranch? && And(w, 0xff00_001f) == Decode(w).key
    ensures Decode(Or(And(Shl(o, 32), 0x00ff_ffe0), And(w, 0xff00_001f))) == CondBranch(Decode(w).key, 4 * o)
  {
    var t, f, r := w / 0x100_0000, w / 32 % 0x8_0000, w % 32;
    Fields19(w, t, f, r);
    Keep19(t, f, r);
    DecodeWord19(t, f, r);
    OffsetOnly19(o);
    OrOffset19(t, o % 0x8_0000, r);
    SignExtended(o, 0x4_0000);
    DecodeWord19(t, o % 0x8_0000, r);
  }

  predicate Top14(t: nat) {
    t < 0x2000 && (t / 32 % 128 == 0x36 || t / 32 % 128 == 0x37)
  }

  /** The parts that the architecture reads out of a word of these fields. */
  lemma Parts14(t: nat, f: nat, r: nat)
    requires t < 0x2000 && f < 0x4000 && r < 32
    ensures var v := Word14(t, f, r);
      && v < 0x1_0000_0000 && v / 0x8_0000 == t && v / 0x100_0000 == t / 32
      && v / 32 % 0x4000 == f && v % 32 == r
    ensures t * 0x8_0000 + r == Word14(t, 0, r)
  {
    var v := Word14(t, f, r);
    assert v == t * 0x8_0000 + (f * 32 + r);
    assert v / 32 == t * 0x4000 + f;
  }

  lemma DecodeWord14(t: nat, f: nat, r: nat)
    requires Top14(t) && f < 0x4000 && r < 32
    ensures Decode(Word14(t, f, r)) == CondBranch(Word14(t, 0, r), 4 * SignExtend(f, 0x2000))
  {
    hide Word14, SignExtend;
    Parts14(t, f, r);
  }

  lemma CondWord14(w: Word, o: int)
    requires IsBranch14(w) && -0x2000 <= o < 0x2000
    ensures Decode(w).CondBranch? && And(w, 0xfff8_001f) == Decode(w).key
    ensures Decode(Or(And(Shl(o, 32), 0x0007_ffe0), And(w, 0xfff8_001f))) == CondBranch(Decode(w).key, 4 * o)
  {
    var t, f, r := w / 0x8_0000, w / 32 % 0x4000, w % 32;
    Fields14(w, t, f, r);
    Keep14(t, f, r);
    DecodeWord14(t, f, r);
    OffsetOnly14(o);
    OrOffset14(t, o % 0x4000, r);
    SignExtended(o, 0x2000);
    DecodeWord14(t, o % 0x4000, r);
  }

  /** Every offset in range that is written into a conditional branch, of either width, is read back. */
  lemma CondWord(w: Word, lmask: Word, o: int)
    requires CondMask(w) == Some(lmask)
    requires Abs(o) < (0xffff_ffff - lmask) / 64
    ensures Decode(w).CondBranch? && And(w, lmask) == Decode(w).key
    ensures Decode(Or(And(Shl(o, 32), 0xffff_ffff - lmask), And(w, lmask))) == CondBranch(Decode(w).key, 4 * o)
  {
    CondBranchClass(w);
    if IsBranch19(w) {
      CondWord19(w, o);
    } else {
      CondWord14(w, o);
    }
  }

  /** A forward reference patched into the empty field of a conditional branch gives the same word. */
  lemma PatchedCondWord(w: Word, lmask: Word, o: int)
    requires CondMask(w) == Some(lmask)
    ensures Or(And(Shl(0, 32), 0xffff_ffff - lmask), And(w, lmask)) == And(w, lmask)
    ensures Or(And(w, lmask), OffsetField(o, 5, 0xffff_ffff - lmask))
         == Or(And(Shl(o, 32), 0xffff_ffff - lmask), And(w, lmask))
  {
    Powers();
    OrCommutes(And(w, lmask), OffsetField(o, 5, 0xffff_ffff - lmask));
  }

  // ---------- targets ----------

  /** A field at the top of a word, shifted down arithmetically to four times its signed value. */
  lemma SignedField(f: nat, k: int, p: int, half: int)
    requires p > 0 && k == 4 * p && f < 2 * half && half * k == 0x8000_0000
    ensures f * k < 0x1_0000_0000
    ensures Asr(AsInt32(f * k), p) == 4 * SignExtend(f, half)
  {
    var s := SignExtend(f, half);
    if f < half {
      MulLess(f, half, k);
    } else {
      MulLess(f - half, half, k);
      assert f * k == (f - half) * k + half * k;
      assert (f - 2 * half) * k == f * k - 0x1_0000_0000;
    }
    assert AsInt32(f * k) == s * k;
    assert s * k == 4 * s * p;
    DivExact(4 * s, p);
  }

  lemma MulLess(a: int, b: int, k: int)
    requires 0 <= a < b && k > 0
    ensures 0 <= a * k < b * k
  {
  }

  lemma DivExact(x: int, p: int)
    requires p > 0
    ensures x * p / p == x
  {
    var d, m := x * p / p, x * p % p;
    assert p * (x - d) == m;
    Multiples(p, x - d);
  }

  lemma Multiples(p: int, y: int)
    requires p > 0
    ensures y >= 1 ==> p * y >= p
    ensures y <= -1 ==> p * y <= -p
  {
  }

  /** The target that the source computes from B or BL is the architecture's target. */
  lemma BranchTargetIs(win: Window, i: nat)
    requires i < |win.code| && IsBranchImm(win.code[i])
    ensures Decode(win.code[i]) == if And(win.code[i], 0xfc00_0000) == OP_B then Branch(BranchTarget(win, i) - SourceAddress(win, i))
                                   else BranchLink(BranchTarget(win, i) - SourceAddress(win, i))
  {
    var w := win.code[i];
    var h, f := w / 0x400_0000, w % 0x400_0000;
    Fields26(w, h, f);
    BranchImmClass(w);
    DecodeWord26(h, f);
    Shifted26(h, f);
    SignedField(f, 64, 16, 0x200_0000);
  }

  lemma Shifted26(h: nat, f: nat)
    requires f < 0x400_0000
    ensures Shl(Word26(h, f), 64) == f * 64
  {
    var x: int := Word26(h, f) * 64;
    assert x == h * 0x1_0000_0000 + f * 64;
  }

  lemma CondOffset19(w: Word)
    requires IsBranch19(w)
    ensures Decode(w).CondBranch?
    ensures Asr(AsInt32(Shl(And(w, 0x00ff_ffe0), 0x100)), 8 * 0x100) == Decode(w).off
  {
    var t, f, r := w / 0x100_0000, w / 32 % 0x8_0000, w % 32;
    Fields19(w, t, f, r);
    DecodeWord19(t, f, r);
    Offset19(t, f, r);
    SignedField(f, 0x2000, 2048, 0x4_0000);
    assert Shl(f * 32, 0x100) == f * 0x2000;
  }

  lemma CondOffset14(w: Word)
    requires IsBranch14(w)
    ensures Decode(w).CondBranch?
    ensures Asr(AsInt32(Shl(And(w, 0x0007_ffe0), 0x2000)), 8 * 0x2000) == Decode(w).off
  {
    var t, f, r := w / 0x8_0000, w / 32 % 0x4000, w % 32;
    Fields14(w, t, f, r);
    DecodeWord14(t, f, r);
    Offset14(t, f, r);
    SignedField(f, 0x4_0000, 0x1_0000, 0x2000);
    assert Shl(f * 32, 0x2000) == f * 0x4_0000;
  }

  /** The target that the source computes from a conditional branch is the architecture's target. */
  lemma CondTargetIs(win: Window, i: nat, lmask: Word)
    requires i < |win.code| && CondMask(win.code[i]) == Some(lmask)
    ensures Decode(win.code[i]).CondBranch?
    ensures CondTarget(win, i, lmask) == SourceAddress(win, i) + Decode(win.code[i]).off
  {
    var w := win.code[i];
    CondBranchClass(w);
    if IsBranch19(w) {
      CondOffset19(w);
    } else {
      CondOffset14(w);
    }
  }

  /** The fixed words of the long forms. */
  lemma LongFormWords()
    ensures Decode(LDR_X17_8) == LoadX17(8) && Decode(LDR_X17_12) == LoadX17(12)
    ensures Decode(ADR_X30_16) == AddressX30(16) && Decode(BR_X17) == BranchX17
    ensures Decode(0x1400_0005) == Branch(20) && Decode(NOP) == A64.Nop
  {
  }
}
