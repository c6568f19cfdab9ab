/** 32-bit machine words as natural numbers, with the bit operations the relocator uses. */
module Words {

  type Word = w: nat | w < 0x1_0000_0000

  function Pow2(k: nat): (p: nat)
    ensures p >= 1
  {
    if k == 0 then 1 else 2 * Pow2(k - 1)
  }

  /** Bitwise conjunction. */
  function And(a: nat, b: nat): (r: nat)
    ensures r <= a && r <= b
  {
    if a == 0 || b == 0 then 0
    else (if a % 2 == 1 && b % 2 == 1 then 1 else 0) + 2 * And(a / 2, b / 2)
  }

  /** Bitwise disjunction. */
  function OrBits(a: nat, b: nat): (r: nat)
    ensures a <= r <= a + b && b <= r
    decreases a + b
  {
    if a == 0 then b
    else if b == 0 then a
    else (if a % 2 == 0 && b % 2 == 0 then 0 else 1) + 2 * OrBits(a / 2, b / 2)
  }

  /** Bitwise disjunction of two words. */
  function Or(a: Word, b: Word): (r: Word) {
    Powers();
    OrBound(a, b, 32);
    OrBits(a, b)
  }

  lemma {:induction false} OrBound(a: nat, b: nat, k: nat)
    requires a < Pow2(k) && b < Pow2(k)
    ensures OrBits(a, b) < Pow2(k)
    decreases k
  {
    if k > 0 && a > 0 && b > 0 {
      OrBound(a / 2, b / 2, k - 1);
    }
  }

  /** A word shifted left, where p is a power of two; the bits that leave the word are lost. */
  function Shl(w: int, p: nat): (r: Word) {
    Low32(w * p)
  }

  /** The low 32 bits of a two's complement number. */
  function Low32(x: int): (w: Word) {
    x % 0x1_0000_0000
  }

  /** A word reinterpreted as a signed 32-bit number. */
  function AsInt32(w: Word): (x: int)
    ensures -0x8000_0000 <= x < 0x8000_0000 && Low32(x) == w
  {
    if w < 0x8000_0000 then w else w - 0x1_0000_0000
  }

  function Abs(x: int): nat {
    if x < 0 then -x else x
  }

  /** The number whose k low bits are those of l and whose other bits are those of h. */
  function Join(h: nat, l: nat, k: nat): nat
    decreases k
  {
    if k == 0 then h else 2 * Join(h, l / 2, k - 1) + l % 2
  }

  lemma {:induction false} JoinIs(h: nat, l: nat, k: nat)
    requires l < Pow2(k)
    ensures Join(h, l, k) == h * Pow2(k) + l
  {
    if k > 0 {
      JoinIs(h, l / 2, k - 1);
      Doubled(h, Pow2(k - 1));
    }
  }

  lemma {:induction false} JoinZero(l: nat, k: nat)
    requires l < Pow2(k)
    ensures Join(0, l, k) == l
  {
    if k > 0 {
      JoinZero(l / 2, k - 1);
    }
  }

  lemma Doubled(x: nat, p: nat)
    ensures x * (2 * p) == 2 * (x * p)
  {
  }

  lemma JoinUnfold(h: nat, l: nat, k: nat)
    requires k > 0
    ensures Join(h, l, k) / 2 == Join(h, l / 2, k - 1) && Join(h, l, k) % 2 == l % 2
    ensures Join(h, l, k) == 2 * Join(h, l / 2, k - 1) + l % 2
  {
  }

  /** Conjunction works on the high and the low bits separately. */
  lemma {:induction false} AndJoin(h: nat, l: nat, mh: nat, ml: nat, k: nat)
    ensures And(Join(h, l, k), Join(mh, ml, k)) == Join(And(h, mh), And(l, ml), k)
    decreases k
  {
    hide And, Join;
    if k == 0 {
      JoinNothing(h, l);
      JoinNothing(mh, ml);
      JoinNothing(And(h, mh), And(l, ml));
    } else {
      AndJoin(h, l / 2, mh, ml / 2, k - 1);
      JoinUnfold(h, l, k);
      JoinUnfold(mh, ml, k);
      AndUnfold(Join(h, l, k), Join(mh, ml, k));
      AndHalves(l, ml);
      JoinUnfold(And(h, mh), And(l, ml), k);
    }
  }

  lemma JoinNothing(h: nat, l: nat)
    ensures Join(h, l, 0) == h
  {
  }

  lemma AndUnfold(a: nat, b: nat)
    ensures And(a, b) == (if a % 2 == 1 && b % 2 == 1 then 1 else 0) + 2 * And(a / 2, b / 2)
  {
  }

  lemma AndHalves(a: nat, b: nat)
    ensures And(a, b) / 2 == And(a / 2, b / 2)
    ensures And(a, b) % 2 == if a % 2 == 1 && b % 2 == 1 then 1 else 0
  {
    hide And;
    AndUnfold(a, b);
  }

  lemma {:induction false} AndOnes(a: nat, k: nat)
    requires a < Pow2(k)
    ensures And(a, Pow2(k) - 1) == a
  {
    if k > 0 && a > 0 {
      AndOnes(a / 2, k - 1);
      AndUnfold(a, Pow2(k) - 1);
    }
  }

  /** Disjunction works on the high and the low bits separately. */
  lemma {:induction false} OrJoin(h: nat, l: nat, oh: nat, ol: nat, k: nat)
    ensures OrBits(Join(h, l, k), Join(oh, ol, k)) == Join(OrBits(h, oh), OrBits(l, ol), k)
    decreases k
  {
    hide OrBits, Join;
    if k == 0 {
      JoinNothing(h, l);
      JoinNothing(oh, ol);
      JoinNothing(OrBits(h, oh), OrBits(l, ol));
    } else {
      OrJoin(h, l / 2, oh, ol / 2, k - 1);
      JoinUnfold(h, l, k);
      JoinUnfold(oh, ol, k);
      OrUnfold(Join(h, l, k), Join(oh, ol, k));
      OrHalves(l, ol);
      JoinUnfold(OrBits(h, oh), OrBits(l, ol), k);
    }
  }

  lemma OrHalves(a: nat, b: nat)
    ensures OrBits(a, b) / 2 == OrBits(a / 2, b / 2)
    ensures OrBits(a, b) % 2 == if a % 2 == 0 && b % 2 == 0 then 0 else 1
  {
    hide OrBits;
    OrUnfold(a, b);
  }

  lemma OrUnfold(a: nat, b: nat)
    ensures OrBits(a, b) == (if a % 2 == 0 && b % 2 == 0 then 0 else 1) + 2 * OrBits(a / 2, b / 2)
  {
  }

  lemma Powers()
    ensures Pow2(1) == 2 && Pow2(4) == 16 && Pow2(5) == 32 && Pow2(6) == 64 && Pow2(7) == 128 && Pow2(8) == 256
    ensures Pow2(13) == 0x2000 && Pow2(14) == 0x4000 && Pow2(19) == 0x8_0000
    ensures Pow2(24) == 0x100_0000 && Pow2(26) == 0x400_0000 && Pow2(32) == 0x1_0000_0000
    ensures Pow2(2) == 4 && Pow2(30) == 0x4000_0000
  {
  }

  /** The k low bits. */
  lemma LowMask(h: nat, l: nat, k: nat)
    requires l < Pow2(k)
    ensures And(h * Pow2(k) + l, Pow2(k) - 1) == l
  {
    JoinIs(h, l, k);
    var m := Pow2(k) - 1;
    JoinZero(m, k);
    AndJoin(h, l, 0, m, k);
    AndOnes(l, k);
    JoinZero(l, k);
  }

  /** A mask of high and low bits. */
  lemma SplitMask(h: nat, l: nat, mh: nat, ml: nat, k: nat)
    requires l < Pow2(k) && ml < Pow2(k)
    ensures And(h * Pow2(k) + l, mh * Pow2(k) + ml) == And(h, mh) * Pow2(k) + And(l, ml)
  {
    JoinIs(h, l, k);
    JoinIs(mh, ml, k);
    AndJoin(h, l, mh, ml, k);
    JoinIs(And(h, mh), And(l, ml), k);
  }

  // ---------- words of two fields ----------

  /** An opcode of six bits and an offset of 26. */
  function Word26(h: nat, f: nat): nat {
    h * 0x400_0000 + f
  }

  lemma Joined26(h: nat, f: nat)
    requires f < 0x400_0000
    ensures Word26(h, f) == Join(h, f, 26)
  {
    Powers();
    JoinIs(h, f, 26);
  }

  lemma Opcode26(h: nat, f: nat)
    requires h < 64 && f < 0x400_0000
    ensures And(Word26(h, f), 0xfc00_0000) == h * 0x400_0000
  {
    Powers();
    Joined26(h, f);
    Joined26(63, 0);
    AndJoin(h, f, 63, 0, 26);
    AndOnes(h, 6);
    Joined26(h, 0);
  }

  lemma Offset26(h: nat, f: nat)
    requires f < 0x400_0000
    ensures And(Word26(h, f), 0x03ff_ffff) == f
  {
    Powers();
    Joined26(h, f);
    Joined26(0, 0x03ff_ffff);
    AndJoin(h, f, 0, 0x03ff_ffff, 26);
    AndOnes(f, 26);
    Joined26(0, f);
  }

  lemma OrOffset26(h: nat, f: nat)
    requires f < 0x400_0000
    ensures OrBits(h * 0x400_0000, f) == Word26(h, f)
  {
    Joined26(h, f);
    Joined26(h, 0);
    Joined26(0, f);
    OrJoin(h, 0, 0, f, 26);
  }

  /** A top byte and the 24 bits below it. */
  function Word24(t: nat, f: nat): nat {
    t * 0x100_0000 + f
  }

  lemma TopMask(t: nat, f: nat, m: nat)
    requires f < 0x100_0000
    ensures And(Word24(t, f), m * 0x100_0000) == And(t, m) * 0x100_0000
  {
    Powers();
    SplitMask(t, f, m, 0, 24);
  }

  // ---------- words of three fields ----------

  /** Eight bits, a field of 19 and a field of five: B.cond, CBZ, CBNZ. */
  function Word19(t: nat, f: nat, r: nat): nat {
    (t * 0x8_0000 + f) * 32 + r
  }

  lemma Joined19(t: nat, f: nat, r: nat)
    requires f < 0x8_0000 && r < 32
    ensures Word19(t, f, r) == Join(Join(t, f, 19), r, 5)
  {
    Powers();
    JoinIs(t, f, 19);
    JoinIs(t * 0x8_0000 + f, r, 5);
  }

  /** The mask that keeps all but the offset. */
  lemma Keep19(t: nat, f: nat, r: nat)
    requires t < 256 && f < 0x8_0000 && r < 32
    ensures And(Word19(t, f, r), 0xff00_001f) == Word19(t, 0, r)
  {
    Powers();
    Joined19(t, f, r);
    Joined19(0xff, 0, 0x1f);
    Joined19(t, 0, r);
    AndJoin(Join(t, f, 19), r, Join(0xff, 0, 19), 0x1f, 5);
    AndJoin(t, f, 0xff, 0, 19);
    AndOnes(t, 8);
    AndOnes(r, 5);
  }

  lemma Offset19(t: nat, f: nat, r: nat)
    requires f < 0x8_0000 && r < 32
    ensures And(Word19(t, f, r), 0x00ff_ffe0) == Word19(0, f, 0)
  {
    Powers();
    Joined19(t, f, r);
    Joined19(0, 0x7_ffff, 0);
    Joined19(0, f, 0);
    AndJoin(Join(t, f, 19), r, Join(0, 0x7_ffff, 19), 0, 5);
    AndJoin(t, f, 0, 0x7_ffff, 19);
    AndOnes(f, 19);
  }

  lemma OrOffset19(t: nat, f: nat, r: nat)
    requires f < 0x8_0000 && r < 32
    ensures OrBits(Word19(0, f, 0), Word19(t, 0, r)) == Word19(t, f, r)
  {
    Joined19(t, f, r);
    Joined19(0, f, 0);
    Joined19(t, 0, r);
    OrJoin(Join(0, f, 19), 0, Join(t, 0, 19), r, 5);
    OrJoin(0, f, t, 0, 19);
  }

  /** Thirteen bits, a field of 14 and a field of five: TBZ, TBNZ. */
  function Word14(t: nat, f: nat, r: nat): nat {
    (t * 0x4000 + f) * 32 + r
  }

  lemma Joined14(t: nat, f: nat, r: nat)
    requires f < 0x4000 && r < 32
    ensures Word14(t, f, r) == Join(Join(t, f, 14), r, 5)
  {
    Powers();
    JoinIs(t, f, 14);
    JoinIs(t * 0x4000 + f, r, 5);
  }

  lemma Keep14(t: nat, f: nat, r: nat)
    requires t < 0x2000 && f < 0x4000 && r < 32
    ensures And(Word14(t, f, r), 0xfff8_001f) == Word14(t, 0, r)
  {
    Powers();
    Joined14(t, f, r);
    Joined14(0x1fff, 0, 0x1f);
    Joined14(t, 0, r);
    AndJoin(Join(t, f, 14), r, Join(0x1fff, 0, 14), 0x1f, 5);
    AndJoin(t, f, 0x1fff, 0, 14);
    AndOnes(t, 13);
    AndOnes(r, 5);
  }

  lemma Offset14(t: nat, f: nat, r: nat)
    requires f < 0x4000 && r < 32
    ensures And(Word14(t, f, r), 0x0007_ffe0) == Word14(0, f, 0)
  {
    Powers();
    Joined14(t, f, r);
    Joined14(0, 0x3fff, 0);
    Joined14(0, f, 0);
    AndJoin(Join(t, f, 14), r, Join(0, 0x3fff, 14), 0, 5);
    AndJoin(t, f, 0, 0x3fff, 14);
    AndOnes(f, 14);
  }

  lemma OrOffset14(t: nat, f: nat, r: nat)
    requires f < 0x4000 && r < 32
    ensures OrBits(Word14(0, f, 0), Word14(t, 0, r)) == Word14(t, f, r)
  {
    Joined14(t, f, r);
    Joined14(0, f, 0);
    Joined14(t, 0, r);
    OrJoin(Join(0, f, 14), 0, Join(t, 0, 14), r, 5);
    OrJoin(0, f, t, 0, 14);
  }

  /** The mask that selects B.cond: the top byte and bit 4. */
  lemma KeepCond(t: nat, f: nat, b: nat, r: nat)
    requires t < 256 && f < 0x8_0000 && b < 2 && r < 16
    ensures And(Word19(t, f, b * 16 + r), 0xff00_0010) == Word19(t, 0, b * 16)
  {
    Joined19(t, f, b * 16 + r);
    Joined19(0xff, 0, 0x10);
    AndJoin(Join(t, f, 19), b * 16 + r, Join(0xff, 0, 19), 0x10, 5);
    KeepTop(t, f);
    BitFour(b, r);
    Joined19(t, 0, b * 16);
  }

  lemma KeepTop(t: nat, f: nat)
    requires t < 256
    ensures And(Join(t, f, 19), Join(0xff, 0, 19)) == Join(t, 0, 19)
  {
    Powers();
    AndJoin(t, f, 0xff, 0, 19);
    AndOnes(t, 8);
  }

  lemma BitFour(b: nat, r: nat)
    requires b < 2 && r < 16
    ensures And(b * 16 + r, 0x10) == b * 16
  {
    Powers();
    SplitMask(b, r, 1, 0, 4);
    AndOnes(b, 1);
  }

  // ---------- bytes ----------

  lemma Byte7(b: nat, l: nat)
    requires l < 128
    ensures And(b * 128 + l, 0x7f) == l
  {
    Powers();
    LowMask(b, l, 7);
  }

  lemma Byte6(c: nat, l: nat)
    requires l < 64
    ensures And(c * 64 + l, 0x3f) == l
  {
    Powers();
    LowMask(c, l, 6);
  }

  lemma Byte5(c: nat, l: nat)
    requires l < 32
    ensures And(c * 32 + l, 0x1f) == l
  {
    Powers();
    LowMask(c, l, 5);
  }

  /** The top bit of a byte and a mask of its lower bits. */
  lemma ByteTopBit(b: nat, l: nat, m: nat)
    requires b < 2 && l < 128 && m < 128
    ensures And(b * 128 + l, 128 + m) == b * 128 + And(l, m)
  {
    Powers();
    SplitMask(b, l, 1, m, 7);
    AndOnes(b, 1);
  }
}
