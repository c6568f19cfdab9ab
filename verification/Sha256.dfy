/** SHA-256 as FIPS 180-4 defines it, on whole bytes. */
module Sha256 {
  type Byte = b: int | 0 <= b < 256
  type Word = bv32

  // ---------- section 3.2: operations on words ----------

  /** Addition modulo 2 to the 32. */
  function Plus(x: Word, y: Word): Word { x + y }

  function Plus4(x: Word, y: Word, z: Word, u: Word): Word { x + y + z + u }

  function Rotr(x: Word, n: Word): Word
    requires 0 < n < 32
  {
    (x >> n) | (x << (32 - n))
  }

  // ---------- section 4.1.2: functions ----------

  function Ch(x: Word, y: Word, z: Word): Word { (x & y) ^ (!x & z) }

  function Maj(x: Word, y: Word, z: Word): Word { (x & y) ^ (x & z) ^ (y & z) }

  function BigSigma0(x: Word): Word { Rotr(x, 2) ^ Rotr(x, 13) ^ Rotr(x, 22) }

  function BigSigma1(x: Word): Word { Rotr(x, 6) ^ Rotr(x, 11) ^ Rotr(x, 25) }

  function Sigma0(x: Word): Word { Rotr(x, 7) ^ Rotr(x, 18) ^ (x >> 3) }

  function Sigma1(x: Word): Word { Rotr(x, 17) ^ Rotr(x, 19) ^ (x >> 10) }

  // ---------- section 4.2.2: constants ----------

  const K0: seq<Word> := [
    0x428a2f98, 0x71374491, 0xb5c0fbcf, 0xe9b5dba5, 0x3956c25b, 0x59f111f1, 0x923f82a4, 0xab1c5ed5]
  const K1: seq<Word> := [
    0xd807aa98, 0x12835b01, 0x243185be, 0x550c7dc3, 0x72be5d74, 0x80deb1fe, 0x9bdc06a7, 0xc19bf174]
  const K2: seq<Word> := [
    0xe49b69c1, 0xefbe4786, 0x0fc19dc6, 0x240ca1cc, 0x2de92c6f, 0x4a7484aa, 0x5cb0a9dc, 0x76f988da]
  const K3: seq<Word> := [
    0x983e5152, 0xa831c66d, 0xb00327c8, 0xbf597fc7, 0xc6e00bf3, 0xd5a79147, 0x06ca6351, 0x14292967]
  const K4: seq<Word> := [
    0x27b70a85, 0x2e1b2138, 0x4d2c6dfc, 0x53380d13, 0x650a7354, 0x766a0abb, 0x81c2c92e, 0x92722c85]
  const K5: seq<Word> := [
    0xa2bfe8a1, 0xa81a664b, 0xc24b8b70, 0xc76c51a3, 0xd192e819, 0xd6990624, 0xf40e3585, 0x106aa070]
  const K6: seq<Word> := [
    0x19a4c116, 0x1e376c08, 0x2748774c, 0x34b0bcb5, 0x391c0cb3, 0x4ed8aa4a, 0x5b9cca4f, 0x682e6ff3]
  const K7: seq<Word> := [
    0x748f82ee, 0x78a5636f, 0x84c87814, 0x8cc70208, 0x90befffa, 0xa4506ceb, 0xbef9a3f7, 0xc67178f2]

  const K: seq<Word> := K0 + K1 + K2 + K3 + K4 + K5 + K6 + K7

  // ---------- section 5.1.1: padding ----------

  function Zeros(n: nat): seq<Byte> {
    seq(n, i => 0)
  }

  /** The zero bytes that bring the message, its end mark and these to 56 bytes more than whole blocks. */
  function ZeroCount(length: nat): (n: nat)
    ensures n < 64 && (length + 1 + n) % 64 == 56
  {
    (119 - length % 64) % 64
  }

  /** The low n bytes of a number, the most significant first. */
  function BigEndian(bits: nat, n: nat): (r: seq<Byte>)
    ensures |r| == n
  {
    if n == 0 then [] else BigEndian(bits / 256, n - 1) + [bits % 256]
  }

  /** The number has at most n bytes. */
  predicate Fits(bits: nat, n: nat) {
    if n == 0 then bits == 0 else Fits(bits / 256, n - 1)
  }

  lemma WholeBlocks(length: nat)
    ensures (length + 1 + ZeroCount(length) + 8) % 64 == 0
  {
    hide ZeroCount;
    var x := length + 1 + ZeroCount(length);
    assert x == 64 * (x / 64) + 56;
  }

  function Padded(message: seq<Byte>): (r: seq<Byte>)
    ensures |r| % 64 == 0 && |r| > 0
  {
    hide ZeroCount, BigEndian;
    WholeBlocks(|message|);
    message + [0x80] + Zeros(ZeroCount(|message|)) + BigEndian(8 * |message|, 8)
  }

  // ---------- section 5.3.3: the initial hash value ----------

  datatype Vars = Vars(a: Word, b: Word, c: Word, d: Word, e: Word, f: Word, g: Word, h: Word)

  const INITIAL := Vars(0x6a09e667, 0xbb67ae85, 0x3c6ef372, 0xa54ff53a, 0x510e527f, 0x9b05688c, 0x1f83d9ab, 0x5be0cd19)

  // ---------- section 6.2.2: hash computation ----------

  function BytesWord(b0: Byte, b1: Byte, b2: Byte, b3: Byte): Word {
    (b0 as Word << 24) | (b1 as Word << 16) | (b2 as Word << 8) | b3 as Word
  }

  function NextWord(w2: Word, w7: Word, w15: Word, w16: Word): Word {
    Plus4(Sigma1(w2), w7, Sigma0(w15), w16)
  }

  /** The word t of the message schedule of a block. */
  function Schedule(block: seq<Byte>, t: nat): Word
    requires |block| == 64 && t < 64
  {
    if t < 16 then BytesWord(block[4 * t], block[4 * t + 1], block[4 * t + 2], block[4 * t + 3])
    else NextWord(Schedule(block, t - 2), Schedule(block, t - 7), Schedule(block, t - 15), Schedule(block, t - 16))
  }

  function T1(h: Word, e: Word, f: Word, g: Word, k: Word, w: Word): Word {
    Plus(Plus(Plus(Plus(h, BigSigma1(e)), Ch(e, f, g)), k), w)
  }

  function T2(a: Word, b: Word, c: Word): Word {
    Plus(BigSigma0(a), Maj(a, b, c))
  }

  function Round(v: Vars, k: Word, w: Word): Vars {
    var t1, t2 := T1(v.h, v.e, v.f, v.g, k, w), T2(v.a, v.b, v.c);
    Vars(Plus(t1, t2), v.a, v.b, v.c, Plus(v.d, t1), v.e, v.f, v.g)
  }

  /** The working variables after t rounds. */
  function Rounds(v: Vars, block: seq<Byte>, t: nat): Vars
    requires |block| == 64 && t <= 64
  {
    if t == 0 then v else Round(Rounds(v, block, t - 1), K[t - 1], Schedule(block, t - 1))
  }

  function AddVars(x: Vars, y: Vars): Vars {
    Vars(Plus(x.a, y.a), Plus(x.b, y.b), Plus(x.c, y.c), Plus(x.d, y.d),
         Plus(x.e, y.e), Plus(x.f, y.f), Plus(x.g, y.g), Plus(x.h, y.h))
  }

  function Compress(v: Vars, block: seq<Byte>): Vars
    requires |block| == 64
  {
    AddVars(v, Rounds(v, block, 64))
  }

  /** The hash value after n blocks. */
  function HashBlocks(data: seq<Byte>, n: nat): Vars
    requires 64 * n <= |data|
  {
    if n == 0 then INITIAL else Compress(HashBlocks(data, n - 1), data[64 * (n - 1)..64 * n])
  }

  function Digest(message: seq<Byte>): Vars {
    HashBlocks(Padded(message), |Padded(message)| / 64)
  }

  // ---------- padding loses nothing ----------

  lemma {:induction false} BigEndianIsExact(x: nat, y: nat, n: nat)
    requires Fits(x, n) && Fits(y, n) && BigEndian(x, n) == BigEndian(y, n)
    ensures x == y
  {
    if n > 0 {
      var a, b := BigEndian(x, n), BigEndian(y, n);
      assert a[..n - 1] == BigEndian(x / 256, n - 1) && b[..n - 1] == BigEndian(y / 256, n - 1);
      assert a[n - 1] == x % 256 && b[n - 1] == y % 256;
      BigEndianIsExact(x / 256, y / 256, n - 1);
    }
  }

  function Power256(n: nat): nat {
    if n == 0 then 1 else 256 * Power256(n - 1)
  }

  lemma {:induction false} FitsBelow(bits: nat, n: nat)
    ensures Fits(bits, n) <==> bits < Power256(n)
  {
    if n > 0 { FitsBelow(bits / 256, n - 1); }
  }

  /** The length in bits has at most eight bytes exactly below 2 to the 61 bytes. */
  lemma LengthFits(length: nat)
    ensures Fits(8 * length, 8) <==> length < 0x2000_0000_0000_0000
  {
    FitsBelow(8 * length, 8);
    assert Power256(4) == 0x1_0000_0000;
    assert Power256(8) == 0x1_0000_0000 * Power256(4);
  }

  /** Two messages with the same padded form are the same, if their lengths in bits have at most eight bytes. */
  lemma PaddingIsInjective(a: seq<Byte>, b: seq<Byte>)
    requires Fits(8 * |a|, 8) && Fits(8 * |b|, 8)
    requires Padded(a) == Padded(b)
    ensures a == b
  {
    hide BigEndian, Fits;
    var p := Padded(a);
    assert p[|p| - 8..] == BigEndian(8 * |a|, 8);
    assert Padded(b)[|p| - 8..] == BigEndian(8 * |b|, 8);
    BigEndianIsExact(8 * |a|, 8 * |b|, 8);
    assert p[..|a|] == a && Padded(b)[..|b|] == b;
  }
}
