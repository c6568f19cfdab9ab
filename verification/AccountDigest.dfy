/** The account digest: SHA-256 in place over rotating arrays, written as 64 hexadecimal digits. */
module AccountDigest {
  import opened Sha256

  // ---------- padding ----------

  /** A number shifted right by i bytes. */
  function ShiftBytes(bits: nat, i: nat): nat {
    if i == 0 then bits else ShiftBytes(bits / 256, i - 1)
  }

  lemma {:induction false} BigEndianAt(bits: nat, n: nat, k: nat)
    requires k < n
    ensures BigEndian(bits, n)[k] == ShiftBytes(bits, n - 1 - k) % 256
  {
    if k < n - 1 {
      BigEndianAt(bits / 256, n - 1, k);
    }
  }

  method ShiftRight(bits: nat, i: nat) returns (r: nat)
    ensures r == ShiftBytes(bits, i)
  {
    r := bits;
    var j := 0;
    while j < i
      invariant 0 <= j <= i
      invariant ShiftBytes(bits, i) == ShiftBytes(r, i - j)
    {
      r := r / 256;
      j := j + 1;
    }
  }

  lemma EnoughZeros(length: nat, z: nat)
    requires z <= ZeroCount(length)
    ensures (length + 1 + z) % 64 == 56 <==> z == ZeroCount(length)
  {
    SameRemainder(length + 1 + z, length + 1 + ZeroCount(length));
  }

  lemma SameRemainder(x: nat, y: nat)
    requires x <= y < x + 64
    ensures x % 64 == y % 64 <==> x == y
  {
  }

  /** Grows the data by the end mark and zeros until eight bytes are missing. */
  method AddZeros(id: seq<Byte>) returns (data: seq<Byte>)
    ensures data == id + [0x80] + Zeros(ZeroCount(|id|))
  {
    data := id + [0x80];
    ghost var z := 0;
    EnoughZeros(|id|, 0);
    while |data| % 64 != 56
      invariant 0 <= z <= ZeroCount(|id|)
      invariant data == id + [0x80] + Zeros(z)
      invariant |data| % 64 == 56 <==> z == ZeroCount(|id|)
      decreases ZeroCount(|id|) - z
    {
      EnoughZeros(|id|, z + 1);
      assert Zeros(z + 1) == Zeros(z) + [0];
      data := data + [0];
      z := z + 1;
    }
  }

  /** Grows the data by the length in bits. */
  method AddLength(before: seq<Byte>, bits: nat) returns (data: seq<Byte>)
    ensures data == before + BigEndian(bits, 8)
  {
    hide BigEndian, ShiftBytes;
    data := before;
    var i := 8;
    while i > 0
      invariant 0 <= i <= 8
      invariant data == before + BigEndian(bits, 8)[..8 - i]
    {
      i := i - 1;
      var shifted := ShiftRight(bits, i);
      BigEndianAt(bits, 8, 7 - i);
      assert BigEndian(bits, 8)[..8 - i] == BigEndian(bits, 8)[..7 - i] + [BigEndian(bits, 8)[7 - i]];
      data := data + [shifted % 256];
    }
    assert BigEndian(bits, 8)[..8] == BigEndian(bits, 8);
  }

  method Pad(id: seq<Byte>) returns (data: seq<Byte>)
    ensures data == Padded(id)
  {
    hide BigEndian, Zeros;
    data := AddZeros(id);
    data := AddLength(data, 8 * |id|);
  }

  // ---------- the message schedule ----------

  function PushByte(x: Word, b: Byte): Word {
    (x << 8) | (b as Word)
  }

  lemma FourBytes(x0: Word, x1: Word, x2: Word, x3: Word)
    ensures ((((((((0 << 8) | x0) << 8) | x1) << 8) | x2) << 8) | x3) == (x0 << 24) | (x1 << 16) | (x2 << 8) | x3
  {
  }

  lemma PushByteIs(x: Word, b: Byte)
    ensures PushByte(x, b) == (x << 8) | (b as Word)
  {
  }

  lemma BytesWordIs(b0: Byte, b1: Byte, b2: Byte, b3: Byte)
    ensures BytesWord(b0, b1, b2, b3) == (b0 as Word << 24) | (b1 as Word << 16) | (b2 as Word << 8) | (b3 as Word)
  {
  }

  lemma FourPushes(b0: Byte, b1: Byte, b2: Byte, b3: Byte)
    ensures PushByte(PushByte(PushByte(PushByte(0, b0), b1), b2), b3) == BytesWord(b0, b1, b2, b3)
  {
    hide PushByte, BytesWord;
    var x1 := PushByte(0, b0);
    var x2 := PushByte(x1, b1);
    var x3 := PushByte(x2, b2);
    PushByteIs(0, b0);
    PushByteIs(x1, b1);
    PushByteIs(x2, b2);
    PushByteIs(x3, b3);
    BytesWordIs(b0, b1, b2, b3);
    FourBytes(b0 as Word, b1 as Word, b2 as Word, b3 as Word);
  }

  method ReadWord(data: seq<Byte>, at: nat) returns (x: Word)
    requires at + 4 <= |data|
    ensures x == BytesWord(data[at], data[at + 1], data[at + 2], data[at + 3])
  {
    hide PushByte, BytesWord;
    FourPushes(data[at], data[at + 1], data[at + 2], data[at + 3]);
    x := 0;
    var j := 0;
    while j < 4
      invariant 0 <= j <= 4
      invariant j == 0 ==> x == 0
      invariant j == 1 ==> x == PushByte(0, data[at])
      invariant j == 2 ==> x == PushByte(PushByte(0, data[at]), data[at + 1])
      invariant j == 3 ==> x == PushByte(PushByte(PushByte(0, data[at]), data[at + 1]), data[at + 2])
      invariant j == 4 ==>
        x == PushByte(PushByte(PushByte(PushByte(0, data[at]), data[at + 1]), data[at + 2]), data[at + 3])
    {
      x := AppendByte(x, data[at + j]);
      j := j + 1;
    }
  }

  method AppendByte(x: Word, b: Byte) returns (y: Word)
    ensures y == PushByte(x, b)
  {
    y := (x << 8) | (b as Word);
  }

  lemma SumReordered(a: Word, b: Word, c: Word, d: Word)
    ensures a + b + c + d == d + c + b + a
  {
  }

  /** The source adds the four terms in another order. */
  method AddFour(d: Word, c: Word, b: Word, a: Word) returns (sum: Word)
    ensures sum == Plus4(a, b, c, d)
  {
    SumReordered(a, b, c, d);
    sum := d + c + b + a;
  }

  lemma SigmasAre(x: Word)
    ensures Sigma0(x) == Rotr(x, 7) ^ Rotr(x, 18) ^ (x >> 3)
    ensures Sigma1(x) == Rotr(x, 17) ^ Rotr(x, 19) ^ (x >> 10)
    ensures BigSigma0(x) == Rotr(x, 2) ^ Rotr(x, 13) ^ Rotr(x, 22)
    ensures BigSigma1(x) == Rotr(x, 6) ^ Rotr(x, 11) ^ Rotr(x, 25)
  {
    hide Rotr;
  }

  method NextScheduled(w2: Word, w7: Word, w15: Word, w16: Word) returns (w: Word)
    ensures w == NextWord(w2, w7, w15, w16)
  {
    hide Rotr, Sigma0, Sigma1, Plus4, BigSigma0, BigSigma1;
    SigmasAre(w15);
    SigmasAre(w2);
    var s0 := Rotr(w15, 7) ^ Rotr(w15, 18) ^ (w15 >> 3);
    var s1 := Rotr(w2, 17) ^ Rotr(w2, 19) ^ (w2 >> 10);
    w := AddFour(w16, s0, w7, s1);
  }

  /** Fills an array with the schedule of the block at an offset. */
  method FillSchedule(data: seq<Byte>, off: nat, w: array<Word>)
    requires off + 64 <= |data| && w.Length == 64
    modifies w
    ensures forall t :: 0 <= t < 64 ==> w[t] == Schedule(data[off..off + 64], t)
  {
    hide BytesWord, NextWord;
    ghost var block := data[off..off + 64];
    var i := 0;
    while i < 16
      invariant 0 <= i <= 16
      invariant forall t :: 0 <= t < i ==> w[t] == Schedule(block, t)
    {
      w[i] := ReadWord(data, off + i * 4);
      i := i + 1;
    }
    while i < 64
      invariant 16 <= i <= 64
      invariant forall t :: 0 <= t < i ==> w[t] == Schedule(block, t)
    {
      w[i] := NextScheduled(w[i - 2], w[i - 7], w[i - 15], w[i - 16]);
      i := i + 1;
    }
  }

  // ---------- the rounds ----------

  function Of(v: seq<Word>): Vars
    requires |v| == 8
  {
    Vars(v[0], v[1], v[2], v[3], v[4], v[5], v[6], v[7])
  }

  method Temporary1(h: Word, e: Word, f: Word, g: Word, k: Word, w: Word) returns (a: Word)
    ensures a == T1(h, e, f, g, k, w)
  {
    hide Rotr, Plus, BigSigma0, BigSigma1, Sigma0, Sigma1, Ch;
    SigmasAre(e);
    ChIs(e, f, g);
    a := Plus(Plus(Plus(Plus(h, Rotr(e, 6) ^ Rotr(e, 11) ^ Rotr(e, 25)), (e & f) ^ (!e & g)), k), w);
  }

  lemma ChIs(x: Word, y: Word, z: Word)
    ensures Ch(x, y, z) == (x & y) ^ (!x & z)
    ensures Maj(x, y, z) == (x & y) ^ (x & z) ^ (y & z)
  {
  }

  method Temporary2(a: Word, b: Word, c: Word) returns (t: Word)
    ensures t == T2(a, b, c)
  {
    hide Rotr, Plus, BigSigma0, BigSigma1, Sigma0, Sigma1, Maj;
    SigmasAre(a);
    ChIs(a, b, c);
    t := Plus(Rotr(a, 2) ^ Rotr(a, 13) ^ Rotr(a, 22), (a & b) ^ (a & c) ^ (b & c));
  }

  method Rotate(v: array<Word>)
    requires v.Length == 8
    modifies v
    ensures v[0] == old(v[0]) && forall j :: 0 < j < 8 ==> v[j] == old(v[j - 1])
  {
    var j := 7;
    while j > 0
      invariant 0 <= j <= 7
      invariant forall i :: 0 <= i <= j ==> v[i] == old(v[i])
      invariant forall i :: j < i < 8 ==> v[i] == old(v[i - 1])
    {
      v[j] := v[j - 1];
      j := j - 1;
    }
  }

  /** One round: the variables move up by one place, and two of them are replaced. */
  method RoundInPlace(v: array<Word>, k: Word, w: Word)
    requires v.Length == 8
    modifies v
    ensures Of(v[..]) == Round(Of(old(v[..])), k, w)
  {
    hide T1, T2, Plus;
    var a := Temporary1(v[7], v[4], v[5], v[6], k, w);
    var b := Temporary2(v[0], v[1], v[2]);
    Rotate(v);
    v[4] := Plus(v[4], a);
    v[0] := Plus(a, b);
  }

  method RunRounds(v: array<Word>, w: array<Word>, ghost block: seq<Byte>)
    requires v.Length == 8 && w.Length == 64 && v != w && |block| == 64
    requires forall t :: 0 <= t < 64 ==> w[t] == Schedule(block, t)
    modifies v
    ensures Of(v[..]) == Rounds(Of(old(v[..])), block, 64)
  {
    hide Round, Schedule;
    ghost var start := Of(v[..]);
    var i := 0;
    while i < 64
      invariant 0 <= i <= 64
      invariant Of(v[..]) == Rounds(start, block, i)
      invariant forall t :: 0 <= t < 64 ==> w[t] == Schedule(block, t)
    {
      RoundInPlace(v, K[i], w[i]);
      i := i + 1;
    }
  }

  method AddInPlace(h: array<Word>, v: array<Word>)
    requires h.Length == 8 && v.Length == 8 && h != v
    modifies h
    ensures Of(h[..]) == AddVars(Of(old(h[..])), Of(v[..]))
  {
    hide Plus;
    var i := 0;
    while i < 8
      invariant 0 <= i <= 8
      invariant forall j :: 0 <= j < i ==> h[j] == Plus(old(h[j]), v[j])
      invariant forall j :: i <= j < 8 ==> h[j] == old(h[j])
    {
      h[i] := Plus(h[i], v[i]);
      i := i + 1;
    }
  }

  method CompressBlock(h: array<Word>, data: seq<Byte>, off: nat)
    requires h.Length == 8 && off + 64 <= |data|
    modifies h
    ensures Of(h[..]) == Compress(Of(old(h[..])), data[off..off + 64])
  {
    hide Rounds, Schedule, AddVars;
    var w := new Word[64];
    FillSchedule(data, off, w);
    var v := new Word[8];
    var i := 0;
    while i < 8
      invariant 0 <= i <= 8
      invariant forall j :: 0 <= j < i ==> v[j] == h[j]
      invariant h[..] == old(h[..])
      modifies v
    {
      v[i] := h[i];
      i := i + 1;
    }
    assert Of(v[..]) == Of(h[..]);
    RunRounds(v, w, data[off..off + 64]);
    AddInPlace(h, v);
  }

  method HashInPlace(data: seq<Byte>, h: array<Word>)
    requires h.Length == 8 && |data| % 64 == 0 && Of(h[..]) == INITIAL
    modifies h
    ensures Of(h[..]) == HashBlocks(data, |data| / 64)
  {
    hide Compress;
    var off := 0;
    ghost var n := 0;
    while off < |data|
      invariant 0 <= off <= |data| && off == 64 * n
      invariant Of(h[..]) == HashBlocks(data, n)
    {
      CompressBlock(h, data, off);
      off := off + 64;
      n := n + 1;
    }
  }

  // ---------- hexadecimal digits ----------

  const DIGITS := "0123456789abcdef"

  function Nibble(word: Word, n: nat): (r: Word)
    requires n < 32
    ensures r as int < 16
  {
    (word >> n) & 15
  }

  function HexDigit(nibble: Word): (c: char)
    requires nibble as int < 16
    ensures c in DIGITS
  {
    DIGITS[nibble as int]
  }

  /** The first n digits of a word, from the highest one down. */
  function HexDigits(word: Word, n: nat): (s: string)
    requires n <= 8
    ensures |s| == n && forall k :: 0 <= k < n ==> s[k] in DIGITS
  {
    if n == 0 then "" else HexDigits(word, n - 1) + [HexDigit(Nibble(word, 32 - 4 * n))]
  }

  function HexWord(word: Word): (s: string)
    ensures |s| == 8 && forall k :: 0 <= k < 8 ==> s[k] in DIGITS
  {
    HexDigits(word, 8)
  }

  function WordsOf(v: Vars): seq<Word> {
    [v.a, v.b, v.c, v.d, v.e, v.f, v.g, v.h]
  }

  function HexWords(words: seq<Word>): (s: string)
    ensures |s| == 8 * |words| && forall k :: 0 <= k < |s| ==> s[k] in DIGITS
  {
    if words == [] then "" else HexWords(words[..|words| - 1]) + HexWord(words[|words| - 1])
  }

  function Hex(v: Vars): string {
    HexWords(WordsOf(v))
  }

  // ---------- reading the digits back ----------

  function DigitBits(c: char): Word {
    if c == '0' then 0 else if c == '1' then 1 else if c == '2' then 2 else if c == '3' then 3
    else if c == '4' then 4 else if c == '5' then 5 else if c == '6' then 6 else if c == '7' then 7
    else if c == '8' then 8 else if c == '9' then 9 else if c == 'a' then 10 else if c == 'b' then 11
    else if c == 'c' then 12 else if c == 'd' then 13 else if c == 'e' then 14 else 15
  }

  function PushNibble(x: Word, nibble: Word): Word {
    (x << 4) | nibble
  }

  /** The word that hexadecimal digits spell. */
  function Decode(s: string): Word {
    if s == "" then 0 else PushNibble(Decode(s[..|s| - 1]), DigitBits(s[|s| - 1]))
  }

  function PushNibbles(word: Word, n: nat): Word
    requires n <= 8
  {
    if n == 0 then 0 else PushNibble(PushNibbles(word, n - 1), Nibble(word, 32 - 4 * n))
  }

  lemma SmallCases(n: Word)
    requires n as int < 16
    ensures n == 0 || n == 1 || n == 2 || n == 3 || n == 4 || n == 5 || n == 6 || n == 7
            || n == 8 || n == 9 || n == 10 || n == 11 || n == 12 || n == 13 || n == 14 || n == 15
  {
  }

  lemma DigitReadsBack(n: Word)
    requires n as int < 16
    ensures DigitBits(HexDigit(n)) == n
  {
    SmallCases(n);
  }

  lemma {:induction false} DigitsReadBack(word: Word, n: nat)
    requires n <= 8
    ensures Decode(HexDigits(word, n)) == PushNibbles(word, n)
  {
    hide HexDigit, DigitBits, PushNibble, Nibble;
    if n > 0 {
      DigitsReadBack(word, n - 1);
      var s := HexDigits(word, n);
      assert s[..n - 1] == HexDigits(word, n - 1);
      DigitReadsBack(Nibble(word, 32 - 4 * n));
    }
  }

  /** The bits of a word from bit n up. */
  function Top(word: Word, n: nat): Word
    requires n < 32
  {
    word >> n
  }

  lemma Top28(w: Word)
    ensures PushNibble(0, Nibble(w, 28)) == Top(w, 28)
  {
    assert (0 << 4) | ((w >> 28) & 15) == w >> 28;
  }

  lemma Top24(w: Word)
    ensures PushNibble(Top(w, 28), Nibble(w, 24)) == Top(w, 24)
  {
    assert ((w >> 28) << 4) | ((w >> 24) & 15) == w >> 24;
  }

  lemma Top20(w: Word)
    ensures PushNibble(Top(w, 24), Nibble(w, 20)) == Top(w, 20)
  {
    assert ((w >> 24) << 4) | ((w >> 20) & 15) == w >> 20;
  }

  lemma Top16(w: Word)
    ensures PushNibble(Top(w, 20), Nibble(w, 16)) == Top(w, 16)
  {
    assert ((w >> 20) << 4) | ((w >> 16) & 15) == w >> 16;
  }

  lemma Top12(w: Word)
    ensures PushNibble(Top(w, 16), Nibble(w, 12)) == Top(w, 12)
  {
    assert ((w >> 16) << 4) | ((w >> 12) & 15) == w >> 12;
  }

  lemma Top8(w: Word)
    ensures PushNibble(Top(w, 12), Nibble(w, 8)) == Top(w, 8)
  {
    assert ((w >> 12) << 4) | ((w >> 8) & 15) == w >> 8;
  }

  lemma Top4(w: Word)
    ensures PushNibble(Top(w, 8), Nibble(w, 4)) == Top(w, 4)
  {
    assert ((w >> 8) << 4) | ((w >> 4) & 15) == w >> 4;
  }

  lemma Top0(w: Word)
    ensures PushNibble(Top(w, 4), Nibble(w, 0)) == w
  {
    assert ((w >> 4) << 4) | ((w >> 0) & 15) == w;
  }

  lemma HalfTheNibbles(word: Word)
    ensures PushNibbles(word, 4) == Top(word, 16)
  {
    hide PushNibble, Nibble, Top;
    Top28(word);
    Top24(word);
    Top20(word);
    Top16(word);
    assert PushNibbles(word, 1) == PushNibble(PushNibbles(word, 0), Nibble(word, 28));
    assert PushNibbles(word, 2) == PushNibble(PushNibbles(word, 1), Nibble(word, 24));
    assert PushNibbles(word, 3) == PushNibble(PushNibbles(word, 2), Nibble(word, 20));
    assert PushNibbles(word, 4) == PushNibble(PushNibbles(word, 3), Nibble(word, 16));
  }

  /** The eight nibbles make up the word. */
  lemma NibblesMakeWord(word: Word)
    ensures PushNibbles(word, 8) == word
  {
    hide PushNibble, Nibble, Top;
    HalfTheNibbles(word);
    Top12(word);
    Top8(word);
    Top4(word);
    Top0(word);
    assert PushNibbles(word, 5) == PushNibble(PushNibbles(word, 4), Nibble(word, 12));
    assert PushNibbles(word, 6) == PushNibble(PushNibbles(word, 5), Nibble(word, 8));
    assert PushNibbles(word, 7) == PushNibble(PushNibbles(word, 6), Nibble(word, 4));
    assert PushNibbles(word, 8) == PushNibble(PushNibbles(word, 7), Nibble(word, 0));
  }

  lemma HexWordReadsBack(word: Word)
    ensures Decode(HexWord(word)) == word
  {
    hide HexDigits, Decode, PushNibbles;
    DigitsReadBack(word, 8);
    NibblesMakeWord(word);
  }

  lemma {:induction false} HexWordsReadBack(words: seq<Word>, i: nat)
    requires i < |words|
    ensures Decode(HexWords(words)[8 * i..8 * i + 8]) == words[i]
  {
    hide Decode, HexWord;
    var n := |words| - 1;
    var before := HexWords(words[..n]);
    if i == n {
      assert HexWords(words)[8 * n..8 * n + 8] == HexWord(words[n]);
      HexWordReadsBack(words[n]);
    } else {
      assert HexWords(words)[8 * i..8 * i + 8] == before[8 * i..8 * i + 8];
      HexWordsReadBack(words[..n], i);
    }
  }

  /** The form of an account that a route lease accepts. */
  predicate AccountFormat(s: string) {
    |s| == 64 && forall k :: 0 <= k < 64 ==> s[k] in DIGITS
  }

  /** The digits are in the form of an account, and spell the eight words of the hash. */
  lemma HexIsAccount(v: Vars)
    ensures AccountFormat(Hex(v))
    ensures forall i :: 0 <= i < 8 ==> Decode(Hex(v)[8 * i..8 * i + 8]) == WordsOf(v)[i]
  {
    hide Decode, HexWords;
    forall i | 0 <= i < 8 ensures Decode(Hex(v)[8 * i..8 * i + 8]) == WordsOf(v)[i] {
      HexWordsReadBack(WordsOf(v), i);
    }
  }

  /** Different hash values have different digits. */
  lemma HexIsInjective(x: Vars, y: Vars)
    requires Hex(x) == Hex(y)
    ensures x == y
  {
    hide Hex, Decode;
    HexIsAccount(x);
    HexIsAccount(y);
    assert forall i :: 0 <= i < 8 ==> WordsOf(x)[i] == WordsOf(y)[i];
    assert WordsOf(x) == WordsOf(y);
    assert x == Of(WordsOf(x)) && y == Of(WordsOf(y));
  }

  // ---------- the digest ----------

  method WriteWord(word: Word, before: string) returns (out: string)
    ensures out == before + HexWord(word)
  {
    hide HexDigit, Nibble;
    out := before;
    var n := 0;
    while n < 8
      invariant 0 <= n <= 8
      invariant out == before + HexDigits(word, n)
    {
      n := n + 1;
      out := out + [HexDigit(Nibble(word, 32 - 4 * n))];
    }
  }

  method WriteHex(h: array<Word>) returns (out: string)
    requires h.Length == 8
    ensures out == Hex(Of(h[..]))
  {
    hide HexWord;
    out := "";
    var i := 0;
    while i < 8
      invariant 0 <= i <= 8
      invariant out == HexWords(h[..i])
    {
      out := WriteWord(h[i], out);
      assert h[..i + 1][..i] == h[..i];
      i := i + 1;
    }
    assert h[..8] == WordsOf(Of(h[..]));
  }

  /** The SHA-256 hash of an id of 1 to 512 bytes, as 64 digits; nothing for any other id. */
  method Digest(id: seq<Byte>) returns (out: string)
    ensures out == if 1 <= |id| <= 512 then Hex(Sha256.Digest(id)) else ""
    ensures 1 <= |id| <= 512 <==> AccountFormat(out)
  {
    hide HashBlocks, Padded, Hex;
    if id == [] || |id| > 512 { return ""; }
    var data := Pad(id);
    var h := new Word[8][0x6a09e667, 0xbb67ae85, 0x3c6ef372, 0xa54ff53a,
                         0x510e527f, 0x9b05688c, 0x1f83d9ab, 0x5be0cd19];
    HashInPlace(data, h);
    HexIsAccount(Of(h[..]));
    out := WriteHex(h);
  }
}
