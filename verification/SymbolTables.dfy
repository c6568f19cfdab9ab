/** Symbol tables, and the two hash tables over them as the lookup reads them. */
module SymbolTables {
  import opened Options

  /** The bytes of a name, without the final zero. */
  type Name = seq<bv8>

  datatype Symbol = Symbol(name: Name, section: int, value: int, size: int)

  const SHN_UNDEF := 0

  const WORD_BITS: nat := 64

  // ---------- the hashes ----------

  function GnuStep(h: bv32, c: bv8): bv32 {
    h + ((h << 5) + c as bv32)
  }

  function GnuHash(name: Name): bv32 {
    if name == [] then 5381 else GnuStep(GnuHash(name[..|name| - 1]), name[|name| - 1])
  }

  /** Folds the top four bits of a sum back in. */
  function Fold(s: bv32): bv32 {
    s ^ (s & 0xf000_0000) ^ ((s & 0xf000_0000) >> 24)
  }

  function SysvStep(h: bv32, c: bv8): bv32 {
    Fold((h << 4) + c as bv32)
  }

  function SysvHash(name: Name): bv32 {
    if name == [] then 0 else SysvStep(SysvHash(name[..|name| - 1]), name[|name| - 1])
  }

  /** The same fold in the hash function of the System V gABI, chapter 5, "Hash Table". */
  function GabiFold(s: bv32): bv32 {
    if s & 0xf000_0000 != 0 then (s ^ ((s & 0xf000_0000) >> 24)) & !(s & 0xf000_0000) else s & !(s & 0xf000_0000)
  }

  function GabiStep(h: bv32, c: bv8): bv32 {
    GabiFold((h << 4) + c as bv32)
  }

  function GabiHash(name: Name): bv32 {
    if name == [] then 0 else GabiStep(GabiHash(name[..|name| - 1]), name[|name| - 1])
  }

  lemma FoldBits(s: bv32)
    ensures s & 0xf000_0000 != 0 ==>
              s ^ (s & 0xf000_0000) ^ ((s & 0xf000_0000) >> 24) == (s ^ ((s & 0xf000_0000) >> 24)) & !(s & 0xf000_0000)
    ensures s & 0xf000_0000 == 0 ==>
              s ^ (s & 0xf000_0000) ^ ((s & 0xf000_0000) >> 24) == s & !(s & 0xf000_0000)
    ensures (s ^ (s & 0xf000_0000) ^ ((s & 0xf000_0000) >> 24)) & 0xf000_0000 == 0
  {
  }

  lemma FoldIs(s: bv32)
    ensures Fold(s) == s ^ (s & 0xf000_0000) ^ ((s & 0xf000_0000) >> 24)
  {
  }

  lemma GabiFoldIs(s: bv32)
    ensures s & 0xf000_0000 != 0 ==> GabiFold(s) == (s ^ ((s & 0xf000_0000) >> 24)) & !(s & 0xf000_0000)
    ensures s & 0xf000_0000 == 0 ==> GabiFold(s) == s & !(s & 0xf000_0000)
  {
  }

  /** The branch-free fold is the one of the gABI, and clears the top four bits. */
  lemma FoldIsGabi(s: bv32)
    ensures Fold(s) == GabiFold(s) && Fold(s) & 0xf000_0000 == 0
  {
    hide Fold, GabiFold;
    FoldIs(s);
    GabiFoldIs(s);
    FoldBits(s);
  }

  lemma StepIsGabi(h: bv32, c: bv8)
    ensures SysvStep(h, c) == GabiStep(h, c)
  {
    hide Fold, GabiFold;
    FoldIsGabi((h << 4) + c as bv32);
  }

  lemma {:induction false} SysvHashIsGabi(name: Name)
    ensures SysvHash(name) == GabiHash(name)
  {
    hide SysvStep, GabiStep;
    if name != [] {
      SysvHashIsGabi(name[..|name| - 1]);
      StepIsGabi(SysvHash(name[..|name| - 1]), name[|name| - 1]);
    }
  }

  /** Bernstein's step: the hash times 33, and the next byte, modulo 2 to the 32. */
  lemma GnuStepIsTimes33(h: bv32, c: bv32)
    ensures h + ((h << 5) + c) == 33 * h + c
  {
  }

  method AddGnu(before: bv32, c: bv8) returns (h: bv32)
    ensures h == GnuStep(before, c)
  {
    h := before;
    h := h + ((h << 5) + c as bv32);
  }

  method ComputeGnuHash(name: Name) returns (h: bv32)
    ensures h == GnuHash(name)
  {
    hide GnuStep;
    h := 5381;
    var i := 0;
    while i < |name|
      invariant 0 <= i <= |name|
      invariant h == GnuHash(name[..i])
    {
      assert name[..i + 1][..i] == name[..i];
      h := AddGnu(h, name[i]);
      i := i + 1;
    }
    assert name[..i] == name;
  }

  method AddSysv(before: bv32, c: bv8) returns (h: bv32)
    ensures h == SysvStep(before, c)
  {
    hide Fold;
    h := (before << 4) + c as bv32;
    FoldIs(h);
    var g := h & 0xf000_0000;
    h := h ^ g;
    h := h ^ (g >> 24);
  }

  method ComputeSysvHash(name: Name) returns (h: bv32)
    ensures h == SysvHash(name)
  {
    hide SysvStep;
    h := 0;
    var i := 0;
    while i < |name|
      invariant 0 <= i <= |name|
      invariant h == SysvHash(name[..i])
    {
      assert name[..i + 1][..i] == name[..i];
      h := AddSysv(h, name[i]);
      i := i + 1;
    }
    assert name[..i] == name;
  }

  // ---------- a plain scan ----------

  /** The first symbol of that name at or after an index. */
  function Scan(symbols: seq<Symbol>, name: Name, from: nat): (r: Option<nat>)
    decreases |symbols| - from
  {
    if from >= |symbols| then None
    else if symbols[from].name == name then Some(from)
    else Scan(symbols, name, from + 1)
  }

  lemma {:induction false} ScanIsFirst(symbols: seq<Symbol>, name: Name, from: nat)
    ensures var r := Scan(symbols, name, from);
            && (r.Some? ==> from <= r.value < |symbols| && symbols[r.value].name == name
                            && forall k :: from <= k < r.value ==> symbols[k].name != name)
            && (r.None? ==> forall k :: from <= k < |symbols| ==> symbols[k].name != name)
    decreases |symbols| - from
  {
    if from < |symbols| && symbols[from].name != name {
      ScanIsFirst(symbols, name, from + 1);
    }
  }

  // ---------- the GNU table ----------

  datatype GnuTable = GnuTable(buckets: seq<nat>, chains: seq<bv32>, symoffset: nat, bloom: seq<bv64>, shift: nat)

  function Index(h: bv32, n: nat): (i: nat)
    requires n > 0
    ensures i < n
  {
    h as int % n
  }

  function BloomIndex(h: bv32, n: nat): (i: nat)
    requires n > 0
    ensures i < n
  {
    h as int / WORD_BITS % n
  }

  function Mask(h: bv32, shift: nat): bv64
    requires shift < 32
  {
    (1 << (h as int % WORD_BITS)) | (1 << ((h >> shift) as int % WORD_BITS))
  }

  predicate Covers(word: bv64, mask: bv64) {
    word & mask == mask
  }

  predicate Passes(t: GnuTable, h: bv32)
    requires |t.bloom| > 0 && t.shift < 32
  {
    Covers(t.bloom[BloomIndex(h, |t.bloom|)], Mask(h, t.shift))
  }

  predicate Ends(chain: bv32) {
    chain & 1 != 0
  }

  /** Two hashes are equal up to their lowest bit. */
  predicate SameHash(a: bv32, b: bv32) {
    a | 1 == b | 1
  }

  predicate Sized(t: GnuTable, symbols: seq<Symbol>) {
    && |t.buckets| > 0 && |t.bloom| > 0 && t.shift < 32
    && t.symoffset <= |symbols| && |t.chains| == |symbols| - t.symoffset
  }

  function ChainOf(t: GnuTable, i: nat): bv32
    requires t.symoffset <= i < t.symoffset + |t.chains|
  {
    t.chains[i - t.symoffset]
  }

  predicate OnChain(t: GnuTable, from: nat, i: nat)
    requires t.symoffset <= from && i <= t.symoffset + |t.chains|
  {
    forall k :: from <= k < i ==> !Ends(ChainOf(t, k))
  }

  /** A symbol passes the filter, is on the chain of its bucket, and is there under its hash. */
  predicate Filed(t: GnuTable, symbols: seq<Symbol>, i: nat)
    requires Sized(t, symbols) && t.symoffset <= i < |symbols|
  {
    var h := GnuHash(symbols[i].name);
    var from := t.buckets[Index(h, |t.buckets|)];
    && Passes(t, h) && SameHash(h, ChainOf(t, i))
    && t.symoffset <= from <= i && OnChain(t, from, i)
  }

  predicate HasBit(word: bv64, k: nat)
    requires k < 64
  {
    Covers(word, Bit(k))
  }

  function Bit(k: nat): bv64
    requires k < 64
  {
    1 << k
  }

  /** The two bits of a filter word that stand for a hash. */
  function FirstBit(h: bv32): (k: nat)
    ensures k < 64
  {
    h as int % 64
  }

  function SecondBit(h: bv32, shift: nat): (k: nat)
    requires shift < 32
    ensures k < 64
  {
    (h >> shift) as int % 64
  }

  function FilterWord(h: bv32, bloom: seq<bv64>): bv64
    requires |bloom| > 0
  {
    bloom[h as int / 64 % |bloom|]
  }

  lemma OneOfBoth(word: bv64, m: bv64, n: bv64)
    ensures word & (m | n) == m | n ==> word & m == m
  {
  }

  lemma BothOf(word: bv64, m: bv64, n: bv64)
    ensures word & m == m && word & n == n ==> word & (m | n) == m | n
  {
    assert word & (m | n) == (word & m) | (word & n);
  }

  lemma BothMasks(word: bv64, m: bv64, n: bv64)
    ensures Covers(word, m | n) <==> Covers(word, m) && Covers(word, n)
  {
    OneOfBoth(word, m, n);
    OneOfBoth(word, n, m);
    Swaps(m, n);
    BothOf(word, m, n);
  }

  lemma Swaps(m: bv64, n: bv64)
    ensures m | n == n | m
  {
  }

  lemma PassesMeans(t: GnuTable, h: bv32)
    requires |t.bloom| > 0 && t.shift < 32
    ensures var word := FilterWord(h, t.bloom);
      Passes(t, h) <==> HasBit(word, FirstBit(h)) && HasBit(word, SecondBit(h, t.shift))
  {
    hide HasBit, Mask, FirstBit, SecondBit, FilterWord, Covers, Passes;
    PassesCovers(t, h);
    MaskMeans(FilterWord(h, t.bloom), h, t.shift);
  }

  lemma PassesCovers(t: GnuTable, h: bv32)
    requires |t.bloom| > 0 && t.shift < 32
    ensures Passes(t, h) <==> Covers(FilterWord(h, t.bloom), Mask(h, t.shift))
  {
    hide Mask, BloomIndex, FilterWord, Covers;
    WordMeans(h, t.bloom);
  }

  lemma WordMeans(h: bv32, bloom: seq<bv64>)
    requires |bloom| > 0
    ensures bloom[BloomIndex(h, |bloom|)] == FilterWord(h, bloom)
  {
  }

  lemma MaskMeans(word: bv64, h: bv32, shift: nat)
    requires shift < 32
    ensures Covers(word, Mask(h, shift)) <==> HasBit(word, FirstBit(h)) && HasBit(word, SecondBit(h, shift))
  {
    hide Bit, Mask, FirstBit, SecondBit, Covers;
    MaskIs(h, shift);
    BothMasks(word, Bit(FirstBit(h)), Bit(SecondBit(h, shift)));
  }

  lemma MaskIs(h: bv32, shift: nat)
    requires shift < 32
    ensures Mask(h, shift) == Bit(FirstBit(h)) | Bit(SecondBit(h, shift))
  {
    hide FirstBit, SecondBit;
    BitsOf(h, shift);
  }

  lemma BitsOf(h: bv32, shift: nat)
    requires shift < 32
    ensures FirstBit(h) == h as int % 64 && SecondBit(h, shift) == (h >> shift) as int % 64
  {
  }

  /** Equal but for the lowest bit. */
  predicate SameAbove(a: bv32, b: bv32) {
    a >> 1 == b >> 1
  }

  /** The lowest bit is clear. */
  predicate GoesOn(chain: bv32) {
    chain & 1 == 0
  }

  lemma SameMeans(a: bv32, b: bv32)
    ensures SameHash(a, b) <==> SameAbove(a, b)
  {
  }

  lemma EndsMeans(chain: bv32)
    ensures GoesOn(chain) <==> !Ends(chain)
  {
  }

  lemma OnChainMeans(t: GnuTable, from: nat, i: nat)
    requires t.symoffset <= from <= i && i <= t.symoffset + |t.chains|
    ensures OnChain(t, from, i) <==> forall k :: from - t.symoffset <= k < i - t.symoffset ==> GoesOn(t.chains[k])
  {
    hide GoesOn, Ends;
    forall k | 0 <= k < |t.chains| ensures GoesOn(t.chains[k]) <==> !Ends(ChainOf(t, k + t.symoffset)) {
      EndsMeans(t.chains[k]);
    }
  }

  /** In the terms of the file format: two bits of one filter word, the lowest bit of a link, and the bits above it. */
  lemma FiledMeans(t: GnuTable, symbols: seq<Symbol>, i: nat)
    requires Sized(t, symbols) && t.symoffset <= i < |symbols|
    ensures var h := GnuHash(symbols[i].name);
      var from, word := t.buckets[h as int % |t.buckets|], FilterWord(h, t.bloom);
      Filed(t, symbols, i) <==>
        && HasBit(word, FirstBit(h)) && HasBit(word, SecondBit(h, t.shift))
        && t.symoffset <= from <= i && SameAbove(h, t.chains[i - t.symoffset])
        && forall k :: from - t.symoffset <= k < i - t.symoffset ==> GoesOn(t.chains[k])
  {
    hide GnuHash, SameHash, OnChain, Passes, HasBit, Ends, FirstBit, SecondBit, FilterWord, SameAbove, GoesOn;
    var h := GnuHash(symbols[i].name);
    PassesMeans(t, h);
    SameMeans(h, t.chains[i - t.symoffset]);
    var from := t.buckets[h as int % |t.buckets|];
    if t.symoffset <= from <= i { OnChainMeans(t, from, i); }
  }

  /** A table that the lookup reads as intended: every bucket leads into the symbols, the last chain ends, and every
      symbol from the offset on is filed. */
  predicate WellFormed(t: GnuTable, symbols: seq<Symbol>) {
    && Sized(t, symbols)
    && (forall b :: 0 <= b < |t.buckets| ==> t.buckets[b] < t.symoffset || t.buckets[b] < |symbols|)
    && (t.chains != [] ==> Ends(t.chains[|t.chains| - 1]))
    && (forall i :: t.symoffset <= i < |symbols| ==> Filed(t, symbols, i))
  }

  // ---------- the SysV table ----------

  datatype SysvTable = SysvTable(buckets: seq<nat>, chains: seq<nat>)

  function SysvBucket(t: SysvTable, name: Name): nat
    requires |t.buckets| > 0
  {
    t.buckets[Index(SysvHash(name), |t.buckets|)]
  }

  /** The links go down in depth, so that every chain comes to an end. */
  predicate Descends(t: SysvTable, depth: seq<nat>) {
    && |depth| == |t.chains|
    && (forall i :: 0 < i < |t.chains| ==>
          t.chains[i] < |t.chains| && (t.chains[i] != 0 ==> depth[t.chains[i]] < depth[i]))
  }

  /** j is reached from i by following the chain. */
  predicate Reaches(t: SysvTable, depth: seq<nat>, i: nat, j: nat)
    requires Descends(t, depth) && i < |t.chains|
    decreases if i == 0 then 0 else 1 + depth[i]
  {
    i != 0 && (i == j || Reaches(t, depth, t.chains[i], j))
  }

  /** Every bucket leads into the symbols, and every symbol but the first is on the chain of its bucket. */
  predicate SysvWellFormed(t: SysvTable, depth: seq<nat>, symbols: seq<Symbol>) {
    && |t.buckets| > 0 && |t.chains| == |symbols| && |symbols| > 0 && Descends(t, depth)
    && (forall b :: 0 <= b < |t.buckets| ==> t.buckets[b] < |symbols|)
    && (forall i :: 0 < i < |symbols| ==> Reaches(t, depth, SysvBucket(t, symbols[i].name), i))
  }
}
