/** The GNU and SysV tables that a linker writes are tables that the lookup reads as intended. */
module SymbolBuilding {
  import opened Options
  import opened SymbolTables

  function BucketOf(symbols: seq<Symbol>, n: nat, i: nat): nat
    requires n > 0 && i < |symbols|
  {
    Index(GnuHash(symbols[i].name), n)
  }

  /** The symbols from the offset on are in the order of their buckets. */
  predicate Grouped(symbols: seq<Symbol>, offset: nat, n: nat)
    requires n > 0
  {
    forall i, j :: offset <= i <= j < |symbols| ==> BucketOf(symbols, n, i) <= BucketOf(symbols, n, j)
  }

  /** The first symbol of a bucket at or after i, or 0. */
  function FirstOf(symbols: seq<Symbol>, n: nat, b: nat, i: nat): nat
    requires n > 0
    decreases |symbols| - i
  {
    if i >= |symbols| then 0 else if BucketOf(symbols, n, i) == b then i else FirstOf(symbols, n, b, i + 1)
  }

  predicate LastOf(symbols: seq<Symbol>, n: nat, i: nat)
    requires n > 0 && i < |symbols|
  {
    i + 1 == |symbols| || BucketOf(symbols, n, i + 1) != BucketOf(symbols, n, i)
  }

  function Marked(h: bv32, last: bool): bv32 {
    if last then h | 1 else h & 0xffff_fffe
  }

  function BuiltChain(symbols: seq<Symbol>, n: nat, i: nat): bv32
    requires n > 0 && i < |symbols|
  {
    Marked(GnuHash(symbols[i].name), LastOf(symbols, n, i))
  }

  /** One word of the filter: the masks of the symbols that it stands for. */
  function BuiltWord(symbols: seq<Symbol>, offset: nat, words: nat, shift: nat, w: nat): bv64
    requires words > 0 && shift < 32
    decreases |symbols| - offset
  {
    if offset >= |symbols| then 0
    else
      var h := GnuHash(symbols[offset].name);
      var rest := BuiltWord(symbols, offset + 1, words, shift, w);
      if BloomIndex(h, words) == w then rest | Mask(h, shift) else rest
  }

  function Build(symbols: seq<Symbol>, offset: nat, n: nat, words: nat, shift: nat): GnuTable
    requires n > 0 && words > 0 && shift < 32 && offset <= |symbols|
  {
    GnuTable(seq(n, b requires 0 <= b < n => FirstOf(symbols, n, b, offset)),
             seq(|symbols| - offset, k requires 0 <= k < |symbols| - offset => BuiltChain(symbols, n, offset + k)),
             offset,
             seq(words, w requires 0 <= w < words => BuiltWord(symbols, offset, words, shift, w)),
             shift)
  }

  // ---------- bits ----------

  lemma MarkBits(h: bv32)
    ensures (h | 1) & 1 != 0 && (h & 0xffff_fffe) & 1 == 0
    ensures h | 1 == (h | 1) | 1 && h | 1 == (h & 0xffff_fffe) | 1
  {
  }

  lemma MarkedIs(h: bv32, last: bool)
    ensures Ends(Marked(h, last)) == last && SameHash(h, Marked(h, last))
  {
    MarkBits(h);
  }

  lemma AddMask(word: bv64, mask: bv64)
    ensures (word | mask) & mask == mask
  {
  }

  lemma KeepMask(word: bv64, mask: bv64, more: bv64)
    ensures word & mask == mask ==> (word | more) & mask == mask
  {
  }

  // ---------- the filter ----------

  lemma {:induction false} WordHasMask(symbols: seq<Symbol>, offset: nat, words: nat, shift: nat, i: nat)
    requires words > 0 && shift < 32 && offset <= i < |symbols|
    ensures var h := GnuHash(symbols[i].name);
            BuiltWord(symbols, offset, words, shift, BloomIndex(h, words)) & Mask(h, shift) == Mask(h, shift)
    decreases i - offset
  {
    hide Mask, GnuHash, BloomIndex;
    var h := GnuHash(symbols[i].name);
    var w := BloomIndex(h, words);
    var first := GnuHash(symbols[offset].name);
    var rest := BuiltWord(symbols, offset + 1, words, shift, w);
    if i == offset {
      AddMask(rest, Mask(h, shift));
    } else {
      WordHasMask(symbols, offset + 1, words, shift, i);
      KeepMask(rest, Mask(h, shift), Mask(first, shift));
    }
  }

  // ---------- the buckets ----------

  lemma {:induction false} FirstIsFirst(symbols: seq<Symbol>, n: nat, b: nat, i: nat)
    requires n > 0
    ensures var r := FirstOf(symbols, n, b, i);
            if r == 0 then i > 0 ==> forall k :: i <= k < |symbols| ==> BucketOf(symbols, n, k) != b
            else i <= r < |symbols| && BucketOf(symbols, n, r) == b
    decreases |symbols| - i
  {
    hide BucketOf;
    if i < |symbols| && BucketOf(symbols, n, i) != b {
      FirstIsFirst(symbols, n, b, i + 1);
    }
  }

  lemma {:induction false} FirstIsBefore(symbols: seq<Symbol>, n: nat, b: nat, i: nat, k: nat)
    requires n > 0 && 0 < i <= k < |symbols| && BucketOf(symbols, n, k) == b
    ensures i <= FirstOf(symbols, n, b, i) <= k && BucketOf(symbols, n, FirstOf(symbols, n, b, i)) == b
    decreases k - i
  {
    hide BucketOf;
    if BucketOf(symbols, n, i) != b {
      FirstIsBefore(symbols, n, b, i + 1, k);
    }
  }

  /** Between the first symbol of a bucket and another one of it, no chain ends. */
  lemma NoEndBetween(symbols: seq<Symbol>, offset: nat, n: nat, from: nat, i: nat, k: nat)
    requires n > 0 && Grouped(symbols, offset, n) && offset <= from <= k < i < |symbols|
    requires BucketOf(symbols, n, from) == BucketOf(symbols, n, i)
    ensures !LastOf(symbols, n, k)
  {
    hide BucketOf;
  }

  lemma BuiltParts(symbols: seq<Symbol>, offset: nat, n: nat, words: nat, shift: nat)
    requires n > 0 && words > 0 && shift < 32 && offset <= |symbols|
    ensures var t := Build(symbols, offset, n, words, shift);
            && t.symoffset == offset && Sized(t, symbols) && |t.buckets| == n && |t.bloom| == words && t.shift == shift
            && (forall b :: 0 <= b < n ==> t.buckets[b] == FirstOf(symbols, n, b, offset))
            && (forall w :: 0 <= w < words ==> t.bloom[w] == BuiltWord(symbols, offset, words, shift, w))
            && (forall k: nat :: offset <= k < |symbols| ==> ChainOf(t, k) == BuiltChain(symbols, n, k))
  {
    hide BuiltChain, FirstOf, BuiltWord;
  }

  lemma BuiltFiled(symbols: seq<Symbol>, offset: nat, n: nat, words: nat, shift: nat, i: nat)
    requires n > 0 && words > 0 && shift < 32 && 0 < offset <= i < |symbols| && Grouped(symbols, offset, n)
    ensures Filed(Build(symbols, offset, n, words, shift), symbols, i)
  {
    hide GnuHash, Mask, BloomIndex, Ends, SameHash, Marked, BuiltWord, FirstOf, Grouped, Build, ChainOf;
    var t := Build(symbols, offset, n, words, shift);
    BuiltParts(symbols, offset, n, words, shift);
    var b := BucketOf(symbols, n, i);
    WordHasMask(symbols, offset, words, shift, i);
    FirstIsBefore(symbols, n, b, offset, i);
    MarkedIs(GnuHash(symbols[i].name), LastOf(symbols, n, i));
    var from := FirstOf(symbols, n, b, offset);
    forall k | from <= k < i ensures !Ends(ChainOf(t, k)) {
      NoEndBetween(symbols, offset, n, from, i, k);
      MarkedIs(GnuHash(symbols[k].name), LastOf(symbols, n, k));
    }
  }

  /** Over any symbols that are grouped by bucket, for any number of buckets and filter words. */
  lemma BuiltIsWellFormed(symbols: seq<Symbol>, offset: nat, n: nat, words: nat, shift: nat)
    requires n > 0 && words > 0 && shift < 32 && 0 < offset <= |symbols| && Grouped(symbols, offset, n)
    ensures WellFormed(Build(symbols, offset, n, words, shift), symbols)
  {
    hide GnuHash, Mask, BloomIndex, Ends, SameHash, Marked, BuiltWord, FirstOf, Grouped, Filed, Build;
    var t := Build(symbols, offset, n, words, shift);
    BuiltParts(symbols, offset, n, words, shift);
    forall b | 0 <= b < n ensures t.buckets[b] < offset || t.buckets[b] < |symbols| {
      FirstIsFirst(symbols, n, b, offset);
    }
    if t.chains != [] {
      MarkedIs(GnuHash(symbols[|symbols| - 1].name), true);
      assert t.chains[|t.chains| - 1] == ChainOf(t, |symbols| - 1);
    }
    forall i | offset <= i < |symbols| ensures Filed(t, symbols, i) {
      BuiltFiled(symbols, offset, n, words, shift, i);
    }
  }

  // ---------- the SysV table ----------

  function SysvBucketOf(symbols: seq<Symbol>, n: nat, i: nat): (b: nat)
    requires n > 0 && i < |symbols|
    ensures b < n
  {
    Index(SysvHash(symbols[i].name), n)
  }

  /** The table with the first k symbols entered, each in front of the chain of its bucket. */
  function BuildSysv(symbols: seq<Symbol>, n: nat, k: nat): (t: SysvTable)
    requires n > 0 && k <= |symbols|
    ensures |t.buckets| == n && |t.chains| == |symbols|
  {
    if k <= 1 then SysvTable(seq(n, _ => 0), seq(|symbols|, _ => 0))
    else
      var t := BuildSysv(symbols, n, k - 1);
      var b := SysvBucketOf(symbols, n, k - 1);
      SysvTable(t.buckets[b := k - 1], t.chains[k - 1 := t.buckets[b]])
  }

  /** The index of a symbol bounds the chain behind it. */
  function Depths(symbols: seq<Symbol>): seq<nat> {
    seq(|symbols|, i requires 0 <= i < |symbols| => i)
  }

  predicate Downward(t: SysvTable, k: nat) {
    && (forall b :: 0 <= b < |t.buckets| ==> t.buckets[b] == 0 || t.buckets[b] < k)
    && (forall i :: 0 <= i < |t.chains| ==> t.chains[i] == 0 || t.chains[i] < i)
  }

  lemma {:induction false} BuiltDownward(symbols: seq<Symbol>, n: nat, k: nat)
    requires n > 0 && k <= |symbols|
    ensures Downward(BuildSysv(symbols, n, k), k)
  {
    hide SysvHash, Index;
    if k > 1 {
      BuiltDownward(symbols, n, k - 1);
    }
  }

  lemma DownwardDescends(symbols: seq<Symbol>, t: SysvTable, k: nat)
    requires Downward(t, k) && |t.chains| == |symbols|
    ensures Descends(t, Depths(symbols))
  {
  }

  /** What is reached from a symbol is a matter of the chains up to it. */
  lemma {:induction false} ReachesFrame(t: SysvTable, t': SysvTable, depth: seq<nat>, i: nat, j: nat)
    requires Descends(t, depth) && Descends(t', depth) && i < |t.chains| == |t'.chains|
    requires forall m :: 0 < m < |t.chains| ==> depth[m] == m
    requires forall m :: 0 <= m <= i ==> t.chains[m] == t'.chains[m]
    requires Reaches(t, depth, i, j)
    ensures Reaches(t', depth, i, j)
    decreases if i == 0 then 0 else 1 + depth[i]
  {
    if i != j {
      assert t.chains[i] != 0 ==> t.chains[i] < i;
      ReachesFrame(t, t', depth, t.chains[i], j);
    }
  }

  ghost predicate Entered(symbols: seq<Symbol>, n: nat, k: nat, i: nat)
    requires n > 0 && 0 < i < k <= |symbols|
  {
    var t := BuildSysv(symbols, n, k);
    var first := t.buckets[SysvBucketOf(symbols, n, i)];
    Descends(t, Depths(symbols)) && first < |symbols| && Reaches(t, Depths(symbols), first, i)
  }

  lemma {:induction false} BuiltReaches(symbols: seq<Symbol>, n: nat, k: nat, i: nat)
    requires n > 0 && 0 < i < k <= |symbols|
    ensures Entered(symbols, n, k, i)
    decreases k
  {
    hide SysvBucketOf, Descends, Depths;
    var t, before, depth := BuildSysv(symbols, n, k), BuildSysv(symbols, n, k - 1), Depths(symbols);
    BuiltDownward(symbols, n, k);
    BuiltDownward(symbols, n, k - 1);
    DownwardDescends(symbols, t, k);
    DownwardDescends(symbols, before, k - 1);
    if i < k - 1 {
      BuiltReaches(symbols, n, k - 1, i);
      var first := before.buckets[SysvBucketOf(symbols, n, i)];
      assert first < k - 1;
      assert forall m :: 0 < m < |t.chains| ==> depth[m] == m by { DepthIs(symbols); }
      ReachesFrame(before, t, depth, first, i);
    }
  }

  lemma DepthIs(symbols: seq<Symbol>)
    ensures |Depths(symbols)| == |symbols| && forall m :: 0 <= m < |symbols| ==> Depths(symbols)[m] == m
  {
  }

  /** Over any symbols, for any number of buckets. */
  lemma BuiltSysvIsWellFormed(symbols: seq<Symbol>, n: nat)
    requires n > 0 && symbols != []
    ensures SysvWellFormed(BuildSysv(symbols, n, |symbols|), Depths(symbols), symbols)
  {
    hide SysvHash, Depths, Descends, Reaches, Index;
    var t, depth := BuildSysv(symbols, n, |symbols|), Depths(symbols);
    BuiltDownward(symbols, n, |symbols|);
    DownwardDescends(symbols, t, |symbols|);
    forall i | 0 < i < |symbols|
      ensures Reaches(t, depth, SysvBucket(t, symbols[i].name), i)
    {
      BuiltReaches(symbols, n, |symbols|, i);
    }
  }
}
