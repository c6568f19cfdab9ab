/** Looking a symbol up by hash finds what a plain scan of the symbol table finds. */
module SymbolLookup {
  import opened Options
  import opened SymbolTables

  // ---------- by GNU hash ----------

  /** The filter never rejects the name of a symbol. */
  lemma BloomNeverRejects(t: GnuTable, symbols: seq<Symbol>, name: Name)
    requires WellFormed(t, symbols)
    ensures Scan(symbols, name, t.symoffset).Some? ==> Passes(t, GnuHash(name))
  {
    hide Passes, SameHash, GnuHash, OnChain;
    ScanIsFirst(symbols, name, t.symoffset);
    var r := Scan(symbols, name, t.symoffset);
    assert r.Some? ==> Filed(t, symbols, r.value);
  }

  /** Without a chain for its bucket, a name is not in the table. */
  lemma NoChainNoName(t: GnuTable, symbols: seq<Symbol>, name: Name)
    requires WellFormed(t, symbols) && t.buckets[Index(GnuHash(name), |t.buckets|)] < t.symoffset
    ensures Scan(symbols, name, t.symoffset).None?
  {
    hide Passes, SameHash, GnuHash, OnChain;
    ScanIsFirst(symbols, name, t.symoffset);
    var r := Scan(symbols, name, t.symoffset);
    assert r.Some? ==> Filed(t, symbols, r.value);
  }

  /** No symbol of the name lies before its bucket's chain. */
  lemma NoneBeforeChain(t: GnuTable, symbols: seq<Symbol>, name: Name, k: nat)
    requires WellFormed(t, symbols) && t.symoffset <= k < |symbols| && k < t.buckets[Index(GnuHash(name), |t.buckets|)]
    ensures symbols[k].name != name
  {
    hide Passes, SameHash, GnuHash, OnChain;
    assert Filed(t, symbols, k);
  }

  /** No symbol of the name lies behind the end of its bucket's chain. */
  lemma NoneAfterEnd(t: GnuTable, symbols: seq<Symbol>, name: Name, end: nat, k: nat)
    requires WellFormed(t, symbols)
    requires var from := t.buckets[Index(GnuHash(name), |t.buckets|)];
             t.symoffset <= from <= end < k < |symbols| && Ends(ChainOf(t, end))
    ensures symbols[k].name != name
  {
    hide Passes, SameHash, GnuHash, Ends;
    assert Filed(t, symbols, k);
    assert OnChain(t, t.buckets[Index(GnuHash(symbols[k].name), |t.buckets|)], k);
  }

  lemma FiledHash(t: GnuTable, symbols: seq<Symbol>, i: nat)
    requires WellFormed(t, symbols) && t.symoffset <= i < |symbols|
    ensures SameHash(GnuHash(symbols[i].name), ChainOf(t, i))
  {
    hide Passes, SameHash, GnuHash, OnChain;
    assert Filed(t, symbols, i);
  }

  /** Finds the first symbol of the name at or after the offset, exactly as a scan does. */
  method FindByGnuHash(t: GnuTable, symbols: seq<Symbol>, name: Name) returns (r: Option<nat>)
    requires WellFormed(t, symbols)
    ensures r == Scan(symbols, name, t.symoffset)
  {
    hide GnuHash, SameHash, Filed, Mask;
    var hash := ComputeGnuHash(name);
    BloomNeverRejects(t, symbols, name);
    var word := t.bloom[BloomIndex(hash, |t.bloom|)];
    var mask := Mask(hash, t.shift);
    if word & mask != mask { return None; }
    var i := t.buckets[Index(hash, |t.buckets|)];
    if i < t.symoffset {
      NoChainNoName(t, symbols, name);
      return None;
    }
    r := WalkChain(t, symbols, name, hash, i);
  }

  /** Follows the chain from its first symbol to its end. */
  method WalkChain(t: GnuTable, symbols: seq<Symbol>, name: Name, hash: bv32, from: nat) returns (r: Option<nat>)
    requires WellFormed(t, symbols) && hash == GnuHash(name)
    requires from == t.buckets[Index(hash, |t.buckets|)] >= t.symoffset
    ensures r == Scan(symbols, name, t.symoffset)
  {
    hide GnuHash, SameHash, Filed, Passes, Scan;
    ScanIsFirst(symbols, name, t.symoffset);
    var i := from;
    while true
      invariant from <= i < |symbols|
      invariant forall k :: from <= k < i ==> symbols[k].name != name
      decreases |symbols| - i
    {
      var chain := ChainOf(t, i);
      FiledHash(t, symbols, i);
      if SameHash(hash, chain) && symbols[i].name == name {
        FoundFirst(t, symbols, name, from, i);
        return Some(i);
      }
      if Ends(chain) {
        FoundNone(t, symbols, name, from, i);
        return None;
      }
      i := i + 1;
    }
  }

  lemma FoundFirst(t: GnuTable, symbols: seq<Symbol>, name: Name, from: nat, i: nat)
    requires WellFormed(t, symbols) && from == t.buckets[Index(GnuHash(name), |t.buckets|)] >= t.symoffset
    requires from <= i < |symbols| && symbols[i].name == name
    requires forall k :: from <= k < i ==> symbols[k].name != name
    ensures Scan(symbols, name, t.symoffset) == Some(i)
  {
    hide GnuHash, SameHash, Filed, Passes, Scan;
    ScanIsFirst(symbols, name, t.symoffset);
    forall k | t.symoffset <= k < i ensures symbols[k].name != name {
      if k < from { NoneBeforeChain(t, symbols, name, k); }
    }
  }

  lemma FoundNone(t: GnuTable, symbols: seq<Symbol>, name: Name, from: nat, end: nat)
    requires WellFormed(t, symbols) && from == t.buckets[Index(GnuHash(name), |t.buckets|)] >= t.symoffset
    requires from <= end < |symbols| && Ends(ChainOf(t, end))
    requires forall k :: from <= k <= end ==> symbols[k].name != name
    ensures Scan(symbols, name, t.symoffset).None?
  {
    hide GnuHash, SameHash, Filed, Passes, Scan, Ends;
    ScanIsFirst(symbols, name, t.symoffset);
    forall k | t.symoffset <= k < |symbols| ensures symbols[k].name != name {
      if k < from { NoneBeforeChain(t, symbols, name, k); }
      else if k > end { NoneAfterEnd(t, symbols, name, end, k); }
    }
  }

  // ---------- by SysV hash ----------

  /** The first symbol of the name on a chain. */
  function Follow(t: SysvTable, depth: seq<nat>, symbols: seq<Symbol>, name: Name, i: nat): (r: Option<nat>)
    requires SysvWellFormed(t, depth, symbols) && i < |symbols|
    decreases if i == 0 then 0 else 1 + depth[i]
  {
    if i == 0 then None
    else if symbols[i].name == name then Some(i)
    else Follow(t, depth, symbols, name, t.chains[i])
  }

  lemma {:induction false} FollowFinds(t: SysvTable, depth: seq<nat>, symbols: seq<Symbol>, name: Name, i: nat, j: nat)
    requires SysvWellFormed(t, depth, symbols) && i < |symbols|
    ensures var r := Follow(t, depth, symbols, name, i);
            && (r.Some? ==> 0 < r.value < |symbols| && symbols[r.value].name == name)
            && (Reaches(t, depth, i, j) && j < |symbols| && symbols[j].name == name ==> r.Some?)
    decreases if i == 0 then 0 else 1 + depth[i]
  {
    hide SysvHash;
    if i != 0 {
      FollowFinds(t, depth, symbols, name, t.chains[i], j);
    }
  }

  /** Succeeds, with a symbol of that name, exactly when some symbol but the first has it. */
  method FindBySysvHash(t: SysvTable, ghost depth: seq<nat>, symbols: seq<Symbol>, name: Name) returns (r: Option<nat>)
    requires SysvWellFormed(t, depth, symbols)
    ensures r == Follow(t, depth, symbols, name, SysvBucket(t, name))
    ensures r.Some? <==> exists k :: 0 < k < |symbols| && symbols[k].name == name
    ensures r.Some? ==> 0 < r.value < |symbols| && symbols[r.value].name == name
  {
    hide SysvHash;
    var hash := ComputeSysvHash(name);
    var i := t.buckets[Index(hash, |t.buckets|)];
    ghost var first := i;
    SysvFinds(t, depth, symbols, name);
    while i != 0
      invariant 0 <= i < |symbols|
      invariant Follow(t, depth, symbols, name, first) == Follow(t, depth, symbols, name, i)
      decreases if i == 0 then 0 else 1 + depth[i]
    {
      if symbols[i].name == name { return Some(i); }
      i := t.chains[i];
    }
    return None;
  }

  lemma SysvFinds(t: SysvTable, depth: seq<nat>, symbols: seq<Symbol>, name: Name)
    requires SysvWellFormed(t, depth, symbols)
    ensures var r := Follow(t, depth, symbols, name, SysvBucket(t, name));
            && (r.Some? <==> exists k :: 0 < k < |symbols| && symbols[k].name == name)
            && (r.Some? ==> 0 < r.value < |symbols| && symbols[r.value].name == name)
  {
    hide SysvHash;
    FollowFinds(t, depth, symbols, name, SysvBucket(t, name), 0);
    if k :| 0 < k < |symbols| && symbols[k].name == name {
      assert Reaches(t, depth, SysvBucket(t, symbols[k].name), k);
      FollowFinds(t, depth, symbols, name, SysvBucket(t, name), k);
    }
  }

  /** A name that the GNU table has, the SysV table has as well. */
  lemma TablesAgree(g: GnuTable, t: SysvTable, depth: seq<nat>, symbols: seq<Symbol>, name: Name)
    requires WellFormed(g, symbols) && g.symoffset > 0 && SysvWellFormed(t, depth, symbols)
    requires Scan(symbols, name, g.symoffset).Some?
    ensures var r := Follow(t, depth, symbols, name, SysvBucket(t, name));
            r.Some? && 0 < r.value < |symbols| && symbols[r.value].name == name
  {
    hide SysvHash, WellFormed, SysvWellFormed;
    ScanIsFirst(symbols, name, g.symoffset);
    SysvFinds(t, depth, symbols, name);
  }

  // ---------- xdl_sym ----------

  /** What the dynamic segment of a library describes; `depth` only witnesses that the SysV chains come to an end. */
  datatype Dynamic = Dynamic(segment: bool, symtab: Option<seq<Symbol>>, strtab: bool,
                             gnu: Option<GnuTable>, sysv: Option<SysvTable>, depth: seq<nat>)

  predicate HasGnu(d: Dynamic) {
    d.gnu.Some? && |d.gnu.value.buckets| > 0
  }

  predicate HasSysv(d: Dynamic) {
    d.sysv.Some? && |d.sysv.value.buckets| > 0
  }

  predicate Loads(d: Dynamic) {
    d.segment && d.symtab.Some? && d.strtab && (HasGnu(d) || HasSysv(d))
  }

  predicate Sane(d: Dynamic) {
    Loads(d) ==>
      && (HasGnu(d) ==> WellFormed(d.gnu.value, d.symtab.value) && d.gnu.value.symoffset > 0)
      && (HasSysv(d) ==> SysvWellFormed(d.sysv.value, d.depth, d.symtab.value))
  }

  function Found(d: Dynamic, name: Name): (r: Option<nat>)
    requires Loads(d) && Sane(d)
    ensures r.Some? ==> 0 < r.value < |d.symtab.value| && d.symtab.value[r.value].name == name
  {
    var symbols := d.symtab.value;
    var g := if HasGnu(d) then Scan(symbols, name, d.gnu.value.symoffset) else None;
    var r := if g.None? && HasSysv(d) then Follow(d.sysv.value, d.depth, symbols, name, SysvBucket(d.sysv.value, name))
             else g;
    assert r.Some? ==> 0 < r.value < |symbols| && symbols[r.value].name == name by {
      if HasGnu(d) { ScanIsFirst(symbols, name, d.gnu.value.symoffset); }
      if HasSysv(d) { SysvFinds(d.sysv.value, d.depth, symbols, name); }
    }
    r
  }

  predicate Exported(symbol: Symbol) {
    symbol.section != SHN_UNDEF
  }

  /** The symbol that the lookup gives for a name, if any. */
  function Resolved(d: Dynamic, name: Name): Option<Symbol>
    requires Sane(d)
  {
    if !Loads(d) then None
    else
      var i := Found(d, name);
      if i.Some? && Exported(d.symtab.value[i.value]) then Some(d.symtab.value[i.value]) else None
  }

  predicate Defines(symbols: seq<Symbol>, name: Name) {
    exists k :: 0 < k < |symbols| && symbols[k].name == name && Exported(symbols[k])
  }

  /** The GNU table covers exactly the exported symbols. */
  predicate CoversExports(d: Dynamic)
    requires Loads(d)
  {
    HasGnu(d) && forall k :: 0 < k < |d.symtab.value| ==> (Exported(d.symtab.value[k]) <==> k >= d.gnu.value.symoffset)
  }

  /** No two symbols have the same name. */
  predicate UniqueNames(symbols: seq<Symbol>) {
    forall i, j :: 0 < i < j < |symbols| ==> symbols[i].name != symbols[j].name
  }

  /** With a GNU table of the exported symbols, or with unique names, a name resolves exactly when some exported symbol
      has it, and to a symbol of that name. */
  lemma ResolvesExports(d: Dynamic, name: Name)
    requires Sane(d) && Loads(d) && (CoversExports(d) || UniqueNames(d.symtab.value))
    requires HasGnu(d) && !HasSysv(d) ==> CoversExports(d)
    ensures Resolved(d, name).Some? <==> Defines(d.symtab.value, name)
    ensures Resolved(d, name).Some? ==> Resolved(d, name).value in d.symtab.value && Resolved(d, name).value.name == name
  {
    hide WellFormed, SysvWellFormed, Follow, Scan, SysvHash;
    var symbols := d.symtab.value;
    if HasGnu(d) { ScanIsFirst(symbols, name, d.gnu.value.symoffset); }
    if HasSysv(d) { SysvFinds(d.sysv.value, d.depth, symbols, name); }
  }

  /** The symbol k has the name, and no symbol from the offset on and before k has it. */
  predicate FirstNamed(symbols: seq<Symbol>, name: Name, offset: nat, k: int) {
    && offset <= k < |symbols| && symbols[k].name == name
    && forall j :: offset <= j < k ==> symbols[j].name != name
  }

  /** The symbol of an entry whose section is not the undefined one. */
  function Usable(symbol: Symbol): Option<Symbol> {
    if symbol.section == 0 then None else Some(symbol)
  }

  /** Nothing is found without the tables; the first symbol of the name that a GNU table with buckets holds decides, and
      otherwise some symbol of the name, if a SysV table has buckets. */
  lemma ResolvedIs(d: Dynamic, name: Name)
    requires Sane(d)
    ensures var r, gnu, sysv := Resolved(d, name), d.gnu.Some? && d.gnu.value.buckets != [],
                                d.sysv.Some? && d.sysv.value.buckets != [];
      if !d.segment || d.symtab.None? || !d.strtab || (!gnu && !sysv) then r == None
      else
        var symbols := d.symtab.value;
        if gnu && exists k :: FirstNamed(symbols, name, d.gnu.value.symoffset, k) then
          forall k :: FirstNamed(symbols, name, d.gnu.value.symoffset, k) ==> r == Usable(symbols[k])
        else if sysv && exists k :: FirstNamed(symbols, name, 1, k) then
          exists k :: 0 < k < |symbols| && symbols[k].name == name && r == Usable(symbols[k])
        else r == None
  {
    hide WellFormed, SysvWellFormed, Follow, Scan, SysvHash;
    if Loads(d) {
      var symbols := d.symtab.value;
      if HasGnu(d) {
        ScanIsFirst(symbols, name, d.gnu.value.symoffset);
        NamedHasFirst(symbols, name, d.gnu.value.symoffset);
      }
      if HasSysv(d) {
        SysvFinds(d.sysv.value, d.depth, symbols, name);
        NamedHasFirst(symbols, name, 1);
      }
    }
  }

  lemma {:induction false} NamedHasFirst(symbols: seq<Symbol>, name: Name, offset: nat)
    ensures (exists k :: offset <= k < |symbols| && symbols[k].name == name)
      <==> (exists k :: FirstNamed(symbols, name, offset, k))
    decreases |symbols| - offset
  {
    if offset < |symbols| {
      if symbols[offset].name == name {
        assert FirstNamed(symbols, name, offset, offset);
      } else {
        var next := offset + 1;
        NamedHasFirst(symbols, name, next);
        if k :| FirstNamed(symbols, name, next, k) { assert FirstNamed(symbols, name, offset, k); }
      }
    }
  }

  /** An opened library: the symbol tables are read once, when a symbol is first asked for. */
  class Handle {
    const dynamic: Dynamic
    const loadBias: int
    var dynsymTryLoad: bool
    var dynsym: Option<seq<Symbol>>
    var gnu: Option<GnuTable>
    var sysv: Option<SysvTable>

    ghost predicate Valid()
      reads this
    {
      Sane(dynamic) &&
      if dynsymTryLoad && Loads(dynamic)
      then dynsym == dynamic.symtab && gnu == dynamic.gnu && sysv == dynamic.sysv
      else dynsym == None
    }

    constructor (d: Dynamic, bias: int)
      requires Sane(d)
      ensures Valid() && dynamic == d && loadBias == bias && !dynsymTryLoad
    {
      dynamic, loadBias := d, bias;
      dynsymTryLoad, dynsym, gnu, sysv := false, None, None, None;
    }

    method Load() returns (ok: bool)
      modifies `dynsym, `gnu, `sysv
      ensures ok <==> Loads(dynamic)
      ensures if ok then dynsym == dynamic.symtab && gnu == dynamic.gnu && sysv == dynamic.sysv
              else dynsym == None || dynsym == old(dynsym)
    {
      if !dynamic.segment { return false; }
      dynsym, gnu, sysv := dynamic.symtab, dynamic.gnu, dynamic.sysv;
      if dynsym.None? || !dynamic.strtab || !(HasGnu(dynamic) || HasSysv(dynamic)) {
        dynsym, gnu, sysv := None, None, None;
        return false;
      }
      return true;
    }

    method Find(name: Name) returns (r: Option<nat>)
      requires Valid() && dynsymTryLoad && Loads(dynamic)
      ensures r == Found(dynamic, name)
    {
      hide WellFormed, Scan, SysvHash, Follow;
      r := None;
      if HasGnu(dynamic) { r := FindByGnuHash(gnu.value, dynsym.value, name); }
      if r.None? && HasSysv(dynamic) { r := FindBySysvHash(sysv.value, dynamic.depth, dynsym.value, name); }
    }

    /** The address and the size of an exported symbol. */
    method Sym(name: Name) returns (r: Option<(int, int)>)
      requires Valid()
      modifies this
      ensures Valid() && dynsymTryLoad
      ensures var s := Resolved(dynamic, name);
              r == if s.Some? then Some((loadBias + s.value.value, s.value.size)) else None
    {
      hide Found, SysvWellFormed, WellFormed;
      if !dynsymTryLoad {
        dynsymTryLoad := true;
        var ok := Load();
        if !ok { return None; }
      }
      if dynsym.None? { return None; }
      var i := Find(name);
      if i.None? || !Exported(dynsym.value[i.value]) { return None; }
      var symbol := dynsym.value[i.value];
      return Some((loadBias + symbol.value, symbol.size));
    }
  }
}
