/** The relocator itself: it walks over the instructions of a window and writes their relocated copies into an
    array, with the fix map that back-patches forward references. */
module InlineHook {
  import opened Words
  import opened A64
  import opened Options
  import opened Relocation
  import opened RelocationLayout
  import opened RelocationInvariant

  /** Where each instruction went, and the references that wait for it. */
  class Context {
    const win: Window
    const ins: array<int>
    const fmap: array2<Option<Fix>>

    ghost predicate Valid()
      reads this
    {
      ins.Length == MAX_INSTRUCTIONS && fmap.Length0 == MAX_INSTRUCTIONS && fmap.Length1 == MAX_REFERENCES
    }

    /** The table holds the entries and the recorded references of `t`; rows are filled from the front. */
    ghost predicate Holds(t: Trail)
      reads this, ins, fmap
    {
      && Valid() && WellFormed(win, t) && |win.code| <= MAX_INSTRUCTIONS
      && (forall j :: 0 <= j < |t.entry| ==> ins[j] == OutputAddress(win, t.entry[j]))
      && (forall j :: 0 <= j < MAX_INSTRUCTIONS ==> |t.fixes[j]| <= MAX_REFERENCES)
      && (forall j, q :: 0 <= j < MAX_INSTRUCTIONS && 0 <= q < MAX_REFERENCES ==>
            fmap[j, q] == if q < |t.fixes[j]| then Some(t.fixes[j][q]) else None)
    }

    constructor (win: Window)
      requires |win.code| <= MAX_INSTRUCTIONS
      ensures this.win == win && Holds(Origin()) && fresh(ins) && fresh(fmap)
    {
      this.win := win;
      ins := new int[MAX_INSTRUCTIONS](_ => 0);
      fmap := new Option<Fix>[MAX_INSTRUCTIONS, MAX_REFERENCES]((_, _) => None);
    }

    /** Records a reference in the first free place of the row; a full row stays as it is. */
    method InsertFixMap(idx: nat, bp: nat, ls: nat, ad: Word, ghost fixes: seq<seq<Fix>>)
      requires Valid() && idx < MAX_INSTRUCTIONS && |fixes| == MAX_INSTRUCTIONS
      requires Matches(fixes)
      modifies fmap
      ensures |fixes[idx]| < MAX_REFERENCES ==> Matches(fixes[idx := fixes[idx] + [Fix(bp, ls, ad)]])
      ensures |fixes[idx]| == MAX_REFERENCES ==> Matches(fixes)
    {
      ghost var row := fixes[idx];
      for q := 0 to MAX_REFERENCES
        invariant q <= |row| && Matches(fixes)
      {
        if fmap[idx, q].None? {
          fmap[idx, q] := Some(Fix(bp, ls, ad));
          return;
        }
      }
    }

    ghost predicate Matches(fixes: seq<seq<Fix>>)
      requires Valid()
      reads this, fmap
    {
      && |fixes| == MAX_INSTRUCTIONS
      && (forall j :: 0 <= j < MAX_INSTRUCTIONS ==> |fixes[j]| <= MAX_REFERENCES)
      && (forall j, q :: 0 <= j < MAX_INSTRUCTIONS && 0 <= q < MAX_REFERENCES ==>
            fmap[j, q] == if q < |fixes[j]| then Some(fixes[j][q]) else None)
    }

    /** Patches every recorded reference to instruction `idx` and empties its row. */
    method ProcessFixMap(idx: nat, out: array<Word>, o: nat, ghost entry: nat, ghost fixes: seq<seq<Fix>>)
      requires Valid() && idx < MAX_INSTRUCTIONS && Matches(fixes) && o <= out.Length
      requires ins[idx] == OutputAddress(win, entry)
      requires forall q :: 0 <= q < |fixes[idx]| ==> fixes[idx][q].at < o
      modifies fmap, out
      ensures Matches(fixes[idx := []])
      ensures out[..o] == Patch(old(out[..o]), fixes[idx], entry)
      ensures out[o..] == old(out[o..])
    {
      hide OffsetField, Or, AsInt32, Low32, Asr;
      ghost var row := fixes[idx];
      ghost var was, rest := out[..o], out[o..];
      var q := 0;
      while q < MAX_REFERENCES && fmap[idx, q].Some?
        invariant 0 <= q <= |row|
        invariant Patch(out[..o], row[q..], entry) == Patch(was, row, entry)
        invariant out[o..] == rest
        invariant forall j, k :: 0 <= j < MAX_INSTRUCTIONS && 0 <= k < MAX_REFERENCES ==>
            fmap[j, k] == if k < |fixes[j]| && !(j == idx && k < q) then Some(fixes[j][k]) else None
      {
        var f := fmap[idx, q].value;
        assert row[q..][0] == f && row[q..][1..] == row[q + 1..];
        ghost var now := out[..o];
        var bp := f.at;
        assert f == row[q] && ins[idx] - OutputAddress(win, bp) == 4 * (entry - bp);
        out[bp] := Or(out[bp], OffsetField(Asr(AsInt32(Low32(ins[idx] - OutputAddress(win, bp))), 4), f.ls, f.ad));
        assert out[..o] == PatchOne(now, f, entry);
        fmap[idx, q] := None;
        q := q + 1;
      }
      assert row[q..] == [];
    }
  }

  /** The array and the tables are where the trail is. */
  ghost predicate Progress(ctx: Context, out: array<Word>, o: nat, t: Trail)
    reads ctx, ctx.ins, ctx.fmap, out
  {
    ctx.Holds(t) && o == |t.out| <= out.Length && out[..o] == t.out
  }

  /** Ready for the next instruction, with room for the longest emission. */
  ghost predicate Next(ctx: Context, out: array<Word>, o: nat, t: Trail)
    reads ctx, ctx.ins, ctx.fmap, out
  {
    && Progress(ctx, out, o, t) && Placed(ctx.win) && Laid(ctx.win, t, |t.entry|)
    && |t.entry| < |ctx.win.code| && o + 9 <= out.Length
  }

  /** The emission `e` of the instruction after `t` is written, and its entry and reference are recorded. */
  ghost predicate Written(ctx: Context, out: array<Word>, o: nat, t: Trail, e: Emission)
    reads ctx, ctx.ins, ctx.fmap, out
  {
    && ctx.Valid() && Placed(ctx.win) && Laid(ctx.win, t, |t.entry|) && WellFormed(ctx.win, t) && |t.entry| < |ctx.win.code|
    && ctx.Matches(InsertForward(t.fixes, |t.out| + e.pad, e.forward))
    && o <= out.Length && out[..o] == t.out + Nops(e.pad) + e.words
    && (forall j :: 0 <= j < |t.entry| ==> ctx.ins[j] == OutputAddress(ctx.win, t.entry[j]))
    && ctx.ins[|t.entry|] == OutputAddress(ctx.win, |t.out| + e.pad)
  }

  /** The end of every case: the references to the instruction just written are patched. */
  method Settle(ctx: Context, out: array<Word>, i: nat, o: nat, ghost t: Trail, ghost e: Emission)
    requires Written(ctx, out, o, t, e) && i == |t.entry| && e == Emit(ctx.win, i, |t.out|, t.entry)
    modifies ctx.fmap, out
    ensures Progress(ctx, out, o, Advance(ctx.win, t))
  {
    hide Emit, Patch, Laid, InsertForward;
    ghost var r := Extended(ctx.win, t);
    ExtendedLaid(ctx.win, t);
    LaidRows(ctx.win, r, i);
    ctx.ProcessFixMap(i, out, o, r.entry[i], r.fixes);
    assert Advance(ctx.win, t) == Settled(r, i);
    LaidRows(ctx.win, r, i);
  }

  lemma LaidRows(win: Window, t: Trail, k: nat)
    requires Laid(win, t, k) && k < MAX_INSTRUCTIONS
    ensures WellFormed(win, t) && forall q :: 0 <= q < |t.fixes[k]| ==> t.fixes[k][q].at < |t.out|
  {
    RowInBounds(win, t, k);
  }

  /** Writes words one after the other. */
  method Put(out: array<Word>, o: nat, ws: seq<Word>) returns (o': nat)
    requires o + |ws| <= out.Length
    modifies out
    ensures o' == o + |ws| && out[..o'] == old(out[..o]) + ws
  {
    ghost var was := out[..o];
    for k := 0 to |ws|
      invariant out[..o + k] == was + ws[..k]
    {
      out[o + k] := ws[k];
      assert ws[..k + 1] == ws[..k] + [ws[k]];
    }
    o' := o + |ws|;
    assert ws[..|ws|] == ws;
  }

  /** Writes an optional NOP, after which the instruction has its entry, and the words of a long form. */
  method PutAligned(ctx: Context, out: array<Word>, i: nat, o: nat, nop: bool, ws: seq<Word>, ghost t: Trail) returns (o': nat)
    requires Next(ctx, out, o, t) && i == |t.entry| && |ws| <= 6
    modifies ctx.ins, out
    ensures Written(ctx, out, o', t, Emission(if nop then 1 else 0, ws, None))
  {
    hide Laid;
    o' := o;
    if nop {
      o' := Put(out, o', [NOP]);
    }
    ctx.ins[i] := OutputAddress(ctx.win, o');
    assert Nops(if nop then 1 else 0) == if nop then [NOP] else [];
    assert t.out + [] == t.out;
    o' := Put(out, o', ws);
  }

  /** Writes the one word of a short form. */
  method PutShort(ctx: Context, out: array<Word>, i: nat, o: nat, w: Word, ghost t: Trail) returns (o': nat)
    requires Next(ctx, out, o, t) && i == |t.entry|
    modifies ctx.ins, out
    ensures Written(ctx, out, o', t, Emission(0, [w], None))
  {
    o' := PutAligned(ctx, out, i, o, false, [w], t);
  }

  /** No row is ever full: each of the earlier instructions has made one reference at most. */
  lemma RowHasRoom(win: Window, t: Trail, j: nat)
    requires Laid(win, t, |t.entry|) && |t.entry| < MAX_INSTRUCTIONS && j < MAX_INSTRUCTIONS
    ensures |t.fixes| == MAX_INSTRUCTIONS && |t.fixes[j]| < MAX_REFERENCES
  {
    hide BlockState;
  }

  /** Writes the word of a forward reference and records it. */
  method PutForward(ctx: Context, out: array<Word>, i: nat, o: nat, w: Word, f: Forward, ghost t: Trail) returns (o': nat)
    requires Next(ctx, out, o, t) && i == |t.entry| && f.index < |ctx.win.code|
    modifies ctx.ins, ctx.fmap, out
    ensures Written(ctx, out, o', t, Emission(0, [w], Some(f)))
  {
    hide Laid;
    RowHasRoom(ctx.win, t, f.index);
    ctx.InsertFixMap(f.index, o, f.ls, f.ad, t.fixes);
    ctx.ins[i] := OutputAddress(ctx.win, o);
    assert t.out + Nops(0) == t.out;
    o' := Put(out, o, [w]);
  }

  /** The offset from the instruction at `o` to an instruction already relocated, or to itself. */
  method Backward(ctx: Context, out: array<Word>, i: nat, o: nat, j: nat, ghost t: Trail) returns (offset: int)
    requires Next(ctx, out, o, t) && i == |t.entry| && j <= i
    ensures offset == InWindowOffset(ctx.win, i, o, t.entry, j)
  {
    offset := if j < i then Asr(ctx.ins[j] - OutputAddress(ctx.win, o), 4) else 0;
  }

  /** B and BL. */
  method FixBranchImm(ctx: Context, out: array<Word>, i: nat, o: nat, ghost t: Trail) returns (handled: bool, o': nat)
    requires Next(ctx, out, o, t) && i == |t.entry|
    modifies ctx.ins, ctx.fmap, out
    ensures handled == IsBranchImm(ctx.win.code[i])
    ensures !handled ==> o' == o && Next(ctx, out, o, t)
    ensures handled ==> Progress(ctx, out, o', Advance(ctx.win, t))
  {
    hide And, OrBits, Laid, Patch, Advance;
    var win := ctx.win;
    var opc := And(win.code[i], 0xfc00_0000);
    if opc != OP_B && opc != OP_BL {
      return false, o;
    }
    var target := BranchTarget(win, i);
    var offset := Asr(target - OutputAddress(win, o), 4);
    var special := InRange(win, target);
    ghost var e := EmitBranchImm(win, i, o, t.entry);
    if !special && Abs(offset) >= 0x01ff_ffff {
      var aligned := OutputAddress(win, o + 2) % 8 == 0;
      if opc == OP_B {
        o' := PutAligned(ctx, out, i, o, !aligned, [LDR_X17_8, BR_X17] + LiteralWords(target), t);
      } else {
        o' := PutAligned(ctx, out, i, o, aligned, [LDR_X17_12, ADR_X30_16, BR_X17] + LiteralWords(target), t);
      }
    } else if special && RefIndex(win, target) > i {
      o' := PutForward(ctx, out, i, o, Or(opc, And(Low32(0), 0x03ff_ffff)), Forward(RefIndex(win, target), 0, 0x03ff_ffff), t);
    } else {
      if special {
        offset := Backward(ctx, out, i, o, RefIndex(win, target), t);
      }
      o' := PutShort(ctx, out, i, o, Or(opc, And(Low32(offset), 0x03ff_ffff)), t);
    }
    Settle(ctx, out, i, o', t, e);
    handled := true;
  }

  /** B.cond, CBZ, CBNZ, TBZ and TBNZ. */
  method FixCondCompTestBranch(ctx: Context, out: array<Word>, i: nat, o: nat, ghost t: Trail) returns (handled: bool, o': nat)
    requires Next(ctx, out, o, t) && i == |t.entry| && !IsBranchImm(ctx.win.code[i])
    modifies ctx.ins, ctx.fmap, out
    ensures handled == CondMask(ctx.win.code[i]).Some?
    ensures !handled ==> o' == o && Next(ctx, out, o, t)
    ensures handled ==> Progress(ctx, out, o', Advance(ctx.win, t))
  {
    hide And, OrBits, Laid, Patch, Advance, CondMask, CondTarget, IsBranchImm;
    var win := ctx.win;
    var w := win.code[i];
    var mask := CondMask(w);
    if mask.None? {
      return false, o;
    }
    var lmask := mask.value;
    var field := 0xffff_ffff - lmask;
    var target := CondTarget(win, i, lmask);
    var offset := Asr(target - OutputAddress(win, o), 4);
    var special := InRange(win, target);
    ghost var e := EmitCondBranch(win, i, o, t.entry, lmask);
    if !special && Abs(offset) >= field / 64 {
      o' := PutAligned(ctx, out, i, o, OutputAddress(win, o + 4) % 8 != 0,
          [Or(And(64, field), And(w, lmask)), 0x1400_0005, LDR_X17_8, BR_X17] + LiteralWords(target), t);
    } else if special && RefIndex(win, target) > i {
      o' := PutForward(ctx, out, i, o, Or(And(Shl(0, 32), field), And(w, lmask)), Forward(RefIndex(win, target), 5, field), t);
    } else {
      if special {
        offset := Backward(ctx, out, i, o, RefIndex(win, target), t);
      }
      o' := PutShort(ctx, out, i, o, Or(And(Shl(offset, 32), field), And(w, lmask)), t);
    }
    Settle(ctx, out, i, o', t, e);
    handled := true;
  }

  lemma PadCount(a: int, size: nat, k: nat)
    requires size in {4, 8, 16} && a % 4 == 0 && k <= -a % size / 4
    ensures -a % size / 4 <= 3
    ensures (a + 4 * k) % size == 0 <==> k == -a % size / 4
  {
  }

  lemma PadOffset(offset: int, m: nat, k: nat)
    requires m in {1, 2, 4} && k <= offset % m
    ensures (offset - k) % m == 0 <==> k == offset % m
  {
    var r := offset % m - k;
    if m == 4 {
      assert offset - k == 4 * (offset / 4) + r;
    } else if m == 2 {
      assert offset - k == 2 * (offset / 2) + r;
    }
  }

  lemma NextOffset(target: int, a: int, k: nat)
    ensures Asr(target - (a + 4 * k), 4) == Asr(target - a, 4) - k
  {
  }

  /** Nops(k) grows at its end. */
  lemma OneMoreNop(ws: seq<Word>, k: nat)
    ensures ws + Nops(k) + [NOP] == ws + Nops(k + 1)
  {
    assert Nops(k) + [NOP] == Nops(k + 1);
  }

  /** PRFM of a literal is dropped; LDR and LDRSW carry a copy of the literal, or are moved to where it is
      aligned as it was. */
  method FixLoadLit(ctx: Context, out: array<Word>, i: nat, o: nat, ghost t: Trail) returns (handled: bool, o': nat)
    requires Next(ctx, out, o, t) && i == |t.entry| && !IsBranchImm(ctx.win.code[i]) && CondMask(ctx.win.code[i]).None?
    modifies ctx.ins, ctx.fmap, out
    ensures handled == (IsPrefetch(ctx.win.code[i]) || LoadClass(ctx.win.code[i]).Some?)
    ensures !handled ==> o' == o && Next(ctx, out, o, t)
    ensures handled ==> Progress(ctx, out, o', Advance(ctx.win, t))
  {
    hide And, OrBits, Laid, Patch, Advance, CondMask, IsBranchImm, LoadClass, IsPrefetch, EmitLoadLiteral;
    var win := ctx.win;
    var w := win.code[i];
    if IsPrefetch(w) {
      o' := PutAligned(ctx, out, i, o, false, [], t);
      Settle(ctx, out, i, o', t, Emission(0, [], None));
      return true, o';
    }
    var class_ := LoadClass(w);
    if class_.None? {
      return false, o;
    }
    o' := LoadLiteral(ctx, out, i, o, class_.value, t);
    Settle(ctx, out, i, o', t, EmitLoadLiteral(win, i, o, class_.value));
    handled := true;
  }

  /** NOPs up to the place where a literal behind two instructions is aligned. */
  method AlignCopy(ctx: Context, out: array<Word>, o: nat, size: nat, ghost t: Trail) returns (o': nat)
    requires Progress(ctx, out, o, t) && Placed(ctx.win) && o + 3 <= out.Length && size in {4, 8, 16}
    modifies out
    ensures o' == o + CopyPad(ctx.win, o, size) && out[..o'] == t.out + Nops(o' - o)
  {
    hide Laid;
    var win := ctx.win;
    ghost var pad := CopyPad(win, o, size);
    PadCount(OutputAddress(win, o + 2), size, 0);
    assert t.out + Nops(0) == t.out;
    o' := o;
    while OutputAddress(win, o' + 2) % size != 0
      invariant o <= o' <= o + pad && out[..o'] == t.out + Nops(o' - o)
      decreases o + pad - o'
    {
      PadCount(OutputAddress(win, o + 2), size, o' - o);
      OneMoreNop(t.out, o' - o);
      o' := Put(out, o', [NOP]);
    }
    PadCount(OutputAddress(win, o + 2), size, o' - o);
  }

  lemma ExcessLeft(win: Window, target: int, o: nat, m: nat, k: nat)
    requires m in {1, 2, 4} && k <= Excess(Asr(target - OutputAddress(win, o), 4), m)
    ensures Excess(Asr(target - OutputAddress(win, o + k), 4), m) == 0 <==> k == Excess(Asr(target - OutputAddress(win, o), 4), m)
  {
    NextOffset(target, OutputAddress(win, o), k);
    PadOffset(Asr(target - OutputAddress(win, o), 4), m, k);
  }

  /** NOPs up to the place where the literal is aligned relative to the instruction as its size needs. */
  method AlignMove(ctx: Context, out: array<Word>, o: nat, target: int, m: nat, ghost t: Trail) returns (o': nat)
    requires Progress(ctx, out, o, t) && o + 3 <= out.Length && m in {1, 2, 4}
    modifies out
    ensures o' == o + Excess(Asr(target - OutputAddress(ctx.win, o), 4), m) <= o + 3 && out[..o'] == t.out + Nops(o' - o)
  {
    hide Laid, Asr, Excess;
    var win := ctx.win;
    ghost var pad := Excess(Asr(target - OutputAddress(win, o), 4), m);
    assert t.out + Nops(0) == t.out;
    o' := o;
    ExcessLeft(win, target, o, m, 0);
    while Excess(Asr(target - OutputAddress(win, o'), 4), m) != 0
      invariant o <= o' <= o + pad && out[..o'] == t.out + Nops(o' - o)
      decreases o + pad - o'
    {
      ExcessLeft(win, target, o, m, o' - o);
      OneMoreNop(t.out, o' - o);
      o' := Put(out, o', [NOP]);
    }
    ExcessLeft(win, target, o, m, o' - o);
  }

  method CopyLiteral(ctx: Context, out: array<Word>, i: nat, o: nat, c: LiteralClass, ghost t: Trail) returns (o': nat)
    requires Next(ctx, out, o, t) && i == |t.entry| && c.size in {4, 8, 16} && CopiesLiteral(ctx.win, i, o, c.size)
    modifies ctx.ins, out
    ensures Written(ctx, out, o', t, EmitLoadLiteral(ctx.win, i, o, c))
  {
    hide And, OrBits, Laid, CopiesLiteral, LoadTarget, CopyPad;
    var w := ctx.win.code[i];
    o' := AlignCopy(ctx, out, o, c.size, t);
    ctx.ins[i] := OutputAddress(ctx.win, o');
    o' := Put(out, o', [Or(And(64, 0xffff_ffff - c.mask), And(w, 0xff00_001f)), 0x1400_0001 + c.size / 4]
                       + DataWords(ctx.win, LoadTarget(ctx.win, i), c.size / 4));
  }

  method MoveLiteral(ctx: Context, out: array<Word>, i: nat, o: nat, c: LiteralClass, ghost t: Trail) returns (o': nat)
    requires Next(ctx, out, o, t) && i == |t.entry| && c.size in {4, 8, 16} && !CopiesLiteral(ctx.win, i, o, c.size)
    modifies ctx.ins, out
    ensures Written(ctx, out, o', t, EmitLoadLiteral(ctx.win, i, o, c))
  {
    hide And, OrBits, Laid, CopiesLiteral, LoadTarget, Excess, Asr;
    var win, w := ctx.win, ctx.win.code[i];
    var target := LoadTarget(win, i);
    o' := AlignMove(ctx, out, o, target, c.size / 4, t);
    ctx.ins[i] := OutputAddress(win, o');
    NextOffset(target, OutputAddress(win, o), o' - o);
    var offset := Asr(target - OutputAddress(win, o'), 4);
    o' := Put(out, o', [Or(And(Shl(offset, 32), 0xffff_ffff - c.mask), And(w, 0xff00_001f))]);
  }

  method LoadLiteral(ctx: Context, out: array<Word>, i: nat, o: nat, c: LiteralClass, ghost t: Trail) returns (o': nat)
    requires Next(ctx, out, o, t) && i == |t.entry| && c.size in {4, 8, 16}
    modifies ctx.ins, out
    ensures Written(ctx, out, o', t, EmitLoadLiteral(ctx.win, i, o, c))
  {
    if CopiesLiteral(ctx.win, i, o, c.size) {
      o' := CopyLiteral(ctx, out, i, o, c, t);
    } else {
      o' := MoveLiteral(ctx, out, i, o, c, t);
    }
  }

  /** ADR and ADRP. */
  method FixPcRelAddr(ctx: Context, out: array<Word>, i: nat, o: nat, ghost t: Trail) returns (handled: bool, o': nat)
    requires Next(ctx, out, o, t) && i == |t.entry| && !IsBranchImm(ctx.win.code[i]) && CondMask(ctx.win.code[i]).None?
    requires !IsPrefetch(ctx.win.code[i]) && LoadClass(ctx.win.code[i]).None?
    modifies ctx.ins, ctx.fmap, out
    ensures handled == (IsAdrWord(ctx.win.code[i]) || IsAdrpWord(ctx.win.code[i]))
    ensures !handled ==> o' == o && Next(ctx, out, o, t)
    ensures handled ==> Progress(ctx, out, o', Advance(ctx.win, t))
  {
    hide And, OrBits, Laid, Patch, Advance, CondMask, IsBranchImm, LoadClass, IsPrefetch;
    hide IsAdrWord, IsAdrpWord, UnsignedAddressDisplacement;
    var win := ctx.win;
    var w := win.code[i];
    var pc := SourceAddress(win, i);
    ghost var e;
    if IsAdrWord(w) {
      var target := pc + UnsignedAddressDisplacement(w);
      var offset := target - OutputAddress(win, o);
      e := EmitAdr(win, i, o, t.entry);
      if !InRange(win, target) && Abs(offset) >= 0x000f_ffff {
        o' := PutAddress(ctx, out, i, o, target, t);
      } else if InRange(win, target) {
        if RefIndex(win, target) > i {
          o' := PutForward(ctx, out, i, o, And(w, 0xff00_001f), Forward(RefIndex(win, target), 5, 0x00ff_ffff), t);
        } else {
          o' := PutShort(ctx, out, i, o, And(w, 0xff00_001f), t);
        }
      } else {
        o' := PutShort(ctx, out, i, o, Or(And(Shl(offset, 8), 0x00ff_ffff), And(w, 0xff00_001f)), t);
      }
    } else if IsAdrpWord(w) {
      var target := pc - pc % 4096 + Shl(UnsignedAddressDisplacement(w), 4096);
      e := EmitAdrp(win, i, o);
      if InRange(win, target) {
        o' := PutShort(ctx, out, i, o, w, t);
      } else {
        o' := PutAddress(ctx, out, i, o, target, t);
      }
    } else {
      return false, o;
    }
    Settle(ctx, out, i, o', t, e);
    handled := true;
  }

  /** The long form of ADR and ADRP: a load of the address from behind a branch. */
  method PutAddress(ctx: Context, out: array<Word>, i: nat, o: nat, target: int, ghost t: Trail) returns (o': nat)
    requires Next(ctx, out, o, t) && i == |t.entry|
    modifies ctx.ins, out
    ensures Written(ctx, out, o', t, EmitAddressLiteral(ctx.win, i, o, target))
  {
    hide And, OrBits, Laid;
    var win := ctx.win;
    o' := PutAligned(ctx, out, i, o, OutputAddress(win, o + 2) % 8 != 0,
        [Or(Or(0x5800_0000, And(64, 0x60ff_ffff)), And(win.code[i], 0x1f)), 0x1400_0003] + LiteralWords(target), t);
  }

  /** One round of the driver: the first case that handles the instruction, or a plain copy. */
  method FixInstruction(ctx: Context, out: array<Word>, i: nat, o: nat, ghost t: Trail) returns (o': nat)
    requires Next(ctx, out, o, t) && i == |t.entry|
    modifies ctx.ins, ctx.fmap, out
    ensures Progress(ctx, out, o', Advance(ctx.win, t))
  {
    hide And, OrBits, Laid, Patch, Advance, CondMask, IsBranchImm, LoadClass, IsPrefetch, IsAdrWord, IsAdrpWord, Progress;
    var handled;
    handled, o' := FixBranchImm(ctx, out, i, o, t);
    if handled { return; }
    handled, o' := FixCondCompTestBranch(ctx, out, i, o, t);
    if handled { return; }
    handled, o' := FixLoadLit(ctx, out, i, o, t);
    if handled { return; }
    handled, o' := FixPcRelAddr(ctx, out, i, o, t);
    if handled { return; }
    o' := PutShort(ctx, out, i, o, ctx.win.code[i], t);
    Settle(ctx, out, i, o', t, Emission(0, [ctx.win.code[i]], None));
  }

  /** Relocates the whole window into a pool slot, and returns the number of words written. */
  method FixInstructions(win: Window, out: array<Word>) returns (total: nat)
    requires Placed(win) && out.Length >= MAX_INSTRUCTIONS * 10
    modifies out
    ensures total == |Relocated(win)| <= out.Length && out[..total] == Relocated(win)
  {
    hide And, OrBits, Laid, Advance;
    var ctx := new Context(win);
    var o := 0;
    for i := 0 to |win.code|
      invariant ctx.win == win && fresh(ctx.ins) && fresh(ctx.fmap)
      invariant Progress(ctx, out, o, Prefix(win, i))
    {
      PrefixLaid(win, i);
      LaidRoom(win, Prefix(win, i), i);
      o := FixInstruction(ctx, out, i, o, Prefix(win, i));
    }
    PrefixLaid(win, |win.code|);
    LaidRoom(win, Prefix(win, |win.code|), |win.code|);
    ghost var t := Prefix(win, |win.code|);
    var callback := SourceAddress(win, |win.code|);
    var offset := Asr(callback - OutputAddress(win, o), 4);
    assert t.out + Nops(0) == t.out && Nops(1) == [NOP];
    if Abs(offset) >= 0x01ff_ffff {
      if OutputAddress(win, o + 2) % 8 != 0 {
        o := Put(out, o, [NOP]);
      }
      o := Put(out, o, [LDR_X17_8, BR_X17] + LiteralWords(callback));
    } else {
      o := Put(out, o, [Or(OP_B, And(Low32(offset), 0x03ff_ffff))]);
    }
    total := o;
  }

  lemma LaidRoom(win: Window, t: Trail, k: nat)
    requires Laid(win, t, k)
    ensures |t.out| <= 9 * |t.entry|
  {
  }
}
