/** Relocating one more instruction keeps every block in order; at the end all of them are finished. */
module RelocationInvariant {
  import opened Words
  import opened A64
  import opened Options
  import opened Relocation
  import opened RelocationWords
  import C = RelocationClasses
  import opened RelocationLayout
  import opened RelocationEmission

  ghost predicate Same(a: seq<Word>, b: seq<Word>, s: nat, e: nat) {
    e <= |a| && e <= |b| && forall p :: s <= p < e ==> a[p] == b[p]
  }

  /** A block is a matter of its own words and of the entries it refers to. */
  lemma DoesFrame(win: Window, out: seq<Word>, out': seq<Word>, entry: seq<nat>, entry': seq<nat>, i: nat, n: nat, e: nat)
    requires i < |win.code| && n <= e && Same(out, out', n, e) && entry <= entry'
    requires Does(win, out, entry, i, n, e)
    ensures Does(win, out', entry', i, n, e)
  {
    hide Decode, And, OrBits;
    assert n + 4 <= e ==> out[n + 2..n + 4] == out'[n + 2..n + 4];
    assert n + 5 <= e ==> out[n + 3..n + 5] == out'[n + 3..n + 5];
    assert n + 6 <= e ==> out[n + 4..n + 6] == out'[n + 4..n + 6];
  }

  lemma BlockFrame(win: Window, out: seq<Word>, out': seq<Word>, entry: seq<nat>, entry': seq<nat>, i: nat, s: nat, n: nat, e: nat)
    requires i < |win.code| && Same(out, out', s, e) && entry <= entry'
    requires Block(win, out, entry, i, s, n, e)
    ensures Block(win, out', entry', i, s, n, e)
  {
    hide Does, Decode;
    DoesFrame(win, out, out', entry, entry', i, n, e);
  }

  // ---------- appending ----------

  /** The trail after the emission of instruction |t.entry|, before its references are patched. */
  function Extended(win: Window, t: Trail): (r: Trail)
    requires WellFormed(win, t) && |t.entry| < |win.code|
    ensures |r.entry| == |t.entry| + 1 && |r.start| == |t.start| + 1 && |r.fixes| == |t.fixes|
  {
    var i := |t.entry|;
    var e := Emit(win, i, |t.out|, t.entry);
    var n := |t.out| + e.pad;
    var out := t.out + Nops(e.pad) + e.words;
    Trail(out, t.start + [|out|], t.entry + [n], InsertForward(t.fixes, n, e.forward))
  }

  lemma ExtendedShape(win: Window, t: Trail)
    requires Laid(win, t, |t.entry|) && |t.entry| < |win.code|
    ensures var r := Extended(win, t); var i := |t.entry|; var e := Emit(win, i, |t.out|, t.entry);
      && Appended(r.out, |t.out|, e)
      && WellFormed(win, r) && Ordered(r.start) && r.start[0] == 0
      && |r.out| <= 9 * |r.entry|
      && Same(t.out, r.out, 0, |t.out|) && t.entry <= r.entry && t.start <= r.start
      && r.entry[i] == |t.out| + e.pad && r.start[i] == |t.out|
  {
    hide Emit, Rows, BlockState;
    EmissionSize(win, |t.entry|, |t.out|, t.entry);
    var r := Extended(win, t);
    var e := Emit(win, |t.entry|, |t.out|, t.entry);
    assert forall p :: 0 <= p < |e.words| ==> r.out[|t.out| + e.pad + p] == e.words[p];
  }

  lemma RecordedFrame(win: Window, t: Trail, r: Trail, j: nat, f: Fix)
    requires |t.entry| <= |r.entry| <= |win.code| && |t.start| == |t.entry| + 1 && |r.start| == |r.entry| + 1
    requires t.entry <= r.entry && t.start <= r.start && Recorded(win, t, j, f)
    ensures Recorded(win, r, j, f)
  {
    hide ForwardOf;
    var i :| 0 <= i < |t.entry| && RecordedBy(win, t, j, f, i);
    assert RecordedBy(win, r, j, f, i);
  }

  /** Every recorded reference lies in the output written so far. */
  lemma RecordedBefore(win: Window, t: Trail, j: nat, f: Fix)
    requires WellFormed(win, t) && Ordered(t.start) && Recorded(win, t, j, f)
    ensures f.at < |t.out|
  {
    hide ForwardOf;
    var i :| 0 <= i < |t.entry| && RecordedBy(win, t, j, f, i);
    assert t.start[i + 1] <= t.start[|t.entry|];
  }

  lemma ExtendedRows(win: Window, t: Trail)
    requires Placed(win) && Laid(win, t, |t.entry|) && |t.entry| < |win.code|
    ensures Rows(win, Extended(win, t), |t.entry|)
  {
    hide Emit, ForwardOf, BlockState, Recorded;
    var i := |t.entry|;
    var r := Extended(win, t);
    var fo := ForwardOf(win, i);
    ExtendedShape(win, t);
    EmissionForward(win, i, |t.out|, t.entry);
    forall j, q | 0 <= j < |t.fixes| && 0 <= q < |t.fixes[j]|
      ensures Recorded(win, r, j, t.fixes[j][q]) && t.fixes[j][q].at < |t.out|
    {
      RecordedFrame(win, t, r, j, t.fixes[j][q]);
      RecordedBefore(win, t, j, t.fixes[j][q]);
    }
    if fo.Some? {
      var f := Fix(r.entry[i], fo.value.ls, fo.value.ad);
      NewRecorded(win, t, f);
      assert r.fixes[fo.value.index] == t.fixes[fo.value.index] + [f];
    }
  }

  lemma NewRecorded(win: Window, t: Trail, f: Fix)
    requires Placed(win) && Laid(win, t, |t.entry|) && |t.entry| < |win.code| && ForwardOf(win, |t.entry|).Some?
    requires f == Fix(Extended(win, t).entry[|t.entry|], ForwardOf(win, |t.entry|).value.ls, ForwardOf(win, |t.entry|).value.ad)
    ensures Recorded(win, Extended(win, t), ForwardOf(win, |t.entry|).value.index, f)
  {
    hide Emit, ForwardOf, BlockState, Rows, Awaiting, Block;
    var i := |t.entry|;
    var r := Extended(win, t);
    ExtendedShape(win, t);
    EntriesBehind(win, t, i);
    Emitted(win, i, |t.out|, t.entry, r.out);
    AwaitingShape(win, r.out, i, r.start[i], r.entry[i], r.start[i + 1]);
    assert RecordedBy(win, r, ForwardOf(win, i).value.index, f, i);
  }

  lemma AwaitingShape(win: Window, out: seq<Word>, i: nat, s: nat, n: nat, e: nat)
    requires i < |win.code| && Awaiting(win, out, i, s, n, e)
    ensures s == n < e == n + 1 <= |out|
  {
  }

  lemma BlockShape(win: Window, t: Trail, i: nat, k: nat)
    requires i < |t.entry| <= |win.code| && |t.start| == |t.entry| + 1 && |t.fixes| == MAX_INSTRUCTIONS && |win.code| <= MAX_INSTRUCTIONS
    requires BlockState(win, t, i, k)
    ensures t.start[i] <= t.entry[i] <= t.start[i + 1] <= |t.out|
  {
    hide Does, ForwardOf;
  }

  lemma EntriesBehind(win: Window, t: Trail, i: nat)
    requires Placed(win) && Laid(win, t, |t.entry|) && i == |t.entry| < |win.code|
    ensures Fits(win, i, |t.out|, t.entry)
  {
    hide BlockState, Rows;
    forall j | 0 <= j < i
      ensures t.entry[j] <= |t.out|
    {
      BlockShape(win, t, j, i);
    }
  }

  lemma StateKept(win: Window, t: Trail, b: nat)
    requires Placed(win) && Laid(win, t, |t.entry|) && b < |t.entry| < |win.code|
    ensures BlockState(win, Extended(win, t), b, |t.entry|)
  {
    hide Emit, ForwardOf, Does, Rows;
    var r := Extended(win, t);
    ExtendedShape(win, t);
    BlockShape(win, t, b, |t.entry|);
    assert BlockState(win, t, b, |t.entry|);
    if AwaitsFrom(win, b, |t.entry|) {
      EmissionForward(win, |t.entry|, |t.out|, t.entry);
      FixKept(win, t, ForwardOf(win, b).value.index, Fix(t.entry[b], ForwardOf(win, b).value.ls, ForwardOf(win, b).value.ad));
    } else {
      BlockFrame(win, t.out, r.out, t.entry, r.entry, b, t.start[b], t.entry[b], t.start[b + 1]);
    }
  }

  lemma FixKept(win: Window, t: Trail, j: nat, f: Fix)
    requires WellFormed(win, t) && |t.entry| < |win.code| && j < |t.fixes| && f in t.fixes[j]
    ensures f in Extended(win, t).fixes[j]
  {
    hide Emit;
  }

  lemma NewState(win: Window, t: Trail)
    requires Placed(win) && Laid(win, t, |t.entry|) && |t.entry| < |win.code|
    ensures BlockState(win, Extended(win, t), |t.entry|, |t.entry|)
  {
    hide Emit, ForwardOf, Does, Awaiting;
    var i := |t.entry|;
    var r := Extended(win, t);
    ExtendedShape(win, t);
    EmissionForward(win, i, |t.out|, t.entry);
    EntriesBehind(win, t, i);
    Emitted(win, i, |t.out|, t.entry, r.out);
  }

  lemma ExtendedLaid(win: Window, t: Trail)
    requires Placed(win) && Laid(win, t, |t.entry|) && |t.entry| < |win.code|
    ensures Laid(win, Extended(win, t), |t.entry|)
  {
    hide Emit, BlockState, Rows;
    ExtendedShape(win, t);
    ExtendedRows(win, t);
    forall b | 0 <= b < |t.entry| + 1
      ensures BlockState(win, Extended(win, t), b, |t.entry|)
    {
      if b < |t.entry| {
        StateKept(win, t, b);
      } else {
        NewState(win, t);
      }
    }
  }

  // ---------- patching ----------

  function Delta(a: int, b: int): int {
    a - b
  }

  /** The word of a reference after it is patched for an instruction whose entry is n. */
  function PatchedWord(w: Word, f: Fix, n: nat): Word {
    Or(w, OffsetField(Asr(AsInt32(Low32(4 * (n - f.at))), 4), f.ls, f.ad))
  }

  /** Patching a row changes the words of its references, each once, and no other word. */
  lemma {:induction false} PatchEffect(out: seq<Word>, row: seq<Fix>, n: nat)
    requires forall q :: 0 <= q < |row| ==> row[q].at < |out|
    requires forall q, r :: 0 <= q < r < |row| ==> row[q].at != row[r].at
    ensures forall q :: 0 <= q < |row| ==> Patch(out, row, n)[row[q].at] == PatchedWord(out[row[q].at], row[q], n)
    ensures forall p :: 0 <= p < |out| && (forall q :: 0 <= q < |row| ==> row[q].at != p) ==> Patch(out, row, n)[p] == out[p]
    decreases |row|
  {
    hide OffsetField, Or, AsInt32, Low32, Asr;
    if row != [] {
      var next := PatchOne(out, row[0], n);
      var rest := row[1..];
      assert forall q :: 0 <= q < |rest| ==> rest[q] == row[q + 1];
      PatchEffect(next, rest, n);
      assert Patch(out, row, n) == Patch(next, rest, n);
      forall q | 0 <= q < |row|
        ensures Patch(out, row, n)[row[q].at] == PatchedWord(out[row[q].at], row[q], n)
      {
        if q > 0 {
          assert rest[q - 1] == row[q];
        } else {
          assert forall r :: 0 <= r < |rest| ==> rest[r].at != row[0].at;
        }
      }
    }
  }

  /** The trail after the references to instruction k are patched. */
  function Settled(t: Trail, k: nat): Trail
    requires k < |t.fixes| && k < |t.entry|
  {
    Trail(Patch(t.out, t.fixes[k], t.entry[k]), t.start, t.entry, t.fixes[k := []])
  }

  lemma RowInBounds(win: Window, t: Trail, k: nat)
    requires Laid(win, t, k) && k < |t.fixes|
    ensures forall q :: 0 <= q < |t.fixes[k]| ==> t.fixes[k][q].at < |t.out|
  {
    hide BlockState, Recorded;
    forall q | 0 <= q < |t.fixes[k]|
      ensures t.fixes[k][q].at < |t.out|
    {
      RecordedBefore(win, t, k, t.fixes[k][q]);
    }
  }

  /** A block that awaits nothing keeps its words when another instruction's references are patched. */
  lemma UntouchedBlock(win: Window, t: Trail, k: nat, b: nat)
    requires Laid(win, t, k) && k < |t.entry| && b < |t.entry|
    requires ForwardOf(win, b).None? || ForwardOf(win, b).value.index != k
    ensures Same(t.out, Settled(t, k).out, t.start[b], t.start[b + 1])
  {
    hide BlockState, ForwardOf, PatchedWord;
    RowInBounds(win, t, k);
    PatchEffect(t.out, t.fixes[k], t.entry[k]);
    BlockShape(win, t, b, k);
    var out := Settled(t, k).out;
    forall p | t.start[b] <= p < t.start[b + 1]
      ensures t.out[p] == out[p]
    {
      forall q | 0 <= q < |t.fixes[k]|
        ensures t.fixes[k][q].at != p
      {
        ElsewhereRecorded(win, t, k, b, t.fixes[k][q], p);
      }
    }
  }

  /** A reference recorded for instruction k is not in the block of an instruction that does not await k. */
  lemma ElsewhereRecorded(win: Window, t: Trail, k: nat, b: nat, f: Fix, p: nat)
    requires WellFormed(win, t) && Ordered(t.start) && Recorded(win, t, k, f) && b < |t.entry|
    requires ForwardOf(win, b).None? || ForwardOf(win, b).value.index != k
    requires t.start[b] <= p < t.start[b + 1]
    ensures f.at != p
  {
    hide ForwardOf;
    var i :| 0 <= i < |t.entry| && RecordedBy(win, t, k, f, i);
    if i < b {
      assert t.start[i + 1] <= t.start[b];
    } else {
      assert t.start[b + 1] <= t.start[i];
    }
  }

  lemma SmallOffset(n: nat, at: nat)
    requires n <= 45 && at <= 45
    ensures Asr(AsInt32(Low32(4 * (n - at))), 4) == n - at
  {
    ExactShift(n - at);
  }

  /** The block that awaited instruction k is finished by the patch. */
  lemma PatchedBlock(win: Window, t: Trail, k: nat, b: nat)
    requires Placed(win) && Laid(win, t, k) && k < |t.entry| && b < |t.entry|
    requires ForwardOf(win, b).Some? && ForwardOf(win, b).value.index == k
    ensures Block(win, Settled(t, k).out, t.entry, b, t.start[b], t.entry[b], t.start[b + 1])
  {
    hide Rows, PatchedWord, Emit, Decode, And, OrBits, Patch;
    var n, at := t.entry[k], t.entry[b];
    assert BlockState(win, t, b, k);
    var f := Fix(at, ForwardOf(win, b).value.ls, ForwardOf(win, b).value.ad);
    PatchedAt(win, t, k, f);
    BlockShape(win, t, k, k);
    BlockShape(win, t, b, k);
    var w := Settled(t, k).out[at];
    SmallOffset(n, at);
    WholeWord(win, t.out[at], w, f, n);
    PatchedDoes(win, t, k, b, w);
  }

  lemma WholeWord(win: Window, old_: Word, w: Word, f: Fix, n: nat)
    requires n <= 45 && f.at <= 45 && w == PatchedWord(old_, f, n)
    ensures w == Or(old_, OffsetField(n - f.at, f.ls, f.ad))
  {
    hide OffsetField;
    SmallOffset(n, f.at);
  }

  lemma PatchedAt(win: Window, t: Trail, k: nat, f: Fix)
    requires Laid(win, t, k) && k < |t.entry| && f in t.fixes[k]
    ensures f.at < |t.out| && Settled(t, k).out[f.at] == PatchedWord(t.out[f.at], f, t.entry[k])
  {
    hide BlockState, PatchedWord, Recorded;
    RowInBounds(win, t, k);
    PatchEffect(t.out, t.fixes[k], t.entry[k]);
    var q :| 0 <= q < |t.fixes[k]| && t.fixes[k][q] == f;
  }

  lemma PatchedDoes(win: Window, t: Trail, k: nat, b: nat, w: Word)
    requires Placed(win) && Laid(win, t, k) && k < |t.entry| && b < |t.entry|
    requires ForwardOf(win, b).Some? && ForwardOf(win, b).value.index == k
    requires BlockState(win, t, b, k) && t.entry[b] < |t.out|
    requires w == Settled(t, k).out[t.entry[b]]
    requires w == Or(t.out[t.entry[b]], OffsetField(Delta(t.entry[k], t.entry[b]), ForwardOf(win, b).value.ls, ForwardOf(win, b).value.ad))
    ensures Block(win, Settled(t, k).out, t.entry, b, t.start[b], t.entry[b], t.start[b + 1])
  {
    hide Rows, Decode, And, OrBits, Patch, OffsetField, Emit, BlockState, ForwardOf;
    BlockShape(win, t, k, k);
    BlockShape(win, t, b, k);
    AwaitsShape(win, t, k, b);
    FilledDoes(win, t.out[t.entry[b]], Settled(t, k).out, t.start[b], t.entry, k, b);
  }

  lemma AwaitsShape(win: Window, t: Trail, k: nat, b: nat)
    requires b < |t.entry| <= |win.code| && |t.start| == |t.entry| + 1 && |t.fixes| == MAX_INSTRUCTIONS && |win.code| <= MAX_INSTRUCTIONS
    requires BlockState(win, t, b, k) && AwaitsFrom(win, b, k)
    ensures Awaiting(win, t.out, b, t.start[b], t.entry[b], t.start[b + 1])
  {
    hide Awaiting;
  }

  /** A forward branch with its offset filled in does the work of the instruction. */
  lemma FilledDoes(win: Window, blank: Word, out: seq<Word>, s: nat, entry: seq<nat>, k: nat, b: nat)
    requires Placed(win) && b < |entry| <= |win.code| && k < |entry|
    requires ForwardOf(win, b).Some? && ForwardOf(win, b).value.index == k
    requires entry[b] < |out| <= 45 && entry[k] <= 45 && s == entry[b]
    requires IsBranchImm(win.code[b]) ==> blank == And(win.code[b], 0xfc00_0000)
    requires !IsBranchImm(win.code[b]) && CondMask(win.code[b]).Some? ==> blank == And(win.code[b], CondMask(win.code[b]).value)
    requires out[entry[b]] == Or(blank, OffsetField(Delta(entry[k], entry[b]), ForwardOf(win, b).value.ls, ForwardOf(win, b).value.ad))
    ensures Block(win, out, entry, b, s, entry[b], entry[b] + 1)
  {
    hide Decode, And, OrBits, OffsetField;
    var c := win.code[b];
    var o := Delta(entry[k], entry[b]);
    if IsBranchImm(c) {
      FilledBranch(win, blank, out, entry, k, b);
    } else if CondMask(c).Some? {
      FilledCond(win, blank, out, entry, k, b, CondMask(c).value);
    } else {
      OtherForward(win, b);
    }
  }

  lemma FilledBranch(win: Window, blank: Word, out: seq<Word>, entry: seq<nat>, k: nat, b: nat)
    requires Placed(win) && b < |entry| <= |win.code| && k < |entry| && entry[b] < |out| <= 45 && entry[k] <= 45
    requires IsBranchImm(win.code[b]) && blank == And(win.code[b], 0xfc00_0000)
    requires InRange(win, BranchTarget(win, b)) && RefIndex(win, BranchTarget(win, b)) == k
    requires out[entry[b]] == Or(blank, OffsetField(Delta(entry[k], entry[b]), 0, 0x03ff_ffff))
    ensures Does(win, out, entry, b, entry[b], entry[b] + 1)
  {
    hide Decode, And, OrBits, OffsetField;
    var o := Delta(entry[k], entry[b]);
    BranchTargetIs(win, b);
    BranchAlignment(win, b);
    InWindow(win, BranchTarget(win, b));
    PatchedBranchWord(blank, o);
    BranchWord(blank, o);
  }

  lemma FilledCond(win: Window, blank: Word, out: seq<Word>, entry: seq<nat>, k: nat, b: nat, m: Word)
    requires Placed(win) && b < |entry| <= |win.code| && k < |entry| && entry[b] < |out| <= 45 && entry[k] <= 45
    requires CondMask(win.code[b]) == Some(m) && blank == And(win.code[b], m)
    requires InRange(win, CondTarget(win, b, m)) && RefIndex(win, CondTarget(win, b, m)) == k
    requires out[entry[b]] == Or(blank, OffsetField(Delta(entry[k], entry[b]), 5, 0xffff_ffff - m))
    ensures Does(win, out, entry, b, entry[b], entry[b] + 1)
  {
    hide Decode, And, OrBits, OffsetField;
    var o := Delta(entry[k], entry[b]);
    CondTargetIs(win, b, m);
    CondAlignment(win, b, m);
    InWindow(win, CondTarget(win, b, m));
    PatchedCondWord(win.code[b], m, o);
    CondWord(win.code[b], m, o);
  }

  /** Beside branches, only ADR makes forward references. */
  lemma OtherForward(win: Window, b: nat)
    requires b < |win.code| && ForwardOf(win, b).Some? && !IsBranchImm(win.code[b]) && CondMask(win.code[b]).None?
    ensures var d := Decode(win.code[b]);
      !d.Branch? && !d.BranchLink? && !d.CondBranch? && !d.Prefetch? && d != A64.Nop && !d.Plain?
  {
    hide And, OrBits;
    var w := win.code[b];
    RelocationClassesOf(w);
  }

  lemma RelocationClassesOf(w: Word)
    requires !IsBranchImm(w) && CondMask(w).None? && !IsPrefetch(w) && LoadClass(w).None? && IsAdrWord(w)
    ensures var d := Decode(w);
      !d.Branch? && !d.BranchLink? && !d.CondBranch? && !d.Prefetch? && d != A64.Nop && !d.Plain?
  {
    hide And, OrBits;
    C.BranchImmClass(w);
    C.CondBranchClass(w);
    C.LiteralClasses(w);
    C.AddressClasses(w);
  }

  lemma SettledRows(win: Window, t: Trail, k: nat)
    requires Laid(win, t, k) && k < |t.entry|
    ensures Rows(win, Settled(t, k), k + 1)
  {
    hide BlockState, Patch, ForwardOf;
    var r := Settled(t, k);
    forall j, q | 0 <= j < |r.fixes| && 0 <= q < |r.fixes[j]|
      ensures Recorded(win, r, j, r.fixes[j][q])
    {
      assert Recorded(win, t, j, t.fixes[j][q]);
      var i :| 0 <= i < |t.entry| && RecordedBy(win, t, j, t.fixes[j][q], i);
      assert RecordedBy(win, r, j, t.fixes[j][q], i);
    }
  }

  lemma SettledState(win: Window, t: Trail, k: nat, b: nat)
    requires Placed(win) && Laid(win, t, k) && k < |t.entry| && b < |t.entry|
    ensures BlockState(win, Settled(t, k), b, k + 1)
  {
    hide Rows, Patch, ForwardOf, Does;
    var r := Settled(t, k);
    assert BlockState(win, t, b, k);
    if ForwardOf(win, b).Some? && ForwardOf(win, b).value.index == k {
      PatchedBlock(win, t, k, b);
    } else {
      UntouchedBlock(win, t, k, b);
      BlockShape(win, t, b, k);
      if !AwaitsFrom(win, b, k) {
        BlockFrame(win, t.out, r.out, t.entry, t.entry, b, t.start[b], t.entry[b], t.start[b + 1]);
      }
    }
  }

  lemma SettledLaid(win: Window, t: Trail, k: nat)
    requires Placed(win) && Laid(win, t, k) && k < |t.entry|
    ensures Laid(win, Settled(t, k), k + 1)
  {
    hide Rows, Patch, BlockState;
    SettledRows(win, t, k);
    var r, next := Settled(t, k), k + 1;
    forall b | 0 <= b < |t.entry|
      ensures BlockState(win, r, b, next)
    {
      SettledState(win, t, k, b);
    }
  }

  lemma AdvanceLaid(win: Window, t: Trail)
    requires Placed(win) && Laid(win, t, |t.entry|) && |t.entry| < |win.code|
    ensures Laid(win, Advance(win, t), |t.entry| + 1)
  {
    hide Rows, Patch, BlockState, Emit;
    ExtendedLaid(win, t);
    SettledLaid(win, Extended(win, t), |t.entry|);
    assert Advance(win, t) == Settled(Extended(win, t), |t.entry|);
  }

  /** After any number of instructions the blocks are in order. */
  lemma {:induction false} PrefixLaid(win: Window, k: nat)
    requires Placed(win) && k <= |win.code|
    ensures Laid(win, Prefix(win, k), k)
  {
    if k > 0 {
      PrefixLaid(win, k - 1);
      AdvanceLaid(win, Prefix(win, k - 1));
    }
  }

  ghost predicate Finished(win: Window, t: Trail, i: nat)
    requires i < |t.entry| <= |win.code| && |t.start| == |t.entry| + 1
  {
    && t.start[i] <= t.entry[i] <= t.start[i + 1] <= |t.out|
    && Block(win, t.out, t.entry, i, t.start[i], t.entry[i], t.start[i + 1])
  }

  /** The relocator's state after the whole window. */
  function Final(win: Window): (t: Trail)
    requires |win.code| <= MAX_INSTRUCTIONS
    ensures WellFormed(win, t) && |t.entry| == |win.code|
  {
    Prefix(win, |win.code|)
  }

  /** At the end every block is finished, and no forward reference is left to patch. */
  lemma AllFinished(win: Window)
    requires Placed(win)
    ensures var t := Final(win);
      && Ordered(t.start) && t.start[0] == 0 && |t.out| <= 9 * |win.code|
      && (forall j :: 0 <= j < |win.code| ==> t.fixes[j] == [])
      && (forall i :: 0 <= i < |win.code| ==> Finished(win, t, i))
  {
    hide Does, BlockState;
    var k := |win.code|;
    PrefixLaid(win, k);
    var t := Final(win);
    assert Laid(win, t, k);
    forall i | 0 <= i < k
      ensures Finished(win, t, i)
    {
      FinishedState(win, t, i);
    }
  }

  lemma FinishedState(win: Window, t: Trail, i: nat)
    requires Laid(win, t, |win.code|) && i < |t.entry|
    ensures Finished(win, t, i)
  {
    hide Does, Rows;
    assert BlockState(win, t, i, |win.code|);
  }

  // ---------- the size of the output ----------

  /** One if a 64-bit literal at the output word would not be aligned. */
  function Odd(win: Window, pos: nat): nat {
    if OutputAddress(win, pos) % 8 != 0 then 1 else 0
  }

  lemma OddStep(win: Window, pos: nat, n: nat)
    requires win.dst % 4 == 0
    ensures Odd(win, pos + n) == if n % 2 == 0 then Odd(win, pos) else 1 - Odd(win, pos)
  {
    var b := win.dst / 4 + pos;
    assert OutputAddress(win, pos) == 4 * b && OutputAddress(win, pos + n) == 4 * (b + n);
    EvenWords(b);
    EvenWords(b + n);
    EvenSum(b, n);
  }

  /** Three NOPs before a copied 128-bit literal are needed at odd words only. */
  lemma CopyPadPhase(win: Window, pos: nat)
    requires win.dst % 4 == 0
    ensures CopyPad(win, pos, 16) == 3 ==> Odd(win, pos) == 1
  {
    var b := win.dst / 4 + pos + 2;
    var q, s := b / 4, b % 4;
    assert OutputAddress(win, pos + 2) == 16 * q + 4 * s;
    NegatedRest(16 * q + 4 * s, q, s);
    if s == 1 {
      assert OutputAddress(win, pos) == 8 * (2 * q - 1) + 4;
    }
  }

  lemma NegatedRest(a: int, q: int, s: int)
    requires a == 16 * q + 4 * s && 0 <= s < 4
    ensures -a % 16 == if s == 0 then 0 else 16 - 4 * s
  {
    if s == 0 {
      assert -a == 16 * -q;
    } else {
      assert -a == 16 * (-q - 1) + (16 - 4 * s);
    }
  }

  function WordCount(e: Emission): nat {
    e.pad + |e.words|
  }

  lemma LoadSize(win: Window, i: nat, pos: nat, c: LiteralClass)
    requires i < |win.code| && c.size in {4, 8, 16} && win.dst % 4 == 0
    ensures var n := WordCount(EmitLoadLiteral(win, i, pos, c)); n <= 8 || (n == 9 && Odd(win, pos) == 1)
  {
    hide And, OrBits, Or, CopyPad, LoadTarget, Odd;
    CopyPadPhase(win, pos);
  }

  lemma OtherSize(win: Window, i: nat, pos: nat, entry: seq<nat>)
    requires i < |win.code| && |entry| == i
    requires IsBranchImm(win.code[i]) || CondMask(win.code[i]).Some?
          || (!IsPrefetch(win.code[i]) && LoadClass(win.code[i]).None?)
    ensures WordCount(Emit(win, i, pos, entry)) <= 7
  {
    hide And, OrBits, Or, IsBranchImm, CondMask, LoadClass, IsPrefetch, BranchTarget, CondTarget;
    hide UnsignedAddressDisplacement, IsAdrWord, IsAdrpWord;
  }

  /** An instruction that takes nine words starts at an odd word and ends before an even one. */
  lemma EmissionPhase(win: Window, i: nat, pos: nat, entry: seq<nat>)
    requires i < |win.code| && |entry| == i && win.dst % 4 == 0
    ensures var n := Emit(win, i, pos, entry).pad + |Emit(win, i, pos, entry).words|;
      n + Odd(win, pos + n) <= 8 + Odd(win, pos)
  {
    var w := win.code[i];
    var n := WordCount(Emit(win, i, pos, entry));
    OddStep(win, pos, n);
    hide Odd, IsBranchImm, CondMask, LoadClass, IsPrefetch, EmitLoadLiteral, EmitBranchImm, EmitCondBranch, EmitAdr, EmitAdrp;
    assert Odd(win, pos) <= 1 && Odd(win, pos + n) <= 1 by { OddIsBit(win, pos); OddIsBit(win, pos + n); }
    if !IsBranchImm(w) && CondMask(w).None? && !IsPrefetch(w) && LoadClass(w).Some? {
      LoadSize(win, i, pos, LoadClass(w).value);
    } else if IsBranchImm(w) || CondMask(w).Some? || !IsPrefetch(w) {
      OtherSize(win, i, pos, entry);
    }
  }

  lemma OddIsBit(win: Window, pos: nat)
    ensures Odd(win, pos) <= 1
  {
  }

  lemma {:induction false} PrefixSize(win: Window, k: nat)
    requires k <= |win.code| <= MAX_INSTRUCTIONS && win.dst % 4 == 0
    ensures |Prefix(win, k).out| + Odd(win, |Prefix(win, k).out|) <= 8 * k + Odd(win, 0)
  {
    hide Emit, Odd, Patch;
    if k > 0 {
      var t := Prefix(win, k - 1);
      PrefixSize(win, k - 1);
      EmissionPhase(win, k - 1, |t.out|, t.entry);
    }
  }

  /** The relocated code takes at most eight words for each instruction and four or five for the jump back, so five
      instructions leave at least five of the fifty words of a pool slot free. */
  lemma RelocatedSize(win: Window)
    requires Placed(win)
    ensures |Relocated(win)| <= 8 * |win.code| + 4 + Odd(win, 0) <= MAX_INSTRUCTIONS * 10 - 5
  {
    hide Prefix, EmitTail;
    PrefixSize(win, |win.code|);
    TailSize(win, |Final(win).out|);
  }

  lemma TailSize(win: Window, pos: nat)
    requires win.dst % 4 == 0
    ensures WordCount(EmitTail(win, pos)) <= 4 + Odd(win, pos)
  {
    hide And, OrBits, Or;
    OddStep(win, pos, 2);
  }
}
