/** The relocated code, block by block: each instruction of the window has a block of output words that
    does the instruction's work at the new place, and no recorded reference is left unpatched. */
module RelocationLayout {
  import opened Words
  import opened A64
  import opened Options
  import opened Relocation
  import opened RelocationClasses
  import opened RelocationWords

  /** A branch at output word `at` reaches the copy of a target in the window, or else the target itself. */
  ghost predicate Lands(win: Window, entry: seq<nat>, at: nat, off: int, target: int) {
    if InRange(win, target) then
      RefIndex(win, target) < |entry|
      && OutputAddress(win, at) + off == OutputAddress(win, entry[RefIndex(win, target)])
    else OutputAddress(win, at) + off == target
  }

  ghost predicate LiteralAt(out: seq<Word>, k: nat, a: int) {
    k + 2 <= |out| && out[k..k + 2] == LiteralWords(a)
  }

  /** The literal of a long form is aligned for a 64-bit load. */
  ghost predicate AlignedLiteral(win: Window, out: seq<Word>, k: nat, a: int) {
    LiteralAt(out, k, a) && OutputAddress(win, k) % 8 == 0
  }

  ghost predicate LongJump(win: Window, out: seq<Word>, n: nat, a: int) {
    n + 4 <= |out| && out[n] == LDR_X17_8 && out[n + 1] == BR_X17 && AlignedLiteral(win, out, n + 2, a)
  }

  ghost predicate LongCall(win: Window, out: seq<Word>, n: nat, a: int) {
    && n + 5 <= |out| && out[n] == LDR_X17_12 && out[n + 1] == ADR_X30_16 && out[n + 2] == BR_X17
    && AlignedLiteral(win, out, n + 3, a)
  }

  ghost predicate LongCond(win: Window, out: seq<Word>, n: nat, key: Word, a: int) {
    && n + 6 <= |out| && Decode(out[n]) == CondBranch(key, 8) && out[n + 1] == 0x1400_0005
    && LongJump(win, out, n + 2, a)
  }

  /** Words n to e - 1 do the work of instruction i. */
  ghost predicate Does(win: Window, out: seq<Word>, entry: seq<nat>, i: nat, n: nat, e: nat)
    requires i < |win.code| && n <= e <= |out|
  {
    var pc := SourceAddress(win, i);
    match Decode(win.code[i])
    case Branch(off) =>
      (e == n + 1 && Decode(out[n]).Branch? && Lands(win, entry, n, Decode(out[n]).off, pc + off))
      || (e == n + 4 && !InRange(win, pc + off) && LongJump(win, out, n, pc + off))
    case BranchLink(off) =>
      (e == n + 1 && Decode(out[n]).BranchLink? && Lands(win, entry, n, Decode(out[n]).off, pc + off))
      || (e == n + 5 && !InRange(win, pc + off) && LongCall(win, out, n, pc + off))
    case CondBranch(key, off) =>
      (e == n + 1 && Decode(out[n]).CondBranch? && Decode(out[n]).key == key
       && Lands(win, entry, n, Decode(out[n]).off, pc + off))
      || (e == n + 6 && !InRange(win, pc + off) && LongCond(win, out, n, key, pc + off))
    case Prefetch => e == n
    case Nop => e == n + 1 && out[n] == win.code[i]
    case Plain => e == n + 1 && out[n] == win.code[i]
    case _ => true
  }

  /** NOPs from s to n, then the block proper up to e. */
  ghost predicate Block(win: Window, out: seq<Word>, entry: seq<nat>, i: nat, s: nat, n: nat, e: nat)
    requires i < |win.code|
  {
    && s <= n <= e <= |out|
    && (forall p :: s <= p < n ==> out[p] == NOP)
    && Does(win, out, entry, i, n, e)
  }

  /** The word left for a forward reference, with an empty offset field. */
  ghost predicate Awaiting(win: Window, out: seq<Word>, i: nat, s: nat, n: nat, e: nat)
    requires i < |win.code|
  {
    var w := win.code[i];
    && s == n < e == n + 1 <= |out|
    && (IsBranchImm(w) ==> out[n] == And(w, 0xfc00_0000))
    && (!IsBranchImm(w) && CondMask(w).Some? ==> out[n] == And(w, CondMask(w).value))
  }

  /** The forward reference that instruction i makes, if any. */
  function ForwardOf(win: Window, i: nat): (f: Option<Forward>)
    requires i < |win.code|
    ensures f.Some? ==> i < f.value.index < |win.code|
  {
    var w := win.code[i];
    if IsBranchImm(w) then
      var a := BranchTarget(win, i);
      if InRange(win, a) && RefIndex(win, a) > i then Some(Forward(RefIndex(win, a), 0, 0x03ff_ffff)) else None
    else if CondMask(w).Some? then
      var a := CondTarget(win, i, CondMask(w).value);
      if InRange(win, a) && RefIndex(win, a) > i
      then Some(Forward(RefIndex(win, a), 5, 0xffff_ffff - CondMask(w).value)) else None
    else if IsPrefetch(w) || LoadClass(w).Some? || !IsAdrWord(w) then None
    else
      var a := SourceAddress(win, i) + UnsignedAddressDisplacement(w);
      if InRange(win, a) && RefIndex(win, a) > i then Some(Forward(RefIndex(win, a), 5, 0x00ff_ffff)) else None
  }

  predicate AwaitsFrom(win: Window, i: nat, k: nat)
    requires i < |win.code|
  {
    ForwardOf(win, i).Some? && ForwardOf(win, i).value.index >= k
  }

  /** A recorded reference belongs to the block of an earlier instruction that awaits instruction j. */
  ghost predicate Recorded(win: Window, t: Trail, j: nat, f: Fix)
    requires |t.entry| <= |win.code| && |t.start| == |t.entry| + 1
  {
    exists i :: 0 <= i < |t.entry| && RecordedBy(win, t, j, f, i)
  }

  ghost predicate RecordedBy(win: Window, t: Trail, j: nat, f: Fix, i: nat)
    requires i < |t.entry| <= |win.code| && |t.start| == |t.entry| + 1
  {
    && ForwardOf(win, i) == Some(Forward(j, f.ls, f.ad))
    && f.at == t.entry[i] && t.start[i] <= t.entry[i] < t.start[i + 1]
  }

  ghost predicate Ordered(start: seq<nat>) {
    forall a, b :: 0 <= a <= b < |start| ==> start[a] <= start[b]
  }

  ghost predicate Rows(win: Window, t: Trail, k: nat)
    requires |t.entry| <= |win.code| && |t.start| == |t.entry| + 1
  {
    && |t.fixes| == MAX_INSTRUCTIONS
    && (forall j :: 0 <= j < |t.fixes| ==> |t.fixes[j]| <= |t.entry|)
    && (forall j :: 0 <= j < k && j < |t.fixes| ==> t.fixes[j] == [])
    && (forall j, q :: 0 <= j < |t.fixes| && 0 <= q < |t.fixes[j]| ==> Recorded(win, t, j, t.fixes[j][q]))
    && (forall j, q, r :: 0 <= j < |t.fixes| && 0 <= q < r < |t.fixes[j]| ==> t.fixes[j][q].at != t.fixes[j][r].at)
  }

  /** Block i is finished, unless it awaits an instruction from k on; then its reference is recorded. */
  ghost predicate BlockState(win: Window, t: Trail, i: nat, k: nat)
    requires i < |t.entry| <= |win.code| && |t.start| == |t.entry| + 1 && |t.fixes| == MAX_INSTRUCTIONS && |win.code| <= MAX_INSTRUCTIONS
  {
    if AwaitsFrom(win, i, k) then
      var f := ForwardOf(win, i).value;
      && Awaiting(win, t.out, i, t.start[i], t.entry[i], t.start[i + 1])
      && Fix(t.entry[i], f.ls, f.ad) in t.fixes[f.index]
    else
      Block(win, t.out, t.entry, i, t.start[i], t.entry[i], t.start[i + 1])
  }

  /** The state of the relocator when blocks are known up to |t.entry| and patched for instructions below k. */
  ghost predicate Laid(win: Window, t: Trail, k: nat) {
    && |win.code| <= MAX_INSTRUCTIONS && WellFormed(win, t) && Ordered(t.start) && t.start[0] == 0
    && |t.out| <= 9 * |t.entry|
    && Rows(win, t, k)
    && forall i :: 0 <= i < |t.entry| ==> BlockState(win, t, i, k)
  }

  // ---------- one emission ----------

  lemma EmissionForward(win: Window, i: nat, pos: nat, entry: seq<nat>)
    requires i < |win.code| && |entry| == i
    ensures Emit(win, i, pos, entry).forward == ForwardOf(win, i)
  {
  }

  /** No instruction takes more than nine words, wherever it is and wherever it goes. */
  lemma EmissionSize(win: Window, i: nat, pos: nat, entry: seq<nat>)
    requires i < |win.code| && |entry| == i
    ensures Emit(win, i, pos, entry).pad + |Emit(win, i, pos, entry).words| <= 9
  {
  }

  lemma ExactShift(x: int)
    ensures Asr(4 * x, 4) == x
  {
  }
}
