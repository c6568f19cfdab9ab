/** What the relocator writes for each instruction of a window, as functions on values. */
module Relocation {
  import opened Words
  import opened A64
  import opened Options

  const MAX_INSTRUCTIONS: nat := 5
  const MAX_REFERENCES: nat := 10

  const LDR_X17_8: Word := 0x5800_0051
  const LDR_X17_12: Word := 0x5800_0071
  const ADR_X30_16: Word := 0x1000_009e

  const OP_B: Word := 0x1400_0000
  const OP_BL: Word := 0x9400_0000

  /** The instructions at `src`, to be moved to `dst`; `data` is the memory that literals are copied from. */
  datatype Window = Window(code: seq<Word>, src: int, dst: int, data: int -> Word)

  /** User-space addresses of whole instructions. */
  predicate Placed(win: Window) {
    && |win.code| <= MAX_INSTRUCTIONS
    && 0 <= win.src < 0x100_0000_0000_0000 && win.src % 4 == 0
    && 0 <= win.dst < 0x100_0000_0000_0000 && win.dst % 4 == 0
  }

  /** A recorded forward reference: the word to patch, the left shift and the mask of its offset field. */
  datatype Fix = Fix(at: nat, ls: nat, ad: Word)

  /** A forward reference to the instruction `index`. */
  datatype Forward = Forward(index: nat, ls: nat, ad: Word)

  /** The output for one instruction: NOPs that align it, its words, and a forward reference. */
  datatype Emission = Emission(pad: nat, words: seq<Word>, forward: Option<Forward>)

  /** The output so far: words, the first word of each block and of the next one, the entry of each
      relocated instruction, and the forward references recorded for each instruction. */
  datatype Trail = Trail(out: seq<Word>, start: seq<nat>, entry: seq<nat>, fixes: seq<seq<Fix>>)

  function SourceAddress(win: Window, i: nat): int {
    win.src + 4 * i
  }

  function OutputAddress(win: Window, pos: nat): int {
    win.dst + 4 * pos
  }

  predicate InRange(win: Window, a: int) {
    win.src <= a < win.src + 4 * |win.code|
  }

  function RefIndex(win: Window, a: int): (j: nat)
    requires InRange(win, a)
    ensures j < |win.code|
  {
    (a - win.src) / 4
  }

  /** The word of an offset field: shifted into place, under the mask of the field. */
  function OffsetField(offset: int, shift: nat, ad: Word): (w: Word) {
    And(Low32(offset * Pow2(shift)), ad)
  }

  /** An arithmetic shift right by k, where p is Pow2(k). */
  function Asr(x: int, p: nat): int
    requires p > 0
  {
    x / p
  }

  /** The offset, in instructions, from output word `pos` to the entry of an earlier instruction, or 0 for a
      later one, whose word is patched when it is known. */
  function InWindowOffset(win: Window, i: nat, pos: nat, entry: seq<nat>, j: nat): int
    requires |entry| == i
  {
    if j < i then Asr(OutputAddress(win, entry[j]) - OutputAddress(win, pos), 4) else 0
  }

  // ---------- B and BL ----------

  predicate IsBranchImm(w: Word) {
    var opc := And(w, 0xfc00_0000);
    opc == OP_B || opc == OP_BL
  }

  function BranchTarget(win: Window, i: nat): int
    requires i < |win.code|
  {
    SourceAddress(win, i) + Asr(AsInt32(Shl(win.code[i], 64)), 16)
  }

  /** The two words of a 64-bit literal. */
  function LiteralWords(a: int): seq<Word> {
    [a % 0x1_0000_0000, a / 0x1_0000_0000 % 0x1_0000_0000]
  }

  function EmitBranchImm(win: Window, i: nat, pos: nat, entry: seq<nat>): Emission
    requires i < |win.code| && |entry| == i
  {
    var opc := And(win.code[i], 0xfc00_0000);
    var target := BranchTarget(win, i);
    var offset := Asr(target - OutputAddress(win, pos), 4);
    if !InRange(win, target) && Abs(offset) >= 0x01ff_ffff then
      var aligned := OutputAddress(win, pos + 2) % 8 == 0;
      if opc == OP_B then
        Emission(if aligned then 0 else 1, [LDR_X17_8, BR_X17] + LiteralWords(target), None)
      else
        Emission(if aligned then 1 else 0, [LDR_X17_12, ADR_X30_16, BR_X17] + LiteralWords(target), None)
    else if InRange(win, target) then
      var j := RefIndex(win, target);
      Emission(0, [Or(opc, And(Low32(InWindowOffset(win, i, pos, entry, j)), 0x03ff_ffff))],
               if j <= i then None else Some(Forward(j, 0, 0x03ff_ffff)))
    else
      Emission(0, [Or(opc, And(Low32(offset), 0x03ff_ffff))], None)
  }

  // ---------- B.cond, CBZ, CBNZ, TBZ, TBNZ ----------

  /** The mask of everything but the offset field, if the word is a conditional branch. */
  function CondMask(w: Word): (m: Option<Word>) {
    if And(w, 0xff00_0010) == 0x5400_0000 then Some(0xff00_001f)
    else
      var opc := And(w, 0x7f00_0000);
      if opc == 0x3400_0000 || opc == 0x3500_0000 then Some(0xff00_001f)
      else if opc == 0x3600_0000 || opc == 0x3700_0000 then Some(0xfff8_001f)
      else None
  }

  /** The number of leading zeros of the offset field, as a power of two. */
  function LeadingZeros(lmask: Word): nat {
    if lmask == 0xff00_001f then 0x100 else 0x2000
  }

  function CondTarget(win: Window, i: nat, lmask: Word): int
    requires i < |win.code|
  {
    var msb := LeadingZeros(lmask);
    SourceAddress(win, i) + Asr(AsInt32(Shl(And(win.code[i], 0xffff_ffff - lmask), msb)), 8 * msb)
  }

  function EmitCondBranch(win: Window, i: nat, pos: nat, entry: seq<nat>, lmask: Word): Emission
    requires i < |win.code| && |entry| == i
  {
    var w := win.code[i];
    var field := 0xffff_ffff - lmask;
    var target := CondTarget(win, i, lmask);
    var offset := Asr(target - OutputAddress(win, pos), 4);
    if !InRange(win, target) && Abs(offset) >= field / 64 then
      Emission(if OutputAddress(win, pos + 4) % 8 != 0 then 1 else 0,
               [Or(And(64, field), And(w, lmask)), 0x1400_0005, LDR_X17_8, BR_X17] + LiteralWords(target), None)
    else if InRange(win, target) then
      var j := RefIndex(win, target);
      Emission(0, [Or(And(Shl(InWindowOffset(win, i, pos, entry, j), 32), field), And(w, lmask))],
               if j <= i then None else Some(Forward(j, 5, field)))
    else
      Emission(0, [Or(And(Shl(offset, 32), field), And(w, lmask))], None)
  }

  // ---------- PRFM, LDR and LDRSW of a literal ----------

  predicate IsPrefetch(w: Word) {
    And(w, 0xff00_0000) == 0xd800_0000
  }

  datatype LiteralClass = LiteralClass(mask: Word, size: nat)

  /** The opcode mask and the literal size in bytes, if the word loads a literal. */
  function LoadClass(w: Word): (c: Option<LiteralClass>)
    ensures c.Some? ==> c.value.size == 4 || c.value.size == 8 || c.value.size == 16
  {
    var size := if And(w, 0x4000_0000) != 0 then 8 else 4;
    if And(w, 0xbf00_0000) == 0x1800_0000 then Some(LiteralClass(0xbf00_0000, size))
    else if And(w, 0x3f00_0000) == 0x1c00_0000 then
      Some(LiteralClass(0x3f00_0000, if size == 8 then 8 else if And(w, 0x8000_0000) != 0 then 16 else 4))
    else if And(w, 0xff00_0000) == 0x9800_0000 then Some(LiteralClass(0xff00_0000, 8))
    else None
  }

  /** The 21-bit displacement of a PC-relative load, which the unsigned mask leaves without a sign. */
  function UnsignedDisplacement(w: Word): (d: Word) {
    And(Low32(Asr(AsInt32(Shl(w, 256)), 2048)), 0xffff_fffc)
  }

  function LoadTarget(win: Window, i: nat): int
    requires i < |win.code|
  {
    SourceAddress(win, i) + UnsignedDisplacement(win.code[i])
  }

  /** The literal is copied behind the load, because it is in the window or too far away. */
  predicate CopiesLiteral(win: Window, i: nat, pos: nat, size: nat)
    requires i < |win.code| && size >= 4
  {
    var target := LoadTarget(win, i);
    InRange(win, target) || Abs(Asr(target - OutputAddress(win, pos), 4)) + (size - 4) / 4 >= 0x3_ffff
  }

  /** An offset has to lose this much to be a multiple of m. */
  function Excess(offset: int, m: nat): (k: nat)
    requires m in {1, 2, 4}
    ensures k <= 3
  {
    offset % m
  }

  /** NOPs before a copied literal, so that it is aligned behind two instructions. */
  function CopyPad(win: Window, pos: nat, size: nat): (k: nat)
    requires size in {4, 8, 16}
    ensures k <= 3
  {
    -OutputAddress(win, pos + 2) % size / 4
  }

  function EmitLoadLiteral(win: Window, i: nat, pos: nat, c: LiteralClass): Emission
    requires i < |win.code| && c.size in {4, 8, 16}
  {
    var w := win.code[i];
    var field := 0xffff_ffff - c.mask;
    if CopiesLiteral(win, i, pos, c.size) then
      Emission(CopyPad(win, pos, c.size),
               [Or(And(64, field), And(w, 0xff00_001f)), 0x1400_0001 + c.size / 4] + DataWords(win, LoadTarget(win, i), c.size / 4),
               None)
    else
      var offset := Asr(LoadTarget(win, i) - OutputAddress(win, pos), 4);
      var pad := Excess(offset, c.size / 4);
      Emission(pad, [Or(And(Shl(offset - pad, 32), field), And(w, 0xff00_001f))], None)
  }

  function DataWords(win: Window, a: int, k: nat): (ws: seq<Word>)
    ensures |ws| == k
  {
    seq(k, j requires 0 <= j < k => win.data(a + 4 * j))
  }

  // ---------- ADR and ADRP ----------

  predicate IsAdrWord(w: Word) {
    And(w, 0x9f00_0000) == 0x1000_0000
  }

  predicate IsAdrpWord(w: Word) {
    And(w, 0x9f00_0000) == 0x9000_0000
  }

  /** The displacement of ADR and ADRP with its two low bits from the top of the word. */
  function UnsignedAddressDisplacement(w: Word): (d: Word) {
    var low := Shl(w, 2) / 0x4000_0000;
    Or(UnsignedDisplacement(w), low)
  }

  function EmitAddressLiteral(win: Window, i: nat, pos: nat, target: int): Emission
    requires i < |win.code|
  {
    var w := win.code[i];
    Emission(if OutputAddress(win, pos + 2) % 8 != 0 then 1 else 0,
             [Or(Or(0x5800_0000, And(64, 0x60ff_ffff)), And(w, 0x1f)), 0x1400_0003] + LiteralWords(target), None)
  }

  function EmitAdr(win: Window, i: nat, pos: nat, entry: seq<nat>): Emission
    requires i < |win.code| && |entry| == i
  {
    var w := win.code[i];
    var target := SourceAddress(win, i) + UnsignedAddressDisplacement(w);
    var offset := target - OutputAddress(win, pos);
    if !InRange(win, target) && Abs(offset) >= 0x000f_ffff then
      EmitAddressLiteral(win, i, pos, target)
    else if InRange(win, target) then
      var j := RefIndex(win, target);
      // The displacement is never negative, so the target is this instruction or a later one.
      Emission(0, [And(w, 0xff00_001f)],
               if j <= i then None else Some(Forward(j, 5, 0x00ff_ffff)))
    else
      Emission(0, [Or(And(Shl(offset, 8), 0x00ff_ffff), And(w, 0xff00_001f))], None)
  }

  function EmitAdrp(win: Window, i: nat, pos: nat): Emission
    requires i < |win.code|
  {
    var w := win.code[i];
    var pc := SourceAddress(win, i);
    var target := pc - pc % 4096 + Shl(UnsignedAddressDisplacement(w), 4096);
    if InRange(win, target) then Emission(0, [w], None)
    else EmitAddressLiteral(win, i, pos, target)
  }

  // ---------- the driver ----------

  function Emit(win: Window, i: nat, pos: nat, entry: seq<nat>): Emission
    requires i < |win.code| && |entry| == i
  {
    var w := win.code[i];
    if IsBranchImm(w) then EmitBranchImm(win, i, pos, entry)
    else if CondMask(w).Some? then EmitCondBranch(win, i, pos, entry, CondMask(w).value)
    else if IsPrefetch(w) then Emission(0, [], None)
    else if LoadClass(w).Some? then EmitLoadLiteral(win, i, pos, LoadClass(w).value)
    else if IsAdrWord(w) then EmitAdr(win, i, pos, entry)
    else if IsAdrpWord(w) then EmitAdrp(win, i, pos)
    else Emission(0, [w], None)
  }

  function Nops(k: nat): (ws: seq<Word>)
    ensures |ws| == k
  {
    seq(k, _ => NOP)
  }

  /** Records a reference in a row of the fix map, which has ten places. */
  function AddFix(row: seq<Fix>, f: Fix): seq<Fix> {
    if |row| < MAX_REFERENCES then row + [f] else row
  }

  /** Adds the offset to `entry` to the word of one recorded reference. */
  function PatchOne(out: seq<Word>, f: Fix, entry: nat): (r: seq<Word>)
    ensures |r| == |out|
  {
    if f.at >= |out| then out
    else
      out[f.at := Or(out[f.at], OffsetField(Asr(AsInt32(Low32(4 * (entry - f.at))), 4), f.ls, f.ad))]
  }

  function Patch(out: seq<Word>, row: seq<Fix>, entry: nat): (r: seq<Word>)
    ensures |r| == |out|
    decreases |row|
  {
    if row == [] then out else Patch(PatchOne(out, row[0], entry), row[1..], entry)
  }

  function InsertForward(fixes: seq<seq<Fix>>, at: nat, forward: Option<Forward>): (r: seq<seq<Fix>>)
    ensures |r| == |fixes|
  {
    if forward.Some? && forward.value.index < |fixes| then
      var f := forward.value;
      fixes[f.index := AddFix(fixes[f.index], Fix(at, f.ls, f.ad))]
    else fixes
  }

  predicate WellFormed(win: Window, t: Trail) {
    && |t.entry| <= |win.code| && |t.fixes| == MAX_INSTRUCTIONS
    && |t.start| == |t.entry| + 1 && t.start[|t.entry|] == |t.out|
  }

  /** Relocates the next instruction. */
  function Advance(win: Window, t: Trail): (r: Trail)
    requires WellFormed(win, t) && |t.entry| < |win.code| <= MAX_INSTRUCTIONS
    ensures WellFormed(win, r) && |r.entry| == |t.entry| + 1
  {
    var i := |t.entry|;
    var e := Emit(win, i, |t.out|, t.entry);
    var entry := |t.out| + e.pad;
    var fixes := InsertForward(t.fixes, entry, e.forward);
    var out := Patch(t.out + Nops(e.pad) + e.words, fixes[i], entry);
    Trail(out, t.start + [|out|], t.entry + [entry], fixes[i := []])
  }

  function Origin(): Trail {
    Trail([], [0], [], seq(MAX_INSTRUCTIONS, _ => []))
  }

  /** The first k instructions relocated. */
  function Prefix(win: Window, k: nat): (t: Trail)
    requires k <= |win.code| <= MAX_INSTRUCTIONS
    ensures WellFormed(win, t) && |t.entry| == k
  {
    if k == 0 then Origin() else Advance(win, Prefix(win, k - 1))
  }

  /** The jump back to the instruction after the window, written at output word `pos`. */
  function EmitTail(win: Window, pos: nat): Emission {
    var callback := SourceAddress(win, |win.code|);
    var offset := Asr(callback - OutputAddress(win, pos), 4);
    if Abs(offset) >= 0x01ff_ffff then
      Emission(if OutputAddress(win, pos + 2) % 8 != 0 then 1 else 0, [LDR_X17_8, BR_X17] + LiteralWords(callback), None)
    else
      Emission(0, [Or(OP_B, And(Low32(offset), 0x03ff_ffff))], None)
  }

  /** Everything the relocator writes for the window. */
  function Relocated(win: Window): seq<Word>
    requires |win.code| <= MAX_INSTRUCTIONS
  {
    var t := Prefix(win, |win.code|);
    var e := EmitTail(win, |t.out|);
    t.out + Nops(e.pad) + e.words
  }
}
