/** What one emission does, before any later instruction is known. */
module RelocationEmission {
  import opened Words
  import opened A64
  import opened Options
  import opened Relocation
  import opened RelocationClasses
  import opened RelocationWords
  import opened RelocationLayout

  /** The output with the emission of instruction i appended at word pos. */
  ghost predicate Appended(out: seq<Word>, pos: nat, e: Emission) {
    && |out| == pos + e.pad + |e.words|
    && (forall p :: pos <= p < pos + e.pad ==> out[p] == NOP)
    && (forall p :: 0 <= p < |e.words| ==> out[pos + e.pad + p] == e.words[p])
  }

  ghost predicate Fits(win: Window, i: nat, pos: nat, entry: seq<nat>) {
    && i < |win.code| && Placed(win) && |entry| == i && pos <= 9 * i
    && forall j :: 0 <= j < i ==> entry[j] <= pos
  }

  lemma Wholes(win: Window, target: int, pos: nat)
    requires Placed(win) && target % 4 == 0
    ensures 4 * Asr(target - OutputAddress(win, pos), 4) == target - OutputAddress(win, pos)
  {
  }

  lemma InWindow(win: Window, target: int)
    requires Placed(win) && InRange(win, target) && target % 4 == 0
    ensures SourceAddress(win, RefIndex(win, target)) == target
  {
  }

  /** The offset to an earlier instruction, or to the branch itself. */
  lemma BackwardOffset(win: Window, i: nat, pos: nat, entry: seq<nat>, j: nat)
    requires Fits(win, i, pos, entry) && j <= i
    ensures InWindowOffset(win, i, pos, entry, j) == (entry + [pos])[j] - pos
    ensures -46 < InWindowOffset(win, i, pos, entry, j) <= 0
  {
    if j < i {
      ExactShift(entry[j] - pos);
    }
  }

  lemma LiteralAppended(win: Window, out: seq<Word>, k: nat, a: int)
    requires k + 2 == |out| && out[k] == LiteralWords(a)[0] && out[k + 1] == LiteralWords(a)[1]
    ensures LiteralAt(out, k, a)
  {
    assert out[k..k + 2] == LiteralWords(a);
  }

  lemma BranchEmission(win: Window, i: nat, pos: nat, entry: seq<nat>, out: seq<Word>)
    requires Fits(win, i, pos, entry) && IsBranchImm(win.code[i])
    requires Appended(out, pos, EmitBranchImm(win, i, pos, entry))
    ensures var e := EmitBranchImm(win, i, pos, entry);
      if ForwardOf(win, i).Some? then Awaiting(win, out, i, pos, pos + e.pad, |out|)
      else Block(win, out, entry + [pos + e.pad], i, pos, pos + e.pad, |out|)
  {
    hide Decode, And, OrBits, SignExtend;
    var e := EmitBranchImm(win, i, pos, entry);
    var opc := And(win.code[i], 0xfc00_0000);
    var target := BranchTarget(win, i);
    BranchTargetIs(win, i);
    BranchAlignment(win, i);
    Wholes(win, target, pos);
    var n := pos + e.pad;
    assert out[n] == e.words[0];
    if !InRange(win, target) {
      if |e.words| == 1 {
        BranchWord(opc, Asr(target - OutputAddress(win, pos), 4));
      } else {
        if opc == OP_B {
          LongJumpEmission(win, pos, out, e, target);
        } else {
          LongCallEmission(win, pos, out, e, target);
        }
      }
    } else {
      var j := RefIndex(win, target);
      if j <= i {
        BackwardOffset(win, i, pos, entry, j);
        BranchWord(opc, InWindowOffset(win, i, pos, entry, j));
      } else {
        PatchedBranchWord(opc, 0);
      }
    }
  }

  lemma DecodedOffset(w: Word)
    ensures Decode(w).Branch? || Decode(w).BranchLink? || Decode(w).CondBranch? ==> Decode(w).off % 4 == 0
  {
    hide And, OrBits, SignExtend;
    Fourfold(SignExtend(w % 0x400_0000, 0x200_0000));
    Fourfold(SignExtend(w / 32 % 0x8_0000, 0x4_0000));
    Fourfold(SignExtend(w / 32 % 0x4000, 0x2000));
  }

  lemma Fourfold(x: int)
    ensures 4 * x % 4 == 0
  {
  }

  lemma BranchAlignment(win: Window, i: nat)
    requires i < |win.code| && Placed(win) && IsBranchImm(win.code[i])
    ensures BranchTarget(win, i) % 4 == 0
  {
    hide Decode, And, OrBits, SignExtend;
    BranchTargetIs(win, i);
    DecodedOffset(win.code[i]);
  }

  lemma LongJumpEmission(win: Window, pos: nat, out: seq<Word>, e: Emission, target: int)
    requires Placed(win) && Appended(out, pos, e)
    requires e == Emission(if OutputAddress(win, pos + 2) % 8 == 0 then 0 else 1, [LDR_X17_8, BR_X17] + LiteralWords(target), None)
    ensures |out| == pos + e.pad + 4 && LongJump(win, out, pos + e.pad, target)
  {
    var n := pos + e.pad;
    assert out[n] == e.words[0] && out[n + 1] == e.words[1] && out[n + 2] == e.words[2] && out[n + 3] == e.words[3];
    LiteralAppended(win, out, n + 2, target);
    Aligned(win, pos + 2, e.pad);
  }

  lemma LongCallEmission(win: Window, pos: nat, out: seq<Word>, e: Emission, target: int)
    requires Placed(win) && Appended(out, pos, e)
    requires e == Emission(if OutputAddress(win, pos + 2) % 8 == 0 then 1 else 0, [LDR_X17_12, ADR_X30_16, BR_X17] + LiteralWords(target), None)
    ensures |out| == pos + e.pad + 5 && LongCall(win, out, pos + e.pad, target)
  {
    var n := pos + e.pad;
    assert out[n] == e.words[0] && out[n + 1] == e.words[1] && out[n + 2] == e.words[2];
    assert out[n + 3] == e.words[3] && out[n + 4] == e.words[4];
    LiteralAppended(win, out, n + 3, target);
    Aligned(win, pos + 2, e.pad + 1);
  }

  /** Every second word is aligned for a 64-bit load. */
  lemma Aligned(win: Window, pos: nat, k: nat)
    requires Placed(win) && (k % 2 == 0 <==> OutputAddress(win, pos) % 8 == 0)
    ensures OutputAddress(win, pos + k) % 8 == 0
  {
    var b := win.dst / 4 + pos;
    assert OutputAddress(win, pos) == 4 * b && OutputAddress(win, pos + k) == 4 * (b + k);
    EvenWords(b);
    EvenWords(b + k);
    EvenSum(b, k);
  }

  lemma EvenSum(b: int, k: int)
    ensures (b + k) % 2 == 0 <==> (b % 2 == 0 <==> k % 2 == 0)
  {
    assert b == 2 * (b / 2) + b % 2 && k == 2 * (k / 2) + k % 2;
    assert b + k == 2 * (b / 2 + k / 2) + (b % 2 + k % 2);
  }

  lemma EvenWords(b: int)
    ensures 4 * b % 8 == 0 <==> b % 2 == 0
  {
    var q := b / 2;
    assert 4 * b == 8 * q || 4 * b == 8 * q + 4;
  }

  lemma CondEmission(win: Window, i: nat, pos: nat, entry: seq<nat>, lmask: Word, out: seq<Word>)
    requires Fits(win, i, pos, entry) && !IsBranchImm(win.code[i]) && CondMask(win.code[i]) == Some(lmask)
    requires Appended(out, pos, EmitCondBranch(win, i, pos, entry, lmask))
    ensures var e := EmitCondBranch(win, i, pos, entry, lmask);
      if ForwardOf(win, i).Some? then Awaiting(win, out, i, pos, pos + e.pad, |out|)
      else Block(win, out, entry + [pos + e.pad], i, pos, pos + e.pad, |out|)
  {
    hide Decode, And, OrBits, SignExtend;
    var e := EmitCondBranch(win, i, pos, entry, lmask);
    var w := win.code[i];
    var target := CondTarget(win, i, lmask);
    CondTargetIs(win, i, lmask);
    CondAlignment(win, i, lmask);
    Wholes(win, target, pos);
    var n := pos + e.pad;
    assert out[n] == e.words[0];
    if !InRange(win, target) {
      if |e.words| == 1 {
        CondWord(w, lmask, Asr(target - OutputAddress(win, pos), 4));
      } else {
        CondWord(w, lmask, 2);
        LongCondEmission(win, pos, out, e, w, lmask, target);
      }
    } else {
      var j := RefIndex(win, target);
      if j <= i {
        BackwardOffset(win, i, pos, entry, j);
        CondWord(w, lmask, InWindowOffset(win, i, pos, entry, j));
      } else {
        PatchedCondWord(w, lmask, 0);
      }
    }
  }

  lemma CondAlignment(win: Window, i: nat, lmask: Word)
    requires i < |win.code| && Placed(win) && CondMask(win.code[i]) == Some(lmask)
    ensures CondTarget(win, i, lmask) % 4 == 0
  {
    hide Decode, And, OrBits, SignExtend;
    CondTargetIs(win, i, lmask);
    DecodedOffset(win.code[i]);
  }

  lemma LongCondEmission(win: Window, pos: nat, out: seq<Word>, e: Emission, w: Word, lmask: Word, target: int)
    requires Placed(win) && CondMask(w) == Some(lmask) && Appended(out, pos, e)
    requires Decode(w).CondBranch?
    requires Decode(Or(And(64, 0xffff_ffff - lmask), And(w, lmask))) == CondBranch(Decode(w).key, 8)
    requires e == Emission(if OutputAddress(win, pos + 4) % 8 != 0 then 1 else 0,
        [Or(And(64, 0xffff_ffff - lmask), And(w, lmask)), 0x1400_0005, LDR_X17_8, BR_X17] + LiteralWords(target), None)
    ensures |out| == pos + e.pad + 6 && LongCond(win, out, pos + e.pad, Decode(w).key, target)
  {
    hide Decode, And, OrBits, SignExtend;
    var n := pos + e.pad;
    assert out[n] == e.words[0] && out[n + 1] == e.words[1] && out[n + 2] == e.words[2] && out[n + 3] == e.words[3];
    assert out[n + 4] == e.words[4] && out[n + 5] == e.words[5];
    LiteralAppended(win, out, n + 4, target);
    Aligned(win, pos + 4, e.pad);
  }

  /** The other instructions, whose words are copied or whose work the layout does not describe. */
  lemma OtherEmission(win: Window, i: nat, pos: nat, entry: seq<nat>, out: seq<Word>)
    requires Fits(win, i, pos, entry) && !IsBranchImm(win.code[i]) && CondMask(win.code[i]).None?
    requires Appended(out, pos, Emit(win, i, pos, entry))
    ensures var e := Emit(win, i, pos, entry);
      if ForwardOf(win, i).Some? then Awaiting(win, out, i, pos, pos + e.pad, |out|)
      else Block(win, out, entry + [pos + e.pad], i, pos, pos + e.pad, |out|)
  {
    hide And, OrBits;
    var w := win.code[i];
    BranchImmClass(w);
    CondBranchClass(w);
    LiteralClasses(w);
    AddressClasses(w);
    DecodeOther(w);
    var e := Emit(win, i, pos, entry);
    if Decode(w) == A64.Nop || Decode(w).Plain? {
      assert out[pos] == e.words[0];
    }
  }

  /** Words outside the relocated classes. */
  lemma DecodeOther(w: Word)
    requires !IsBranch19(w) && !IsBranch14(w) && w / 0x100_0000 / 4 != 0x05 && w / 0x100_0000 / 4 != 0x25
    ensures !Decode(w).Branch? && !Decode(w).BranchLink? && !Decode(w).CondBranch?
    ensures Decode(w).Prefetch? ==> w / 0x100_0000 == 0xd8
    ensures w / 0x100_0000 == 0xd8 ==> Decode(w).Prefetch?
    ensures Decode(w).Plain? || Decode(w) == A64.Nop ==> !IsLoadLiteral(w) && !IsAdr(w) && !IsAdrp(w)
  {
  }

  /** Every emission leaves a finished block, or one that awaits a later instruction. */
  lemma Emitted(win: Window, i: nat, pos: nat, entry: seq<nat>, out: seq<Word>)
    requires Fits(win, i, pos, entry) && Appended(out, pos, Emit(win, i, pos, entry))
    ensures var e := Emit(win, i, pos, entry);
      if ForwardOf(win, i).Some? then Awaiting(win, out, i, pos, pos + e.pad, |out|)
      else Block(win, out, entry + [pos + e.pad], i, pos, pos + e.pad, |out|)
  {
    hide Decode, And, OrBits, SignExtend;
    var w := win.code[i];
    if IsBranchImm(w) {
      BranchEmission(win, i, pos, entry, out);
    } else if CondMask(w).Some? {
      CondEmission(win, i, pos, entry, CondMask(w).value, out);
    } else {
      OtherEmission(win, i, pos, entry, out);
    }
  }
}
