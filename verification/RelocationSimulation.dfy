/** Running the relocated code does what running the window at its old place does. X17 is scratch, and a
    return address into the window is the address behind the relocated call instead. */
module RelocationSimulation {
  import opened Words
  import opened A64
  import opened Options
  import opened Relocation
  import opened RelocationWords
  import opened RelocationLayout
  import opened RelocationEmission
  import opened RelocationInvariant

  /** Branches, prefetches and instructions without a PC-relative operand. */
  predicate Supported(win: Window) {
    forall i :: 0 <= i < |win.code| ==> SupportedWord(win.code[i])
  }

  predicate SupportedWord(w: Word) {
    var d := Decode(w);
    d.Branch? || d.BranchLink? || d.CondBranch? || d.Prefetch? || d == A64.Nop || d.Plain?
  }

  /** The window as it was in memory before the hook overwrote it. */
  ghost predicate Original(win: Window, mem: int -> Word) {
    forall i :: 0 <= i < |win.code| ==> mem(SourceAddress(win, i)) == win.code[i]
  }

  /** The memory that holds the relocated code. */
  ghost predicate Installed(win: Window, mem: int -> Word)
    requires |win.code| <= MAX_INSTRUCTIONS
  {
    forall k :: 0 <= k < |Relocated(win)| ==> mem(OutputAddress(win, k)) == Relocated(win)[k]
  }

  /** The boundary before instruction k of the window, or behind its last one, and the same boundary of the
      relocated code. */
  ghost predicate BoundaryAt(win: Window, a: int, a': int, k: nat)
    requires k <= |win.code| <= MAX_INSTRUCTIONS
  {
    a == SourceAddress(win, k) && a' == OutputAddress(win, Final(win).start[k])
  }

  ghost predicate Boundary(win: Window, a: int, a': int)
    requires |win.code| <= MAX_INSTRUCTIONS
  {
    exists k :: 0 <= k <= |win.code| && BoundaryAt(win, a, a', k)
  }

  /** The instructions that leave a return address in X30: BL, and those such as BLR. */
  ghost predicate Calls<R>(win: Window, isa: Isa<R>, k: nat)
    requires k < |win.code|
  {
    var w := win.code[k];
    Decode(w).BranchLink? || (Decode(w).Plain? && isa.links(w))
  }

  /** The return address of a call in the window, and that of its relocated copy. */
  ghost predicate Returns<R>(win: Window, isa: Isa<R>, a: int, a': int)
    requires |win.code| <= MAX_INSTRUCTIONS
  {
    exists k :: 0 <= k < |win.code| && Calls(win, isa, k) && BoundaryAt(win, a, a', k + 1)
  }

  /** Equal registers, but for X17 and for the return addresses of calls in the window. */
  ghost predicate SameRegs<R>(win: Window, isa: Isa<R>, r: Regs<R>, r': Regs<R>)
    requires |win.code| <= MAX_INSTRUCTIONS
  {
    r.rest == r'.rest && (r.x30 == r'.x30 || Returns(win, isa, r.x30, r'.x30))
  }

  /** The same address outside the window, or a return to the window. */
  ghost predicate SameJump<R>(win: Window, isa: Isa<R>, a: int, a': int)
    requires |win.code| <= MAX_INSTRUCTIONS
  {
    (a == a' && !InRange(win, a)) || Returns(win, isa, a, a')
  }

  ghost predicate SameEffect<R>(win: Window, isa: Isa<R>, e: Effect<R>, e': Effect<R>)
    requires |win.code| <= MAX_INSTRUCTIONS
  {
    && SameRegs(win, isa, e.regs, e'.regs)
    && (e.jump.None? <==> e'.jump.None?)
    && (e.jump.Some? ==> SameJump(win, isa, e.jump.value, e'.jump.value))
  }

  /** What an instruction does in these registers does not depend on X17, does not take the return address of
      a call in the window apart, and is no jump into the window other than a return. */
  ghost predicate ObliviousIn<R(!new)>(win: Window, isa: Isa<R>, w: Word, r: Regs<R>)
    requires |win.code| <= MAX_INSTRUCTIONS
  {
    forall r': Regs<R> :: SameRegs(win, isa, r, r') ==>
      && (Decode(w).CondBranch? ==> isa.taken(Decode(w).key, r) == isa.taken(Decode(w).key, r'))
      && (Decode(w).Plain? ==> SameEffect(win, isa, isa.plain(w, r), isa.plain(w, r')))
  }

  /** The same for the instruction that the original is at, if it is in the window. */
  ghost predicate Oblivious<R(!new)>(win: Window, isa: Isa<R>, c: Cpu<R>)
    requires |win.code| <= MAX_INSTRUCTIONS
  {
    InRange(win, c.pc) ==> ObliviousIn(win, isa, win.code[RefIndex(win, c.pc)], c.regs)
  }

  /** The two machines are at the same point: at an instruction and its relocated copy, or both outside. */
  ghost predicate Together<R>(win: Window, isa: Isa<R>, c: Cpu<R>, c': Cpu<R>)
    requires |win.code| <= MAX_INSTRUCTIONS
  {
    && SameRegs(win, isa, c.regs, c'.regs)
    && if InRange(win, c.pc) then
         c.pc % 4 == win.src % 4 && c'.pc == OutputAddress(win, Final(win).entry[RefIndex(win, c.pc)])
       else c.pc == c'.pc
  }

  /** The same, where the second machine may still have the alignment NOPs or the jump back ahead of it. */
  ghost predicate Nearly<R>(win: Window, isa: Isa<R>, c: Cpu<R>, c': Cpu<R>)
    requires |win.code| <= MAX_INSTRUCTIONS
  {
    && SameRegs(win, isa, c.regs, c'.regs)
    && (Boundary(win, c.pc, c'.pc) || Together(win, isa, c, c'))
  }

  // ---------- the words in place ----------

  /** The words of `out` are in memory at the destination. */
  ghost predicate Holds(win: Window, mem: int -> Word, out: seq<Word>) {
    && Placed(win) && |out| <= 50
    && forall k :: 0 <= k < |out| ==> mem(OutputAddress(win, k)) == out[k]
  }

  lemma Unwrapped(win: Window, i: nat)
    requires Placed(win) && i <= 60
    ensures Wrap(SourceAddress(win, i)) == SourceAddress(win, i)
    ensures Wrap(OutputAddress(win, i)) == OutputAddress(win, i)
  {
  }

  function JoinLiteral(lo: int, hi: int): int {
    lo + 0x1_0000_0000 * hi
  }

  /** A 64-bit load reads back the literal. */
  lemma LiteralValue(a: int)
    ensures JoinLiteral(LiteralWords(a)[0], LiteralWords(a)[1]) == Wrap(a)
  {
    var q, r := a / 0x1_0000_0000, a % 0x1_0000_0000;
    var c, d := q / 0x1_0000_0000, q % 0x1_0000_0000;
    assert a == (c * 0x1_0000_0000 + d) * 0x1_0000_0000 + r;
    assert a == c * 0x1_0000_0000_0000_0000 + (d * 0x1_0000_0000 + r);
  }

  lemma LoadLiteral(win: Window, mem: int -> Word, out: seq<Word>, k: nat, a: int)
    requires Holds(win, mem, out) && LiteralAt(out, k, a)
    ensures Load64(mem, OutputAddress(win, k)) == Wrap(a)
  {
    hide Wrap;
    assert out[k..k + 2][0] == out[k] && out[k..k + 2][1] == out[k + 1];
    assert OutputAddress(win, k) + 4 == OutputAddress(win, k + 1);
    LiteralValue(a);
  }

  // ---------- single instructions at the destination ----------

  lemma StepNop<R>(win: Window, isa: Isa<R>, mem: int -> Word, out: seq<Word>, n: nat, c: Cpu<R>)
    requires Holds(win, mem, out) && n < |out| && c.pc == OutputAddress(win, n) && Decode(out[n]) == A64.Nop
    ensures Step(isa, mem, c) == Cpu(OutputAddress(win, n + 1), c.regs)
  {
    hide Decode;
    Unwrapped(win, n + 1);
  }

  lemma StepLoad<R>(win: Window, isa: Isa<R>, mem: int -> Word, out: seq<Word>, n: nat, j: nat, a: int, c: Cpu<R>)
    requires Holds(win, mem, out) && n < |out| && c.pc == OutputAddress(win, n) && Decode(out[n]) == LoadX17(4 * j)
    requires LiteralAt(out, n + j, a)
    ensures Step(isa, mem, c) == Cpu(OutputAddress(win, n + 1), c.regs.(x17 := Wrap(a)))
  {
    hide Decode, Load64, LiteralAt, Wrap;
    Unwrapped(win, n + 1);
    LoadLiteral(win, mem, out, n + j, a);
    assert c.pc + 4 * j == OutputAddress(win, n + j);
    assert c.pc + 4 == OutputAddress(win, n + 1);
  }

  lemma StepAddress<R>(win: Window, isa: Isa<R>, mem: int -> Word, out: seq<Word>, n: nat, j: nat, c: Cpu<R>)
    requires Holds(win, mem, out) && n < |out| && c.pc == OutputAddress(win, n) && Decode(out[n]) == AddressX30(4 * j) && j <= 9
    ensures Step(isa, mem, c) == Cpu(OutputAddress(win, n + 1), c.regs.(x30 := OutputAddress(win, n + j)))
  {
    hide Decode;
    Unwrapped(win, n + 1);
    Unwrapped(win, n + j);
  }

  lemma StepBranchX17<R>(win: Window, isa: Isa<R>, mem: int -> Word, out: seq<Word>, n: nat, c: Cpu<R>)
    requires Holds(win, mem, out) && n < |out| && c.pc == OutputAddress(win, n) && Decode(out[n]) == BranchX17
    ensures Step(isa, mem, c) == Cpu(c.regs.x17, c.regs)
  {
    hide Decode;
  }

  lemma StepCond<R>(win: Window, isa: Isa<R>, mem: int -> Word, out: seq<Word>, n: nat, key: Word, off: int, c: Cpu<R>)
    requires Holds(win, mem, out) && n < |out| && c.pc == OutputAddress(win, n) && Decode(out[n]) == CondBranch(key, off)
    ensures Step(isa, mem, c)
         == Cpu(if isa.taken(key, c.regs) then Wrap(OutputAddress(win, n) + off) else OutputAddress(win, n + 1), c.regs)
  {
    hide Decode;
    Unwrapped(win, n + 1);
  }

  lemma StepBranch<R>(win: Window, isa: Isa<R>, mem: int -> Word, out: seq<Word>, n: nat, off: int, c: Cpu<R>)
    requires Holds(win, mem, out) && n < |out| && c.pc == OutputAddress(win, n) && Decode(out[n]) == Branch(off)
    ensures Step(isa, mem, c) == Cpu(Wrap(OutputAddress(win, n) + off), c.regs)
  {
    hide Decode;
  }

  // ---------- runs of a few instructions ----------

  lemma RunTwo<R>(isa: Isa<R>, mem: int -> Word, c: Cpu<R>)
    ensures Run(isa, mem, c, 1) == Step(isa, mem, c)
    ensures Run(isa, mem, c, 2) == Step(isa, mem, Step(isa, mem, c))
  {
    hide Step;
  }

  lemma RunFirst<R>(isa: Isa<R>, mem: int -> Word, c: Cpu<R>, k: nat)
    requires k > 0
    ensures Run(isa, mem, c, k) == Run(isa, mem, Step(isa, mem, c), k - 1)
  {
    hide Step;
  }

  /** LDR X17 and BR X17 jump to the literal. */
  lemma RunLongJump<R>(win: Window, isa: Isa<R>, mem: int -> Word, out: seq<Word>, n: nat, a: int, c: Cpu<R>)
    requires Holds(win, mem, out) && LongJump(win, out, n, a) && c.pc == OutputAddress(win, n)
    ensures Run(isa, mem, c, 2) == Cpu(Wrap(a), c.regs.(x17 := Wrap(a)))
  {
    hide Decode, Step, Run, Wrap, LiteralAt, Holds;
    LongFormWords();
    StepLoad(win, isa, mem, out, n, 2, a, c);
    StepBranchX17(win, isa, mem, out, n + 1, Step(isa, mem, c));
    RunTwo(isa, mem, c);
  }

  /** LDR X17, ADR X30 and BR X17 call the literal. */
  lemma RunLongCall<R>(win: Window, isa: Isa<R>, mem: int -> Word, out: seq<Word>, n: nat, a: int, c: Cpu<R>)
    requires Holds(win, mem, out) && LongCall(win, out, n, a) && c.pc == OutputAddress(win, n)
    ensures Run(isa, mem, c, 3) == Cpu(Wrap(a), c.regs.(x17 := Wrap(a), x30 := OutputAddress(win, n + 5)))
  {
    hide Decode, Step, Run, Wrap, LiteralAt, Holds;
    LongFormWords();
    StepLoad(win, isa, mem, out, n, 3, a, c);
    var d := Step(isa, mem, c);
    StepAddress(win, isa, mem, out, n + 1, 4, d);
    StepBranchX17(win, isa, mem, out, n + 2, Step(isa, mem, d));
    RunTwo(isa, mem, d);
    RunFirst(isa, mem, c, 3);
  }

  /** The long conditional branch: through the literal if the condition holds, over it if not. */
  lemma RunLongCond<R>(win: Window, isa: Isa<R>, mem: int -> Word, out: seq<Word>, n: nat, key: Word, a: int, c: Cpu<R>)
    requires Holds(win, mem, out) && LongCond(win, out, n, key, a) && c.pc == OutputAddress(win, n)
    ensures isa.taken(key, c.regs) ==> Run(isa, mem, c, 3) == Cpu(Wrap(a), c.regs.(x17 := Wrap(a)))
    ensures !isa.taken(key, c.regs) ==> Run(isa, mem, c, 2) == Cpu(OutputAddress(win, n + 6), c.regs)
  {
    hide Decode, Step, Run, Wrap, LiteralAt, LongJump;
    LongFormWords();
    StepCond(win, isa, mem, out, n, key, 8, c);
    var d := Step(isa, mem, c);
    if isa.taken(key, c.regs) {
      Unwrapped(win, n + 2);
      assert OutputAddress(win, n) + 8 == OutputAddress(win, n + 2);
      RunLongJump(win, isa, mem, out, n + 2, a, d);
      RunFirst(isa, mem, c, 3);
    } else {
      Unwrapped(win, n + 6);
      assert OutputAddress(win, n + 1) + 20 == OutputAddress(win, n + 6);
      StepBranch(win, isa, mem, out, n + 1, 20, d);
      RunTwo(isa, mem, c);
    }
  }

  /** A run over NOPs changes nothing but the program counter. */
  lemma {:induction false} RunNops<R>(win: Window, isa: Isa<R>, mem: int -> Word, out: seq<Word>, s: nat, n: nat, c: Cpu<R>)
    requires Holds(win, mem, out) && s <= n <= |out| && c.pc == OutputAddress(win, s)
    requires forall p :: s <= p < n ==> out[p] == NOP
    ensures Run(isa, mem, c, n - s) == Cpu(OutputAddress(win, n), c.regs)
    decreases n - s
  {
    hide Decode, Step, Holds;
    if s < n {
      LongFormWords();
      StepNop(win, isa, mem, out, s, c);
      RunNops(win, isa, mem, out, s + 1, n, Step(isa, mem, c));
    }
  }
}
