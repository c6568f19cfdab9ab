/** What the simulation says for the windows that hooks are put on: code without calls, a function prologue, and
    code that calls and returns. */
module RelocationCases {
  import opened Words
  import opened A64
  import opened Options
  import opened Relocation
  import opened RelocationInvariant
  import opened RelocationLayout
  import opened RelocationSimulation
  import opened RelocationTheorem

  // ---------- windows without calls ----------

  ghost predicate CallFree<R>(win: Window, isa: Isa<R>) {
    forall k :: 0 <= k < |win.code| ==> !Calls(win, isa, k)
  }

  /** Equal registers, but for X17. */
  predicate ButX17<R(==)>(r: Regs<R>, r': Regs<R>) {
    r.x30 == r'.x30 && r.rest == r'.rest
  }

  predicate ButX17Cpu<R(==)>(c: Cpu<R>, c': Cpu<R>) {
    c.pc == c'.pc && ButX17(c.regs, c'.regs)
  }

  /** An instruction that neither looks at X17 nor computes its jump from it. */
  ghost predicate IgnoresX17<R(!new)>(isa: Isa<R>, w: Word) {
    forall r: Regs<R>, r': Regs<R> {:trigger ButX17(r, r')} :: ButX17(r, r') ==>
      && (Decode(w).CondBranch? ==> isa.taken(Decode(w).key, r) == isa.taken(Decode(w).key, r'))
      && ButX17(isa.plain(w, r).regs, isa.plain(w, r').regs) && isa.plain(w, r).jump == isa.plain(w, r').jump
  }

  /** The original is in the window, and does not compute a jump into it. */
  ghost predicate Inside<R>(win: Window, isa: Isa<R>, c: Cpu<R>) {
    && InRange(win, c.pc)
    && var w := win.code[RefIndex(win, c.pc)];
       var jump := isa.plain(w, c.regs).jump;
       Decode(w).Plain? && jump.Some? ==> !InRange(win, jump.value)
  }

  ghost predicate StaysInside<R>(win: Window, isa: Isa<R>, before: int -> Word, c: Cpu<R>, m: nat) {
    forall h :: 0 <= h < m ==> Inside(win, isa, Run(isa, before, c, h))
  }

  lemma CallFreeRegs<R>(win: Window, isa: Isa<R>, r: Regs<R>, r': Regs<R>)
    requires |win.code| <= MAX_INSTRUCTIONS && CallFree(win, isa)
    ensures SameRegs(win, isa, r, r') <==> ButX17(r, r')
  {
    hide Calls;
  }

  lemma CallFreeJump<R>(win: Window, isa: Isa<R>, a: int, a': int)
    requires |win.code| <= MAX_INSTRUCTIONS && CallFree(win, isa)
    ensures SameJump(win, isa, a, a') <==> a == a' && !InRange(win, a)
  {
    hide Calls;
  }

  lemma CallFreeAt<R(!new)>(win: Window, isa: Isa<R>, c: Cpu<R>)
    requires |win.code| <= MAX_INSTRUCTIONS && CallFree(win, isa)
    requires forall i :: 0 <= i < |win.code| ==> IgnoresX17(isa, win.code[i])
    ensures FollowsAt(win, isa, c) <==> Inside(win, isa, c)
  {
    hide Decode, CallFree, SameJump, SameRegs;
    if InRange(win, c.pc) {
      var w, r := win.code[RefIndex(win, c.pc)], c.regs;
      CallFreeRegs(win, isa, r, r);
      if Decode(w).Plain? && isa.plain(w, r).jump.Some? {
        CallFreeJump(win, isa, isa.plain(w, r).jump.value, isa.plain(w, r).jump.value);
      }
      if Inside(win, isa, c) {
        forall r': Regs<R> | SameRegs(win, isa, r, r')
          ensures Decode(w).CondBranch? ==> isa.taken(Decode(w).key, r) == isa.taken(Decode(w).key, r')
          ensures Decode(w).Plain? ==> SameEffect(win, isa, isa.plain(w, r), isa.plain(w, r'))
        {
          CallFreeRegs(win, isa, r, r');
          CallFreeRegs(win, isa, isa.plain(w, r).regs, isa.plain(w, r').regs);
        }
      }
    }
  }

  /** In a window without calls whose instructions ignore X17, the hypothesis of the simulation says no more than
      that the run stays in the window and computes no jump into it. */
  lemma CallFreeFollows<R(!new)>(win: Window, isa: Isa<R>, before: int -> Word, c: Cpu<R>, m: nat)
    requires |win.code| <= MAX_INSTRUCTIONS && CallFree(win, isa)
    requires forall i :: 0 <= i < |win.code| ==> IgnoresX17(isa, win.code[i])
    ensures Follows(win, isa, before, c, m) <==> StaysInside(win, isa, before, c, m)
  {
    hide FollowsAt, Inside, CallFree, IgnoresX17, Step;
    if Follows(win, isa, before, c, m) {
      forall h | 0 <= h < m
        ensures Inside(win, isa, Run(isa, before, c, h))
      {
        assert FollowsAt(win, isa, Run(isa, before, c, h));
        CallFreeAt(win, isa, Run(isa, before, c, h));
      }
    }
    if StaysInside(win, isa, before, c, m) {
      forall h | 0 <= h < m
        ensures FollowsAt(win, isa, Run(isa, before, c, h))
      {
        assert Inside(win, isa, Run(isa, before, c, h));
        CallFreeAt(win, isa, Run(isa, before, c, h));
      }
    }
  }

  /** When such a run leaves the window, the relocated code is at the same address in the same state, but for X17. */
  lemma CallFreeSimulates<R(!new)>(win: Window, isa: Isa<R>, before: int -> Word, after: int -> Word, regs: Regs<R>, m: nat)
    requires Placed(win) && Supported(win) && Original(win, before) && Installed(win, after) && CallFree(win, isa)
    requires forall i :: 0 <= i < |win.code| ==> IgnoresX17(isa, win.code[i])
    requires StaysInside(win, isa, before, Cpu(win.src, regs), m)
    requires !InRange(win, Run(isa, before, Cpu(win.src, regs), m).pc)
    ensures exists k :: ButX17Cpu(Run(isa, before, Cpu(win.src, regs), m), Run(isa, after, Cpu(win.dst, regs), k))
  {
    hide Follows, Inside, CallFree, IgnoresX17, Run, Supported, Original, Installed;
    var c := Cpu(win.src, regs);
    CallFreeFollows(win, isa, before, c, m);
    RelocationSimulates(win, isa, before, after, regs, m);
    var k :| Together(win, isa, Run(isa, before, c, m), Run(isa, after, Cpu(win.dst, regs), k));
    var d, d' := Run(isa, before, c, m), Run(isa, after, Cpu(win.dst, regs), k);
    CallFreeRegs(win, isa, d.regs, d'.regs);
    assert ButX17Cpu(d, d');
  }

  // ---------- a machine with a stack ----------

  const PACIASP: Word := 0xd503_233f
  const STP_FP_LR: Word := 0xa9bf_7bfd
  const MOV_FP_SP: Word := 0x9100_03fd
  const BLR_X16: Word := 0xd63f_0200
  const LDP_FP_LR: Word := 0xa8c1_7bfd
  const RET: Word := 0xd65f_03c0

  datatype Rest = Rest(sp: int, fp: int, x16: int, memory: map<int, int>)

  function Read(memory: map<int, int>, a: int): int {
    if a in memory then memory[a] else 0
  }

  /** The instructions of a prologue, of a call through a register and of an epilogue; `sign` is the pointer
      signature of an address under a stack pointer. */
  function Execute(sign: (int, int) -> int, w: Word, r: Regs<Rest>): Effect<Rest> {
    var s := r.rest;
    if w == PACIASP then Effect(r.(x30 := sign(r.x30, s.sp)), None)
    else if w == STP_FP_LR then
      Effect(r.(rest := s.(sp := s.sp - 16, memory := s.memory[s.sp - 16 := s.fp][s.sp - 8 := r.x30])), None)
    else if w == MOV_FP_SP then Effect(r.(rest := s.(fp := s.sp)), None)
    else if w == BLR_X16 then Effect(r, Some(s.x16))
    else if w == LDP_FP_LR then
      Effect(r.(x30 := Read(s.memory, s.sp + 8), rest := s.(sp := s.sp + 16, fp := Read(s.memory, s.sp))), None)
    else if w == RET then Effect(r, Some(r.x30))
    else Effect(r, None)
  }

  function Machine(sign: (int, int) -> int): Isa<Rest> {
    Isa((key, r) => false, (w, r) => Execute(sign, w, r), w => w == BLR_X16, (w, c) => c)
  }

  lemma Decoded()
    ensures Decode(PACIASP).Plain? && Decode(STP_FP_LR).Plain? && Decode(MOV_FP_SP).Plain?
    ensures Decode(BLR_X16).Plain? && Decode(LDP_FP_LR).Plain? && Decode(RET).Plain?
  {
  }

  // ---------- a prologue ----------

  /** A prologue that signs and stores the link register runs the same at its new place: what it stores is what the
      caller of the hooked function left, and control ends behind the window. */
  lemma PrologueIsRelocated(win: Window, sign: (int, int) -> int, before: int -> Word, after: int -> Word, r: Regs<Rest>)
    requires Placed(win) && win.code == [PACIASP, STP_FP_LR, MOV_FP_SP]
    requires Original(win, before) && Installed(win, after)
    ensures exists k :: ButX17Cpu(Cpu(win.src + 12, AfterPrologue(sign, r)), Run(Machine(sign), after, Cpu(win.dst, r), k))
  {
    hide Decode, Wrap, Installed, Original, Run, Execute, Inside, IgnoresX17;
    var isa := Machine(sign);
    Decoded();
    PrologueRuns(win, sign, before, r);
    forall i | 0 <= i < |win.code|
      ensures IgnoresX17(isa, win.code[i])
    {
      MachineIgnoresX17(sign, win.code[i]);
    }
    assert Supported(win) && CallFree(win, isa);
    CallFreeSimulates(win, isa, before, after, r, 3);
  }

  function AfterPrologue(sign: (int, int) -> int, r: Regs<Rest>): Regs<Rest> {
    var s, lr := r.rest, sign(r.x30, r.rest.sp);
    Regs(r.x17, lr, Rest(s.sp - 16, s.sp - 16, s.x16, s.memory[s.sp - 16 := s.fp][s.sp - 8 := lr]))
  }

  lemma ExecuteIgnoresX17(sign: (int, int) -> int, w: Word, r: Regs<Rest>, r': Regs<Rest>)
    requires ButX17(r, r')
    ensures ButX17(Execute(sign, w, r).regs, Execute(sign, w, r').regs)
    ensures Execute(sign, w, r).jump == Execute(sign, w, r').jump
  {
  }

  lemma MachineIgnoresX17(sign: (int, int) -> int, w: Word)
    ensures IgnoresX17(Machine(sign), w)
  {
    hide Decode, Execute, ButX17;
    forall r: Regs<Rest>, r': Regs<Rest> | ButX17(r, r')
      ensures ButX17(Execute(sign, w, r).regs, Execute(sign, w, r').regs)
      ensures Execute(sign, w, r).jump == Execute(sign, w, r').jump
    {
      ExecuteIgnoresX17(sign, w, r, r');
    }
  }

  /** One instruction of the window without a PC-relative operand. */
  lemma PlainStep(win: Window, sign: (int, int) -> int, before: int -> Word, i: nat, r: Regs<Rest>)
    requires Placed(win) && Original(win, before) && i < |win.code| && Decode(win.code[i]).Plain?
    requires win.code[i] != BLR_X16 && win.code[i] != RET
    ensures var isa, c, e := Machine(sign), Cpu(SourceAddress(win, i), r), Execute(sign, win.code[i], r);
      Inside(win, isa, c) && Step(isa, before, c) == Cpu(SourceAddress(win, i + 1), e.regs)
  {
    hide Decode;
    Unwrapped(win, i + 1);
    IndexOf(win, i);
  }

  lemma PrologueRuns(win: Window, sign: (int, int) -> int, before: int -> Word, r: Regs<Rest>)
    requires Placed(win) && win.code == [PACIASP, STP_FP_LR, MOV_FP_SP] && Original(win, before)
    ensures var isa, c := Machine(sign), Cpu(win.src, r);
      && StaysInside(win, isa, before, c, 3)
      && Run(isa, before, c, 3) == Cpu(win.src + 12, AfterPrologue(sign, r))
  {
    hide Decode, Step, Inside, Original, Execute;
    var isa, c := Machine(sign), Cpu(win.src, r);
    Decoded();
    var r1 := Execute(sign, PACIASP, r).regs;
    var r2 := Execute(sign, STP_FP_LR, r1).regs;
    PlainStep(win, sign, before, 0, r);
    PlainStep(win, sign, before, 1, r1);
    PlainStep(win, sign, before, 2, r2);
    RunThree(isa, before, c);
    PrologueEffect(sign, r);
  }

  lemma PrologueEffect(sign: (int, int) -> int, r: Regs<Rest>)
    ensures Execute(sign, MOV_FP_SP, Execute(sign, STP_FP_LR, Execute(sign, PACIASP, r).regs).regs).regs == AfterPrologue(sign, r)
  {
  }

  lemma RunThree<R>(isa: Isa<R>, mem: int -> Word, c: Cpu<R>)
    ensures Run(isa, mem, c, 0) == c && Run(isa, mem, c, 1) == Step(isa, mem, c)
    ensures Run(isa, mem, c, 2) == Step(isa, mem, Step(isa, mem, c))
    ensures Run(isa, mem, c, 3) == Step(isa, mem, Step(isa, mem, Step(isa, mem, c)))
  {
    hide Step;
    RunTwo(isa, mem, c);
    RunTwo(isa, mem, Step(isa, mem, c));
    RunFirst(isa, mem, c, 3);
  }

  // ---------- a call and a return ----------

  const CALL_AND_RETURN: seq<Word> := [BLR_X16, LDP_FP_LR, RET]

  /** The only return address that this window makes is the one behind its first instruction. */
  lemma OneReturn(win: Window, sign: (int, int) -> int, a: int, a': int)
    requires |win.code| <= MAX_INSTRUCTIONS && win.code == CALL_AND_RETURN
    ensures Returns(win, Machine(sign), a, a') <==> BoundaryAt(win, a, a', 1)
  {
    hide BoundaryAt;
    Decoded();
    assert Calls(win, Machine(sign), 0);
  }

  /** An instruction that computes no jump, and does the same to registers that differ in X17 and X30 only. */
  lemma LoadsAreOblivious(win: Window, sign: (int, int) -> int, r: Regs<Rest>)
    requires |win.code| <= MAX_INSTRUCTIONS
    ensures ObliviousIn(win, Machine(sign), LDP_FP_LR, r)
  {
    hide Returns;
    Decoded();
  }

  lemma CallIsOblivious(win: Window, sign: (int, int) -> int, r: Regs<Rest>)
    requires |win.code| <= MAX_INSTRUCTIONS && !InRange(win, r.rest.x16)
    ensures ObliviousIn(win, Machine(sign), BLR_X16, r)
  {
    hide Returns;
    Decoded();
  }

  lemma ReturnIsOblivious(win: Window, sign: (int, int) -> int, r: Regs<Rest>)
    requires |win.code| <= MAX_INSTRUCTIONS && !InRange(win, r.x30)
    ensures ObliviousIn(win, Machine(sign), RET, r)
  {
    hide Returns;
    Decoded();
  }

  /** BLR reaches its callee with the return address behind the relocated call. */
  lemma CallIsRelocated(win: Window, sign: (int, int) -> int, before: int -> Word, after: int -> Word, r: Regs<Rest>)
    requires Placed(win) && win.code == CALL_AND_RETURN && Original(win, before) && Installed(win, after)
    requires !InRange(win, r.rest.x16)
    ensures exists k :: Together(win, Machine(sign), Cpu(r.rest.x16, r.(x30 := win.src + 4)), Run(Machine(sign), after, Cpu(win.dst, r), k))
  {
    hide Decode, Installed, ObliviousIn, Together, Run;
    var isa, c := Machine(sign), Cpu(win.src, r);
    Decoded();
    Unwrapped(win, 1);
    IndexOf(win, 0);
    CallIsOblivious(win, sign, r);
    RunThree(isa, before, c);
    assert before(win.src) == win.code[0] by {
      assert SourceAddress(win, 0) == win.src;
    }
    assert Step(isa, before, c) == Cpu(r.rest.x16, r.(x30 := win.src + 4));
    assert FollowsAt(win, isa, Run(isa, before, c, 0));
    RelocationSimulates(win, isa, before, after, r, 1);
  }

  function AfterReturn(r: Regs<Rest>): Regs<Rest> {
    var s := r.rest;
    Regs(r.x17, Read(s.memory, s.sp + 8), s.(sp := s.sp + 16, fp := Read(s.memory, s.sp)))
  }

  lemma ReturnRuns(win: Window, sign: (int, int) -> int, before: int -> Word, r: Regs<Rest>)
    requires Placed(win) && win.code == CALL_AND_RETURN && Original(win, before) && !InRange(win, AfterReturn(r).x30)
    ensures var isa, c := Machine(sign), Cpu(win.src + 4, r);
      && Follows(win, isa, before, c, 2)
      && Run(isa, before, c, 2) == Cpu(AfterReturn(r).x30, AfterReturn(r))
  {
    hide Decode, ObliviousIn, Wrap;
    var isa, c, d := Machine(sign), Cpu(SourceAddress(win, 1), r), Cpu(SourceAddress(win, 2), AfterReturn(r));
    Decoded();
    LoadsAreOblivious(win, sign, r);
    ReturnIsOblivious(win, sign, d.regs);
    IndexOf(win, 1);
    IndexOf(win, 2);
    PlainStep(win, sign, before, 1, r);
    assert before(d.pc) == RET;
    assert Step(isa, before, c) == d;
    assert Step(isa, before, d) == Cpu(AfterReturn(r).x30, AfterReturn(r));
    RunThree(isa, before, c);
  }

  /** When the callee is back behind the relocated call, the saved frame is restored and RET leaves to the caller of
      the hooked function, with the same registers and memory. */
  lemma ReturnIsRelocated(win: Window, sign: (int, int) -> int, before: int -> Word, after: int -> Word, r: Regs<Rest>, c': Cpu<Rest>)
    requires Placed(win) && win.code == CALL_AND_RETURN && Original(win, before) && Installed(win, after)
    requires Returns(win, Machine(sign), win.src + 4, c'.pc) && SameRegs(win, Machine(sign), r, c'.regs)
    requires !InRange(win, AfterReturn(r).x30)
    ensures exists k :: ButX17Cpu(Cpu(AfterReturn(r).x30, AfterReturn(r)), Run(Machine(sign), after, c', k))
  {
    hide Decode, Installed, Follows, Run, SameRegs, Returns, AfterReturn, Original;
    var isa, c := Machine(sign), Cpu(win.src + 4, r);
    Decoded();
    ReturnRuns(win, sign, before, r);
    ReturnSimulates(win, isa, before, after, c, c', 2);
    var k :| Together(win, isa, Run(isa, before, c, 2), Run(isa, after, c', k));
    var d' := Run(isa, after, c', k);
    OutsideReturn(win, sign, AfterReturn(r), d'.regs);
    assert ButX17Cpu(Cpu(AfterReturn(r).x30, AfterReturn(r)), d');
  }

  /** A link register that is outside the window is the same at both places. */
  lemma OutsideReturn(win: Window, sign: (int, int) -> int, r: Regs<Rest>, r': Regs<Rest>)
    requires Placed(win) && win.code == CALL_AND_RETURN && SameRegs(win, Machine(sign), r, r') && !InRange(win, r.x30)
    ensures ButX17(r, r')
  {
    hide Returns;
    OneReturn(win, sign, r.x30, r'.x30);
  }

  // ---------- jumps that are not relocated ----------

  ghost predicate Apart(win: Window) {
    win.src + 4 * |win.code| <= win.dst || win.dst + 4 * 50 <= win.src
  }

  /** A computed jump into the window that is no return leaves the slot for the place that the hook has overwritten:
      the relocated machine is not at the copy of the target, unless the slot overlaps the window. */
  lemma JumpIntoWindowIsLost<R>(win: Window, isa: Isa<R>, t: Trail, before: int -> Word, after: int -> Word, i: nat, c: Cpu<R>, c': Cpu<R>, a: int)
    requires Scene(win, t, before, after) && At(win, isa, t, i, c, c') && Decode(win.code[i]).Plain? && Apart(win)
    requires isa.plain(win.code[i], c.regs).jump == Some(a) == isa.plain(win.code[i], c'.regs).jump && InRange(win, a)
    ensures Step(isa, after, c').pc == a && !Together(win, isa, Step(isa, before, c), Step(isa, after, c'))
  {
    hide Decode, Relocated, Prefix, Wrap, SameRegs;
    Facts(win, isa, t, before, after, i, c, c');
    assert after(c'.pc) == t.out[t.entry[i]] == win.code[i];
    var d := Step(isa, before, c);
    assert d.pc == a && Step(isa, after, c').pc == a;
    assert t.entry[RefIndex(win, a)] <= 50;
    InSlot(win, t, RefIndex(win, a));
  }

  lemma InSlot(win: Window, t: Trail, j: nat)
    requires Placed(win) && t == Final(win) && j < |win.code| && Apart(win)
    ensures !InRange(win, OutputAddress(win, t.entry[j]))
  {
    hide Prefix, Finished;
    AllFinished(win);
    RelocatedSize(win);
    OutputStarts(win);
    assert Finished(win, t, j);
    EntryInOutput(win, t, j);
  }

  lemma EntryInOutput(win: Window, t: Trail, j: nat)
    requires j < |t.entry| <= |win.code| && |t.start| == |t.entry| + 1 && Finished(win, t, j)
    ensures t.entry[j] <= |t.out|
  {
    hide Does;
  }
}
