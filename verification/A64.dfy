/** The part of the A64 instruction set that relocated code runs, after the Arm Architecture
    Reference Manual for A-profile (DDI 0487), section C6.2. */
module A64 {
  import opened Options
  import opened Words

  /** One instruction. Offsets are in bytes from the instruction itself; `key` is the word of a
      conditional branch with its offset field cleared, so it names the tested condition. */
  datatype Insn =
    | Branch(off: int)
    | BranchLink(off: int)
    | CondBranch(key: Word, off: int)
    | Prefetch
    | LoadX17(off: int)
    | AddressX30(off: int)
    | BranchX17
    | Nop
    | PcRelative
    | Plain

  const NOP: Word := 0xd503_201f
  const BR_X17: Word := 0xd61f_0220

  /** A field of k bits read as a signed number, where half is Pow2(k - 1). */
  function SignExtend(field: nat, half: nat): int {
    if field < half then field else field - 2 * half
  }

  function Decode(w: Word): Insn {
    var top := w / 0x100_0000;
    if w == NOP then Nop
    else if w == BR_X17 then BranchX17
    else if top / 4 == 0x05 then Branch(4 * SignExtend(w % 0x400_0000, 0x200_0000))
    else if top / 4 == 0x25 then BranchLink(4 * SignExtend(w % 0x400_0000, 0x200_0000))
    else if IsBranch19(w) then
      CondBranch(top * 0x100_0000 + w % 32, 4 * SignExtend(w / 32 % 0x8_0000, 0x4_0000))
    else if IsBranch14(w) then
      CondBranch(w / 0x8_0000 * 0x8_0000 + w % 32, 4 * SignExtend(w / 32 % 0x4000, 0x2000))
    else if top == 0xd8 then Prefetch
    else if top == 0x58 && w % 32 == 17 then LoadX17(4 * SignExtend(w / 32 % 0x8_0000, 0x4_0000))
    else if IsAdr(w) && w % 32 == 30 then
      AddressX30(4 * SignExtend(w / 32 % 0x8_0000, 0x4_0000) + w / 0x2000_0000 % 4)
    else if IsLoadLiteral(w) || IsAdr(w) || IsAdrp(w) || top == 0x54 then PcRelative
    else Plain
  }

  /** B.cond, CBZ and CBNZ. */
  predicate IsBranch19(w: Word) {
    var top := w / 0x100_0000;
    (top == 0x54 && w / 16 % 2 == 0) || top % 128 == 0x34 || top % 128 == 0x35
  }

  /** TBZ and TBNZ. */
  predicate IsBranch14(w: Word) {
    var top := w / 0x100_0000;
    top % 128 == 0x36 || top % 128 == 0x37
  }

  /** LDR and LDRSW of a literal, to general or vector registers. */
  predicate IsLoadLiteral(w: Word) {
    var top := w / 0x100_0000;
    top == 0x18 || top == 0x58 || top == 0x98 || top % 64 == 0x1c
  }

  predicate IsAdr(w: Word) {
    var top := w / 0x100_0000;
    top < 128 && top % 32 == 0x10
  }

  predicate IsAdrp(w: Word) {
    var top := w / 0x100_0000;
    top >= 128 && top % 32 == 0x10
  }

  /** The registers: the two that the relocator's own code touches, and all the others. */
  datatype Regs<R> = Regs(x17: int, x30: int, rest: R)

  datatype Cpu<R> = Cpu(pc: int, regs: Regs<R>)

  /** What an instruction without a PC-relative operand does: new registers and an optional jump to a
      computed address. */
  datatype Effect<R> = Effect(regs: Regs<R>, jump: Option<int>)

  /** The instructions that Step leaves open. `links` tells which instructions without a PC-relative operand
      write the return address to X30, as BLR does. */
  datatype Isa<!R> = Isa(
    taken: (Word, Regs<R>) -> bool,
    plain: (Word, Regs<R>) -> Effect<R>,
    links: Word -> bool,
    pcRelative: (Word, Cpu<R>) -> Cpu<R>)

  /** An address as 64 bits. */
  function Wrap(a: int): nat {
    a % 0x1_0000_0000_0000_0000
  }

  function Load64(mem: int -> Word, a: int): nat {
    mem(a) + 0x1_0000_0000 * mem(a + 4)
  }

  /** Executes the instruction at pc. */
  function Step<R>(isa: Isa<R>, mem: int -> Word, c: Cpu<R>): Cpu<R> {
    var w := mem(c.pc);
    var next := Wrap(c.pc + 4);
    match Decode(w)
    case Branch(off) => c.(pc := Wrap(c.pc + off))
    case BranchLink(off) => Cpu(Wrap(c.pc + off), c.regs.(x30 := next))
    case CondBranch(key, off) => c.(pc := if isa.taken(key, c.regs) then Wrap(c.pc + off) else next)
    case LoadX17(off) => Cpu(next, c.regs.(x17 := Load64(mem, c.pc + off)))
    case AddressX30(off) => Cpu(next, c.regs.(x30 := Wrap(c.pc + off)))
    case BranchX17 => c.(pc := c.regs.x17)
    case Nop => c.(pc := next)
    case Prefetch => c.(pc := next)
    case PcRelative => isa.pcRelative(w, c)
    case Plain =>
      var e := isa.plain(w, c.regs);
      Cpu(if e.jump.Some? then e.jump.value else next, if isa.links(w) then e.regs.(x30 := next) else e.regs)
  }

  /** The state after k instructions. */
  function Run<R>(isa: Isa<R>, mem: int -> Word, c: Cpu<R>, k: nat): Cpu<R>
    decreases k
  {
    if k == 0 then c else Run(isa, mem, Step(isa, mem, c), k - 1)
  }

  lemma {:induction false} RunAdd<R>(isa: Isa<R>, mem: int -> Word, c: Cpu<R>, j: nat, k: nat)
    ensures Run(isa, mem, c, j + k) == Run(isa, mem, Run(isa, mem, c, j), k)
    decreases j
  {
    if j > 0 {
      RunAdd(isa, mem, Step(isa, mem, c), j - 1, k);
    }
  }
}
