/** The relocated window simulates the original one, instruction by instruction and over whole runs. */
module RelocationTheorem {
  import opened Words
  import opened A64
  import opened Options
  import opened Relocation
  import opened RelocationWords
  import opened RelocationLayout
  import opened RelocationEmission
  import opened RelocationInvariant
  import opened RelocationSimulation

  /** A supported window, in memory at both places. */
  ghost predicate Scene(win: Window, t: Trail, before: int -> Word, after: int -> Word) {
    && Placed(win) && t == Final(win)
    && Supported(win) && Original(win, before)
    && Holds(win, after, Relocated(win)) && Holds(win, after, t.out)
    && Ordered(t.start) && t.start[0] == 0
    && (forall i :: 0 <= i < |win.code| ==> Finished(win, t, i))
  }

  lemma MakeScene(win: Window, before: int -> Word, after: int -> Word)
    requires Placed(win) && Supported(win) && Original(win, before) && Installed(win, after)
    ensures Scene(win, Final(win), before, after)
  {
    hide Finished, EmitTail, Decode, Final, Supported, Original;
    AllFinished(win);
    RelocatedSize(win);
    OutputStarts(win);
    assert Holds(win, after, Relocated(win));
    assert Holds(win, after, Final(win).out);
  }

  lemma OutputStarts(win: Window)
    requires |win.code| <= MAX_INSTRUCTIONS
    ensures |Final(win).out| <= |Relocated(win)|
    ensures forall k :: 0 <= k < |Final(win).out| ==> Relocated(win)[k] == Final(win).out[k]
  {
    hide EmitTail;
  }

  // ---------- where control goes ----------

  lemma OutsideStaysOutside(win: Window, a: int)
    requires Placed(win) && !InRange(win, a) && -0x1000_0000 < a - win.src < 0x1000_0000
    ensures !InRange(win, Wrap(a))
  {
  }

  lemma InsideUnwrapped(win: Window, a: int)
    requires Placed(win) && InRange(win, a)
    ensures Wrap(a) == a
  {
  }

  lemma OffsetBounds(w: Word)
    ensures Decode(w).Branch? || Decode(w).BranchLink? || Decode(w).CondBranch? ==> -0x800_0000 <= Decode(w).off < 0x800_0000
  {
  }

  /** A branch that lands at the copy of its target brings the machines together. */
  lemma LandsTogether<R>(win: Window, isa: Isa<R>, t: Trail, i: nat, n: nat, off: int, o: int, r: Regs<R>, r': Regs<R>)
    requires Placed(win) && t == Final(win) && i < |win.code|
    requires off % 4 == 0 && -0x800_0000 <= off < 0x800_0000
    requires Lands(win, t.entry, n, o, SourceAddress(win, i) + off)
    requires forall j :: 0 <= j < |t.entry| ==> t.entry[j] <= 50
    requires SameRegs(win, isa, r, r')
    ensures Together(win, isa, Cpu(Wrap(SourceAddress(win, i) + off), r), Cpu(Wrap(OutputAddress(win, n) + o), r'))
  {
    hide SameRegs, Prefix, Wrap, Finished;
    var a := SourceAddress(win, i) + off;
    if InRange(win, a) {
      InsideUnwrapped(win, a);
      Unwrapped(win, t.entry[RefIndex(win, a)]);
    } else {
      OutsideStaysOutside(win, a);
    }
  }

  /** A long form goes to the same address outside the window. */
  lemma OutsideTogether<R>(win: Window, isa: Isa<R>, i: nat, off: int, r: Regs<R>, r': Regs<R>)
    requires Placed(win) && i < |win.code| && -0x800_0000 <= off < 0x800_0000
    requires !InRange(win, SourceAddress(win, i) + off) && SameRegs(win, isa, r, r')
    ensures Together(win, isa, Cpu(Wrap(SourceAddress(win, i) + off), r), Cpu(Wrap(SourceAddress(win, i) + off), r'))
  {
    hide SameRegs, Wrap;
    OutsideStaysOutside(win, SourceAddress(win, i) + off);
  }

  lemma FallThrough<R>(win: Window, isa: Isa<R>, t: Trail, i: nat, r: Regs<R>, r': Regs<R>)
    requires Placed(win) && t == Final(win) && i < |win.code| && SameRegs(win, isa, r, r')
    ensures Nearly(win, isa, Cpu(SourceAddress(win, i + 1), r), Cpu(OutputAddress(win, t.start[i + 1]), r'))
  {
    hide SameRegs, Prefix;
    assert BoundaryAt(win, SourceAddress(win, i + 1), OutputAddress(win, t.start[i + 1]), i + 1);
  }

  /** The return address after a call in the window and after its relocated copy. */
  lemma LinkSame<R>(win: Window, isa: Isa<R>, t: Trail, i: nat, r: Regs<R>, r': Regs<R>)
    requires Placed(win) && t == Final(win) && i < |win.code| && Calls(win, isa, i) && r.rest == r'.rest
    ensures SameRegs(win, isa, r.(x30 := SourceAddress(win, i + 1)), r'.(x30 := OutputAddress(win, t.start[i + 1])))
  {
    hide Prefix;
    assert BoundaryAt(win, SourceAddress(win, i + 1), OutputAddress(win, t.start[i + 1]), i + 1);
  }

  // ---------- one instruction ----------

  /** The two machines stand at instruction i and at its relocated copy. */
  ghost predicate At<R>(win: Window, isa: Isa<R>, t: Trail, i: nat, c: Cpu<R>, c': Cpu<R>) {
    && Placed(win) && t == Final(win) && i < |win.code|
    && c.pc == SourceAddress(win, i) && c'.pc == OutputAddress(win, t.entry[i])
    && SameRegs(win, isa, c.regs, c'.regs)
  }

  lemma Facts<R>(win: Window, isa: Isa<R>, t: Trail, before: int -> Word, after: int -> Word, i: nat, c: Cpu<R>, c': Cpu<R>)
    requires Scene(win, t, before, after) && At(win, isa, t, i, c, c')
    ensures before(c.pc) == win.code[i] && Wrap(c.pc + 4) == SourceAddress(win, i + 1)
    ensures t.entry[i] <= t.start[i + 1] <= |t.out| <= 50
    ensures Does(win, t.out, t.entry, i, t.entry[i], t.start[i + 1])
    ensures forall j :: 0 <= j < |t.entry| ==> t.entry[j] <= 50
  {
    hide Does, Relocated, Supported, Prefix, SameRegs;
    Unwrapped(win, i + 1);
    assert Finished(win, t, i);
    forall j | 0 <= j < |t.entry|
      ensures t.entry[j] <= 50
    {
      assert Finished(win, t, j);
    }
  }

  lemma SimulateBranch<R>(win: Window, isa: Isa<R>, t: Trail, before: int -> Word, after: int -> Word, i: nat, c: Cpu<R>, c': Cpu<R>)
    returns (k: nat)
    requires Scene(win, t, before, after) && At(win, isa, t, i, c, c') && Decode(win.code[i]).Branch?
    ensures Nearly(win, isa, Step(isa, before, c), Run(isa, after, c', k))
  {
    hide Decode, Relocated, SameRegs, Prefix, Run, Wrap;
    Facts(win, isa, t, before, after, i, c, c');
    var off, n, e := Decode(win.code[i]).off, t.entry[i], t.start[i + 1];
    OffsetBounds(win.code[i]);
    DecodedOffset(win.code[i]);
    if e == n + 1 {
      k := 1;
      StepBranch(win, isa, after, t.out, n, Decode(t.out[n]).off, c');
      RunTwo(isa, after, c');
      LandsTogether(win, isa, t, i, n, off, Decode(t.out[n]).off, c.regs, c'.regs);
    } else {
      k := 2;
      RunLongJump(win, isa, after, t.out, n, c.pc + off, c');
      X17Free(win, isa, c.regs, c'.regs, Wrap(c.pc + off));
      OutsideTogether(win, isa, i, off, c.regs, c'.regs.(x17 := Wrap(c.pc + off)));
    }
  }

  lemma X17Free<R>(win: Window, isa: Isa<R>, r: Regs<R>, r': Regs<R>, v: int)
    requires |win.code| <= MAX_INSTRUCTIONS && SameRegs(win, isa, r, r')
    ensures SameRegs(win, isa, r, r'.(x17 := v))
  {
    hide Returns;
  }

  lemma SimulateCall<R>(win: Window, isa: Isa<R>, t: Trail, before: int -> Word, after: int -> Word, i: nat, c: Cpu<R>, c': Cpu<R>)
    returns (k: nat)
    requires Scene(win, t, before, after) && At(win, isa, t, i, c, c') && Decode(win.code[i]).BranchLink?
    ensures Nearly(win, isa, Step(isa, before, c), Run(isa, after, c', k))
  {
    hide Decode, Relocated, Prefix, Run, Wrap, Returns, Boundary;
    Facts(win, isa, t, before, after, i, c, c');
    var off, n, e := Decode(win.code[i]).off, t.entry[i], t.start[i + 1];
    var r := c.regs.(x30 := SourceAddress(win, i + 1));
    OffsetBounds(win.code[i]);
    DecodedOffset(win.code[i]);
    LinkSame(win, isa, t, i, c.regs, c'.regs);
    if e == n + 1 {
      k := 1;
      StepCall(win, isa, after, t.out, n, Decode(t.out[n]).off, c');
      RunTwo(isa, after, c');
      LandsTogether(win, isa, t, i, n, off, Decode(t.out[n]).off, r, c'.regs.(x30 := OutputAddress(win, n + 1)));
    } else {
      k := 3;
      var r' := c'.regs.(x30 := OutputAddress(win, n + 5));
      RunLongCall(win, isa, after, t.out, n, c.pc + off, c');
      X17Free(win, isa, r, r', Wrap(c.pc + off));
      OutsideTogether(win, isa, i, off, r, r'.(x17 := Wrap(c.pc + off)));
    }
  }

  lemma StepCall<R>(win: Window, isa: Isa<R>, mem: int -> Word, out: seq<Word>, n: nat, off: int, c: Cpu<R>)
    requires Holds(win, mem, out) && n < |out| && c.pc == OutputAddress(win, n) && Decode(out[n]) == BranchLink(off)
    ensures Step(isa, mem, c) == Cpu(Wrap(OutputAddress(win, n) + off), c.regs.(x30 := OutputAddress(win, n + 1)))
  {
    hide Decode;
    Unwrapped(win, n + 1);
  }

  lemma SimulateCond<R>(win: Window, isa: Isa<R>, t: Trail, before: int -> Word, after: int -> Word, i: nat, c: Cpu<R>, c': Cpu<R>)
    returns (k: nat)
    requires Scene(win, t, before, after) && At(win, isa, t, i, c, c') && Decode(win.code[i]).CondBranch?
    requires isa.taken(Decode(win.code[i]).key, c.regs) == isa.taken(Decode(win.code[i]).key, c'.regs)
    ensures Nearly(win, isa, Step(isa, before, c), Run(isa, after, c', k))
  {
    hide Decode, Relocated, Prefix, Run, Wrap, SameRegs;
    Facts(win, isa, t, before, after, i, c, c');
    var off, n, e := Decode(win.code[i]).off, t.entry[i], t.start[i + 1];
    var key := Decode(win.code[i]).key;
    OffsetBounds(win.code[i]);
    DecodedOffset(win.code[i]);
    FallThrough(win, isa, t, i, c.regs, c'.regs);
    if e == n + 1 {
      k := 1;
      var o := Decode(t.out[n]).off;
      StepCond(win, isa, after, t.out, n, key, o, c');
      RunTwo(isa, after, c');
      LandsTogether(win, isa, t, i, n, off, o, c.regs, c'.regs);
    } else {
      RunLongCond(win, isa, after, t.out, n, key, c.pc + off, c');
      if isa.taken(key, c'.regs) {
        k := 3;
        X17Free(win, isa, c.regs, c'.regs, Wrap(c.pc + off));
        OutsideTogether(win, isa, i, off, c.regs, c'.regs.(x17 := Wrap(c.pc + off)));
      } else {
        k := 2;
      }
    }
  }

  lemma SimulateStraight<R>(win: Window, isa: Isa<R>, t: Trail, before: int -> Word, after: int -> Word, i: nat, c: Cpu<R>, c': Cpu<R>)
    returns (k: nat)
    requires Scene(win, t, before, after) && At(win, isa, t, i, c, c')
    requires Decode(win.code[i]).Prefetch? || Decode(win.code[i]) == A64.Nop
    ensures Nearly(win, isa, Step(isa, before, c), Run(isa, after, c', k))
  {
    hide Decode, Relocated, Prefix, Wrap, SameRegs;
    Facts(win, isa, t, before, after, i, c, c');
    FallThrough(win, isa, t, i, c.regs, c'.regs);
    if Decode(win.code[i]).Prefetch? {
      k := 0;
    } else {
      k := 1;
      StepNop(win, isa, after, t.out, t.entry[i], c');
      RunTwo(isa, after, c');
    }
  }

  lemma ReturnsToBoundary<R>(win: Window, isa: Isa<R>, a: int, a': int)
    requires |win.code| <= MAX_INSTRUCTIONS && Returns(win, isa, a, a')
    ensures Boundary(win, a, a')
  {
    hide Calls;
    var k :| 0 <= k < |win.code| && Calls(win, isa, k) && BoundaryAt(win, a, a', k + 1);
  }

  lemma SimulatePlain<R>(win: Window, isa: Isa<R>, t: Trail, before: int -> Word, after: int -> Word, i: nat, c: Cpu<R>, c': Cpu<R>)
    returns (k: nat)
    requires Scene(win, t, before, after) && At(win, isa, t, i, c, c') && Decode(win.code[i]).Plain?
    requires SameEffect(win, isa, isa.plain(win.code[i], c.regs), isa.plain(win.code[i], c'.regs))
    ensures Nearly(win, isa, Step(isa, before, c), Run(isa, after, c', k))
  {
    hide Decode, Relocated, Prefix, Wrap, Returns, Boundary, Run;
    Facts(win, isa, t, before, after, i, c, c');
    var n := t.entry[i];
    var e, e' := isa.plain(win.code[i], c.regs), isa.plain(win.code[i], c'.regs);
    k := 1;
    RunTwo(isa, after, c');
    Unwrapped(win, n + 1);
    assert after(c'.pc) == t.out[n] == win.code[i];
    assert c'.pc + 4 == OutputAddress(win, n + 1);
    if isa.links(win.code[i]) {
      LinkSame(win, isa, t, i, e.regs, e'.regs);
    }
    var r := if isa.links(win.code[i]) then e.regs.(x30 := SourceAddress(win, i + 1)) else e.regs;
    var r' := if isa.links(win.code[i]) then e'.regs.(x30 := OutputAddress(win, n + 1)) else e'.regs;
    FallThrough(win, isa, t, i, r, r');
    if e.jump.Some? && Returns(win, isa, e.jump.value, e'.jump.value) {
      ReturnsToBoundary(win, isa, e.jump.value, e'.jump.value);
    }
  }

  /** One original instruction is matched by some instructions of the relocated code. */
  lemma SimulateInstruction<R(!new)>(win: Window, isa: Isa<R>, t: Trail, before: int -> Word, after: int -> Word, i: nat, c: Cpu<R>, c': Cpu<R>)
    returns (k: nat)
    requires Scene(win, t, before, after) && At(win, isa, t, i, c, c') && Oblivious(win, isa, c)
    ensures Nearly(win, isa, Step(isa, before, c), Run(isa, after, c', k))
  {
    hide Decode, Relocated, Prefix, Wrap, Run, Step, SameRegs, SameEffect, Nearly, Finished;
    var w := win.code[i];
    assert SupportedWord(w);
    assert SameRegs(win, isa, c.regs, c'.regs);
    if Decode(w).Branch? {
      k := SimulateBranch(win, isa, t, before, after, i, c, c');
    } else if Decode(w).BranchLink? {
      k := SimulateCall(win, isa, t, before, after, i, c, c');
    } else if Decode(w).CondBranch? {
      k := SimulateCond(win, isa, t, before, after, i, c, c');
    } else if Decode(w).Plain? {
      k := SimulatePlain(win, isa, t, before, after, i, c, c');
    } else {
      k := SimulateStraight(win, isa, t, before, after, i, c, c');
    }
  }

  // ---------- the alignment NOPs and the jump back ----------

  /** The jump back reaches the instruction after the window, by the short or the long form. */
  lemma RunTail<R>(win: Window, isa: Isa<R>, t: Trail, before: int -> Word, after: int -> Word, c: Cpu<R>)
    returns (k: nat, v: int)
    requires Scene(win, t, before, after) && c.pc == OutputAddress(win, |t.out|)
    ensures Run(isa, after, c, k) == Cpu(SourceAddress(win, |win.code|), c.regs.(x17 := v))
  {
    hide Decode, Prefix, Wrap, Run, Step, Finished, And, OrBits, EmitTail;
    TailAppended(win, t);
    ScenePlaced(win, t, before, after);
    var e := EmitTail(win, |t.out|);
    if |e.words| == 1 {
      RunShortTail(win, isa, |t.out|, Relocated(win), after, c);
      k, v := 1, c.regs.x17;
    } else {
      RunLongTail(win, isa, |t.out|, Relocated(win), after, c);
      k, v := e.pad + 2, SourceAddress(win, |win.code|);
    }
  }

  lemma RunShortTail<R>(win: Window, isa: Isa<R>, m: nat, out: seq<Word>, mem: int -> Word, c: Cpu<R>)
    requires Placed(win) && Holds(win, mem, out) && Appended(out, m, EmitTail(win, m)) && c.pc == OutputAddress(win, m)
    requires |EmitTail(win, m).words| == 1
    ensures Run(isa, mem, c, 1) == Cpu(SourceAddress(win, |win.code|), c.regs)
  {
    hide Decode, Wrap, Run, Step, And, OrBits;
    var a := SourceAddress(win, |win.code|);
    var o := Asr(a - OutputAddress(win, m), 4);
    Wholes(win, a, m);
    Unwrapped(win, |win.code|);
    BranchWord(OP_B, o);
    assert out[m + 0] == EmitTail(win, m).words[0];
    StepBranch(win, isa, mem, out, m, 4 * o, c);
    RunTwo(isa, mem, c);
  }

  lemma RunLongTail<R>(win: Window, isa: Isa<R>, m: nat, out: seq<Word>, mem: int -> Word, c: Cpu<R>)
    requires Placed(win) && Holds(win, mem, out) && Appended(out, m, EmitTail(win, m)) && c.pc == OutputAddress(win, m)
    requires |EmitTail(win, m).words| != 1
    ensures var a := SourceAddress(win, |win.code|);
      Run(isa, mem, c, EmitTail(win, m).pad + 2) == Cpu(a, c.regs.(x17 := a))
  {
    hide Decode, Wrap, Run, Step, And, OrBits;
    var a, e := SourceAddress(win, |win.code|), EmitTail(win, m);
    LongJumpEmission(win, m, out, e, a);
    Unwrapped(win, |win.code|);
    RunNops(win, isa, mem, out, m, m + e.pad, c);
    RunLongJump(win, isa, mem, out, m + e.pad, a, Run(isa, mem, c, e.pad));
    RunAdd(isa, mem, c, e.pad, 2);
  }

  lemma TailAppended(win: Window, t: Trail)
    requires |win.code| <= MAX_INSTRUCTIONS && t == Final(win)
    ensures Appended(Relocated(win), |t.out|, EmitTail(win, |t.out|))
    ensures Relocated(win)[|t.out| + EmitTail(win, |t.out|).pad] == EmitTail(win, |t.out|).words[0]
  {
    hide Prefix, EmitTail;
    var e := EmitTail(win, |t.out|);
    TailWords(win, |t.out|);
  }

  lemma TailWords(win: Window, pos: nat)
    ensures |EmitTail(win, pos).words| == 1 || |EmitTail(win, pos).words| == 4
  {
  }

  lemma Arrive<R>(win: Window, isa: Isa<R>, t: Trail, before: int -> Word, after: int -> Word, c: Cpu<R>, c': Cpu<R>)
    returns (k: nat)
    requires Scene(win, t, before, after) && Nearly(win, isa, c, c')
    ensures Together(win, isa, c, Run(isa, after, c', k))
  {
    hide Decode, Relocated, Prefix, Wrap, Run, Step, SameRegs;
    if Together(win, isa, c, c') {
      k := 0;
      RunZero(isa, after, c');
    } else {
      var j :| 0 <= j <= |win.code| && BoundaryAt(win, c.pc, c'.pc, j);
      if j < |win.code| {
        assert Finished(win, t, j);
        RunNops(win, isa, after, t.out, t.start[j], t.entry[j], c');
        k := t.entry[j] - t.start[j];
        IndexOf(win, j);
      } else {
        var v;
        k, v := RunTail(win, isa, t, before, after, c');
        X17Free(win, isa, c.regs, c'.regs, v);
      }
    }
  }

  lemma RunZero<R>(isa: Isa<R>, mem: int -> Word, c: Cpu<R>)
    ensures Run(isa, mem, c, 0) == c
  {
  }

  lemma IndexOf(win: Window, j: nat)
    requires Placed(win) && j < |win.code|
    ensures InRange(win, SourceAddress(win, j)) && RefIndex(win, SourceAddress(win, j)) == j
    ensures SourceAddress(win, j) % 4 == win.src % 4
  {
  }

  // ---------- runs ----------

  /** The first m instructions of a run are all in the window, and none of them depends on what the relocation
      changes. */
  ghost predicate Follows<R(!new)>(win: Window, isa: Isa<R>, before: int -> Word, c: Cpu<R>, m: nat)
    requires |win.code| <= MAX_INSTRUCTIONS
  {
    forall h :: 0 <= h < m ==> FollowsAt(win, isa, Run(isa, before, c, h))
  }

  ghost predicate FollowsAt<R(!new)>(win: Window, isa: Isa<R>, c: Cpu<R>)
    requires |win.code| <= MAX_INSTRUCTIONS
  {
    InRange(win, c.pc) && Oblivious(win, isa, c)
  }

  lemma FollowsOn<R(!new)>(win: Window, isa: Isa<R>, before: int -> Word, c: Cpu<R>, m: nat)
    requires |win.code| <= MAX_INSTRUCTIONS && Follows(win, isa, before, c, m) && m > 0
    ensures FollowsAt(win, isa, c) && Follows(win, isa, before, Step(isa, before, c), m - 1)
  {
    hide FollowsAt, Step;
    assert Run(isa, before, c, 0) == c;
    var d := Step(isa, before, c);
    forall h | 0 <= h < m - 1
      ensures FollowsAt(win, isa, Run(isa, before, d, h))
    {
      assert Run(isa, before, c, h + 1) == Run(isa, before, d, h);
    }
  }

  lemma TogetherAt<R>(win: Window, isa: Isa<R>, t: Trail, c: Cpu<R>, c': Cpu<R>)
    requires Placed(win) && t == Final(win) && Together(win, isa, c, c') && InRange(win, c.pc)
    ensures At(win, isa, t, RefIndex(win, c.pc), c, c')
  {
    hide SameRegs, Prefix;
  }

  lemma ScenePlaced(win: Window, t: Trail, before: int -> Word, after: int -> Word)
    requires Scene(win, t, before, after)
    ensures Placed(win) && t == Final(win)
  {
    hide Finished, Supported;
  }

  /** A run of the original through the window is matched by a run of the relocated code. */
  lemma {:induction false} SimulateRun<R(!new)>(win: Window, isa: Isa<R>, t: Trail, before: int -> Word, after: int -> Word, c: Cpu<R>, c': Cpu<R>, m: nat)
    returns (k: nat)
    requires Scene(win, t, before, after) && Nearly(win, isa, c, c') && Follows(win, isa, before, c, m)
    ensures Together(win, isa, Run(isa, before, c, m), Run(isa, after, c', k))
    decreases m
  {
    hide Relocated, Prefix, Step, SameRegs, Scene, Follows, Oblivious, At;
    ScenePlaced(win, t, before, after);
    var k1 := Arrive(win, isa, t, before, after, c, c');
    if m == 0 {
      k := k1;
    } else {
      FollowsOn(win, isa, before, c, m);
      var d' := Run(isa, after, c', k1);
      TogetherAt(win, isa, t, c, d');
      var k2 := SimulateInstruction(win, isa, t, before, after, RefIndex(win, c.pc), c, d');
      var k3 := SimulateRun(win, isa, t, before, after, Step(isa, before, c), Run(isa, after, d', k2), m - 1);
      RunAdd(isa, after, d', k2, k3);
      RunAdd(isa, after, c', k1, k2 + k3);
      k := k1 + (k2 + k3);
    }
  }

  /** Entered at any boundary, the relocated code follows every run of the original function through the
      window: inside it at the copies, and outside it at the same address. */
  lemma BoundarySimulates<R(!new)>(win: Window, isa: Isa<R>, before: int -> Word, after: int -> Word, c: Cpu<R>, c': Cpu<R>, m: nat)
    requires Placed(win) && Supported(win) && Original(win, before) && Installed(win, after)
    requires Boundary(win, c.pc, c'.pc) && SameRegs(win, isa, c.regs, c'.regs) && Follows(win, isa, before, c, m)
    ensures exists k :: Together(win, isa, Run(isa, before, c, m), Run(isa, after, c', k))
  {
    hide Relocated, Prefix, Step, Finished, Follows, Decode, SameRegs, Boundary;
    MakeScene(win, before, after);
    var k := SimulateRun(win, isa, Final(win), before, after, c, c', m);
  }

  /** Entered at the start of the slot, the relocated code follows every run of the original function through
      its first instructions. */
  lemma RelocationSimulates<R(!new)>(win: Window, isa: Isa<R>, before: int -> Word, after: int -> Word, regs: Regs<R>, m: nat)
    requires Placed(win) && Supported(win) && Original(win, before) && Installed(win, after)
    requires Follows(win, isa, before, Cpu(win.src, regs), m)
    ensures exists k :: Together(win, isa, Run(isa, before, Cpu(win.src, regs), m), Run(isa, after, Cpu(win.dst, regs), k))
  {
    hide Relocated, Step, Follows, Decode, Finished;
    MakeScene(win, before, after);
    assert BoundaryAt(win, win.src, win.dst, 0);
    BoundarySimulates(win, isa, before, after, Cpu(win.src, regs), Cpu(win.dst, regs), m);
  }

  /** When a callee returns to the address that a call of the window left in X30, the relocated code goes on
      behind the relocated call, as the original does behind the call. */
  lemma ReturnSimulates<R(!new)>(win: Window, isa: Isa<R>, before: int -> Word, after: int -> Word, c: Cpu<R>, c': Cpu<R>, m: nat)
    requires Placed(win) && Supported(win) && Original(win, before) && Installed(win, after)
    requires Returns(win, isa, c.pc, c'.pc) && SameRegs(win, isa, c.regs, c'.regs) && Follows(win, isa, before, c, m)
    ensures exists k :: Together(win, isa, Run(isa, before, c, m), Run(isa, after, c', k))
  {
    hide Relocated, Prefix, Step, Follows, Decode, SameRegs;
    var h :| 0 <= h < |win.code| && Calls(win, isa, h) && BoundaryAt(win, c.pc, c'.pc, h + 1);
    BoundarySimulates(win, isa, before, after, c, c', m);
  }
}
