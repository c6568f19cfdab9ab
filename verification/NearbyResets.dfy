/** When the nearby gate resets and when it opens, told from the observations alone. */
module NearbyResets {
  import opened NearbyGate
  import opened Options

  // ---------- what resets the gate ----------

  /** The last observation among the first n operations. */
  function Previous(ops: seq<Op>, n: nat): (p: Option<nat>)
    requires n <= |ops|
    ensures p.Some? ==> p.value < n && ops[p.value].Observe?
  {
    if n == 0 then None else if ops[n - 1].Observe? then Some(n - 1) else Previous(ops, n - 1)
  }

  /** Both positions are on the globe, the fix is at most five seconds old, and the positions agree within 8 m. */
  predicate Usable(m: Distance, f: Fix, elapsed: int) {
    && f.valid
    && -90.0 <= f.raw.lat <= 90.0 && -180.0 <= f.raw.lng <= 180.0
    && -90.0 <= f.game.lat <= 90.0 && -180.0 <= f.game.lng <= 180.0
    && 0 < f.time <= elapsed <= f.time + 5000
    && m(f.raw, f.game) <= 8.0
  }

  /** Observations more than five seconds apart, or a clock that went back. */
  predicate Interrupted(ops: seq<Op>, n: nat)
    requires n < |ops| && ops[n].Observe?
  {
    var p := Previous(ops, n);
    p.Some? &&
      var a, b := ops[p.value], ops[n];
      (a.steady != 0 && !(a.steady <= b.steady <= a.steady + 5000)) || (a.elapsed != 0 && b.elapsed < a.elapsed)
  }

  /** From the fix a, that of b is older, more than five seconds newer, the same with another raw position, or too far
      away for 7 m/s and 2 m more. */
  predicate Jumps(m: Distance, a: Fix, b: Fix) {
    if b.time == a.time then m(a.raw, b.raw) > 0.5
    else
      !(a.time < b.time <= a.time + 5000)
      || m(a.raw, b.raw) > 7.0 * ((b.time - a.time) as real) / 1000.0 + 2.0
      || m(a.game, b.game) > 7.0 * ((b.time - a.time) as real) / 1000.0 + 2.0
  }

  /** The observation that was counted last among the first n operations, since what reset the gate last. */
  function Counted(m: Distance, ops: seq<Op>, n: nat): (c: Option<nat>)
    requires n <= |ops|
    ensures c.Some? ==> c.value < n && ops[c.value].Observe?
    decreases n, 0
  {
    if n == 0 || ops[n - 1].Reset? || !Usable(m, ops[n - 1].fix, ops[n - 1].elapsed) then None
    else if BreaksOff(m, ops, n - 1) then Some(n - 1)
    else
      var c := Counted(m, ops, n - 1);
      if c.None? || ops[n - 1].fix.time > ops[c.value].fix.time then Some(n - 1) else c
  }

  /** Operation n ends what was counted before it. */
  predicate BreaksOff(m: Distance, ops: seq<Op>, n: nat)
    requires n < |ops|
    decreases n, 1
  {
    || ops[n].Reset? || !Usable(m, ops[n].fix, ops[n].elapsed) || Interrupted(ops, n)
    || (var c := Counted(m, ops, n); c.Some? && Jumps(m, ops[c.value].fix, ops[n].fix))
  }

  // ---------- the gate keeps to it ----------

  /** The fields of the gate after n operations. */
  ghost predicate Agrees(m: Distance, ops: seq<Op>, n: nat)
    requires n <= |ops|
  {
    var g, p, c := Run(m, ops[..n]), Previous(ops, n), Counted(m, ops, n);
    && (if p.Some? then g.lastSeen == ops[p.value].steady && g.lastElapsed == ops[p.value].elapsed
        else g.lastSeen == 0 && g.lastElapsed == 0)
    && g.anchored == c.Some?
    && (c.Some? ==> g.lastFix == ops[c.value].fix.time && g.raw == ops[c.value].fix.raw && g.game == ops[c.value].fix.game)
  }

  lemma UsableIsAccepted(m: Distance, f: Fix, elapsed: int)
    ensures Usable(m, f, elapsed) <==> Accepts(m, f, elapsed)
  {
  }

  lemma JumpsIsMoving(m: Distance, g: Gate, a: Fix, b: Fix)
    requires g.lastFix == a.time && g.raw == a.raw && g.game == a.game
    ensures Jumps(m, a, b) <==> Moving(m, g, b)
  {
  }

  lemma BreaksOffObserved(m: Distance, ops: seq<Op>, n: nat)
    requires n < |ops| && ops[n].Observe?
    ensures Counted(m, ops, n + 1) ==
      if !Usable(m, ops[n].fix, ops[n].elapsed) then None
      else if BreaksOff(m, ops, n) || Counted(m, ops, n).None? || ops[n].fix.time > ops[Counted(m, ops, n).value].fix.time
      then Some(n)
      else Counted(m, ops, n)
  {
    hide Usable, BreaksOff;
  }

  lemma BreaksOffIsReset(m: Distance, ops: seq<Op>, n: nat)
    requires n < |ops| && Agrees(m, ops, n)
    ensures BreaksOff(m, ops, n) <==> Resets(m, Run(m, ops[..n]), ops[n])
  {
    hide Run, Accepts, Moving, Usable, Jumps;
    var g, c := Run(m, ops[..n]), Counted(m, ops, n);
    if ops[n].Observe? {
      UsableIsAccepted(m, ops[n].fix, ops[n].elapsed);
      if c.Some? { JumpsIsMoving(m, g, ops[c.value].fix, ops[n].fix); }
    }
  }

  /** What an observation leaves in the fields. */
  lemma ObservationFields(m: Distance, g: Gate, op: Op)
    requires op.Observe?
    ensures var r := Apply(m, g, op);
      && r.lastSeen == op.steady && r.lastElapsed == op.elapsed && r.anchored == Accepts(m, op.fix, op.elapsed)
      && (r.anchored ==>
            if Resets(m, g, op) || !g.anchored || op.fix.time > g.lastFix then
              r.lastFix == op.fix.time && r.raw == op.fix.raw && r.game == op.fix.game
            else r.lastFix == g.lastFix && r.raw == g.raw && r.game == g.game)
  {
    hide Accepts, Reach, Gap;
  }

  lemma ResetApplied(m: Distance, g: Gate)
    ensures Apply(m, g, Reset) == ResetGate(g)
  {
  }

  lemma AgreesNext(m: Distance, ops: seq<Op>, n: nat)
    requires n < |ops| && Agrees(m, ops, n)
    ensures Agrees(m, ops, n + 1)
  {
    hide Run, Accepts, Usable, Resets, BreaksOff, Apply;
    RunStep(m, ops, n);
    BreaksOffIsReset(m, ops, n);
    var g := Run(m, ops[..n]);
    if ops[n].Observe? {
      UsableIsAccepted(m, ops[n].fix, ops[n].elapsed);
      ObservationFields(m, g, ops[n]);
      BreaksOffObserved(m, ops, n);
    } else {
      assert Apply(m, g, Reset) == ResetGate(g) by { ResetApplied(m, g); }
    }
  }

  lemma {:induction false} AlwaysAgrees(m: Distance, ops: seq<Op>, n: nat)
    requires n <= |ops|
    ensures Agrees(m, ops, n)
  {
    hide Agrees;
    if n == 0 {
      NothingAgrees(m, ops);
    } else {
      AlwaysAgrees(m, ops, n - 1);
      AgreesNext(m, ops, n - 1);
    }
  }

  lemma NothingAgrees(m: Distance, ops: seq<Op>)
    ensures Agrees(m, ops, 0)
  {
    assert ops[..0] == [];
  }

  /** The epoch changes exactly with the operations that break off what was counted. */
  lemma EpochChangesExactly(m: Distance, ops: seq<Op>, n: nat)
    requires n < |ops|
    ensures Run(m, ops[..n + 1]).epoch != Run(m, ops[..n]).epoch <==> BreaksOff(m, ops, n)
  {
    hide Run, Resets, BreaksOff, Agrees, Apply;
    AlwaysAgrees(m, ops, n);
    BreaksOffIsReset(m, ops, n);
    RunStep(m, ops, n);
    EpochCountsResets(m, Run(m, ops[..n]), ops[n]);
  }

  // ---------- what opens the gate ----------

  /** The observation b follows a: at most five seconds later, no clock goes back, and the fix is the same one read
      again, or a newer one within 7 m/s and 2 m more. */
  predicate WalksOn(m: Distance, a: Op, b: Op)
    requires a.Observe? && b.Observe?
  {
    && a.steady <= b.steady <= a.steady + 5000 && a.elapsed <= b.elapsed
    && ((b.fix.time == a.fix.time && b.fix.raw == a.fix.raw && b.fix.game == a.fix.game)
        || (a.fix.time < b.fix.time <= a.fix.time + 5000
            && m(a.fix.raw, b.fix.raw) <= 7.0 * ((b.fix.time - a.fix.time) as real) / 1000.0 + 2.0
            && m(a.fix.game, b.fix.game) <= 7.0 * ((b.fix.time - a.fix.time) as real) / 1000.0 + 2.0))
  }

  ghost predicate Walk(m: Distance, walk: seq<Op>) {
    && (forall k :: 0 <= k < |walk| ==> walk[k].Observe? && Usable(m, walk[k].fix, walk[k].elapsed))
    && (forall k :: 0 < k < |walk| ==> WalksOn(m, walk[k - 1], walk[k]))
  }

  /** The number of different fixes among the first n observations of a walk. */
  function Fixes(walk: seq<Op>, n: nat): nat
    requires n <= |walk| && forall k :: 0 <= k < |walk| ==> walk[k].Observe?
  {
    if n == 0 then 0
    else if n == 1 || walk[n - 1].fix.time > walk[n - 2].fix.time then Fixes(walk, n - 1) + 1
    else Fixes(walk, n - 1)
  }

  /** The gate after n observations of a walk. */
  ghost predicate Walked(m: Distance, walk: seq<Op>, n: nat, g: Gate)
    requires 0 < n <= |walk| && forall k :: 0 <= k < |walk| ==> walk[k].Observe?
  {
    var last := walk[n - 1];
    && g.anchored && g.since == walk[0].steady && g.lastSeen == last.steady && g.lastElapsed == last.elapsed
    && g.lastFix == last.fix.time && g.raw == last.fix.raw && g.game == last.fix.game
    && g.samples == Least(3, Fixes(walk, n))
  }

  lemma WalkStarts(m: Distance, g: Gate, walk: seq<Op>)
    requires Walk(m, walk) && walk != [] && !g.anchored
    ensures Walked(m, walk, 1, Apply(m, g, walk[0]))
  {
    hide Usable, Moving;
    UsableIsAccepted(m, walk[0].fix, walk[0].elapsed);
    assert Fixes(walk, 1) == 1;
  }

  lemma WalkGoesOn(m: Distance, g: Gate, walk: seq<Op>, n: nat)
    requires Walk(m, walk) && 0 < n < |walk| && Walked(m, walk, n, g) && Metric(m)
    ensures Walked(m, walk, n + 1, Apply(m, g, walk[n])) && !Resets(m, g, walk[n])
  {
    hide Usable, Accepts, Metric;
    UsableIsAccepted(m, walk[n].fix, walk[n].elapsed);
    assert WalksOn(m, walk[n - 1], walk[n]);
    Triangle(m, walk[n].fix.raw, walk[n].fix.raw, walk[n].fix.raw);
  }

  lemma {:induction false} WalkKeeps(m: Distance, before: seq<Op>, walk: seq<Op>, n: nat)
    requires Walk(m, walk) && 0 < n <= |walk| && Metric(m) && (before == [] || before[|before| - 1].Reset?)
    ensures Walked(m, walk, n, Run(m, before + walk[..n]))
    ensures Run(m, before + walk[..n]).epoch == Run(m, before + walk[..1]).epoch
  {
    hide Walk, Walked, Metric, Apply, Resets;
    var g := Run(m, before + walk[..n - 1]);
    LastOp(m, before, walk, n);
    if n == 1 {
      assert before + walk[..0] == before;
      StartsUnanchored(m, before);
      WalkStarts(m, g, walk);
    } else {
      WalkKeeps(m, before, walk, n - 1);
      WalkGoesOn(m, g, walk, n - 1);
      EpochCountsResets(m, g, walk[n - 1]);
    }
  }

  lemma LastOp(m: Distance, before: seq<Op>, walk: seq<Op>, n: nat)
    requires 0 < n <= |walk|
    ensures Run(m, before + walk[..n]) == Apply(m, Run(m, before + walk[..n - 1]), walk[n - 1])
  {
    var ops := before + walk[..n];
    assert ops[..|ops| - 1] == before + walk[..n - 1] && ops[|ops| - 1] == walk[n - 1];
  }

  lemma StartsUnanchored(m: Distance, before: seq<Op>)
    requires before == [] || before[|before| - 1].Reset?
    ensures !Run(m, before).anchored
  {
  }

  lemma {:induction false} FixesGrow(walk: seq<Op>, i: nat, j: nat)
    requires i <= j <= |walk| && forall k :: 0 <= k < |walk| ==> walk[k].Observe?
    ensures Fixes(walk, i) <= Fixes(walk, j)
  {
    if i < j { FixesGrow(walk, i, j - 1); }
  }

  /** A later time among the observations means another fix. */
  lemma {:induction false} LaterFix(walk: seq<Op>, i: nat, j: nat)
    requires i < j < |walk| && forall k :: 0 <= k < |walk| ==> walk[k].Observe?
    requires walk[i].fix.time < walk[j].fix.time
    ensures Fixes(walk, i + 1) < Fixes(walk, j + 1)
  {
    if walk[j].fix.time > walk[j - 1].fix.time {
      FixesGrow(walk, i + 1, j);
    } else {
      LaterFix(walk, i, j - 1);
    }
  }

  /** A walk resets nothing after its first observation, and with three ever newer fixes it opens the gate 3000 ms after
      that, for 2000 ms after its last observation. */
  lemma WalkOpens(m: Distance, before: seq<Op>, walk: seq<Op>, i: nat, j: nat, steady: int)
    requires Metric(m) && Walk(m, walk) && (before == [] || before[|before| - 1].Reset?)
    requires 0 < i < j < |walk| && walk[0].fix.time < walk[i].fix.time < walk[j].fix.time
    requires steady >= walk[0].steady + 3000
    requires walk[|walk| - 1].steady <= steady <= walk[|walk| - 1].steady + 2000
    ensures Ready(Run(m, before + walk), steady)
    ensures Run(m, before + walk).epoch == Run(m, before + walk[..1]).epoch
  {
    hide Walk, Run, Fixes, Metric;
    assert walk[..|walk|] == walk;
    AllObserved(m, walk);
    WalkKeeps(m, before, walk, |walk|);
    LaterFix(walk, 0, i);
    LaterFix(walk, i, j);
    FixesGrow(walk, j + 1, |walk|);
    assert Fixes(walk, 1) >= 1 by { FirstFix(walk); }
  }

  lemma AllObserved(m: Distance, walk: seq<Op>)
    requires Walk(m, walk)
    ensures forall k :: 0 <= k < |walk| ==> walk[k].Observe?
  {
  }

  lemma FirstFix(walk: seq<Op>)
    requires walk != [] && forall k :: 0 <= k < |walk| ==> walk[k].Observe?
    ensures Fixes(walk, 1) == 1
  {
  }
}
