/** The nearby location gate: a monitor whose answer is a claim about everything it was shown since its last reset. */
module NearbyGate {

  datatype Point = Point(lat: real, lng: real)

  type Distance = (Point, Point) -> real

  /** A raw position and the game's processed one, with the time of the fix on the boot clock. */
  datatype Fix = Fix(valid: bool, raw: Point, game: Point, time: int)

  datatype Op = Observe(fix: Fix, elapsed: int, steady: int) | Reset

  datatype Gate = Gate(anchored: bool, game: Point, raw: Point, since: int, lastSeen: int, lastFix: int,
                       lastElapsed: int, samples: nat, epoch: nat)

  const NOWHERE := Point(0.0, 0.0)
  const CLOSED := Gate(false, NOWHERE, NOWHERE, 0, 0, 0, 0, 0, 0)

  ghost predicate Metric(m: Distance) {
    && (forall a, b :: m(a, b) == m(b, a))
    && (forall a, b :: m(a, b) >= 0.0)
    && (forall a, b, c :: m(a, c) <= m(a, b) + m(b, c))
    && (forall a :: m(a, a) == 0.0)
  }

  predicate ValidPoint(p: Point) {
    -90.0 <= p.lat <= 90.0 && -180.0 <= p.lng <= 180.0
  }

  // ---------- one operation ----------

  predicate Valid(f: Fix) {
    f.valid && ValidPoint(f.raw) && ValidPoint(f.game)
  }

  predicate Fresh(f: Fix, elapsed: int) {
    elapsed > 0 && f.time > 0 && f.time <= elapsed && elapsed - f.time <= 5000
  }

  /** The fix is usable by itself: valid, at most five seconds old, and agreeing with the game within 8 m. */
  predicate Accepts(m: Distance, f: Fix, elapsed: int) {
    Valid(f) && Fresh(f, elapsed) && m(f.raw, f.game) <= 8.0
  }

  predicate Gap(g: Gate, elapsed: int, steady: int) {
    || (g.lastSeen != 0 && (steady < g.lastSeen || steady - g.lastSeen > 5000))
    || (g.lastElapsed != 0 && elapsed < g.lastElapsed)
  }

  function Reach(dt: int): real {
    7.0 * (dt as real) / 1000.0 + 2.0
  }

  /** The step from the last fix is too long, or out of order. */
  predicate Moving(m: Distance, g: Gate, f: Fix) {
    var dt := f.time - g.lastFix;
    || dt < 0 || dt > 5000 || (dt == 0 && m(g.raw, f.raw) > 0.5)
    || (dt > 0 && (m(g.raw, f.raw) > Reach(dt) || m(g.game, f.game) > Reach(dt)))
  }

  function ResetGate(g: Gate): Gate {
    g.(anchored := false, samples := 0, since := 0, lastFix := 0, epoch := g.epoch + 1)
  }

  function Follow(g: Gate, f: Fix, steady: int): Gate {
    if !g.anchored then
      g.(anchored := true, game := f.game, since := steady, samples := 1, lastFix := f.time, raw := f.raw)
    else if f.time > g.lastFix then
      g.(lastFix := f.time, samples := if g.samples < 3 then g.samples + 1 else g.samples, game := f.game, raw := f.raw)
    else g
  }

  function Step(m: Distance, g: Gate, f: Fix, elapsed: int, steady: int): Gate {
    var g0 := if Gap(g, elapsed, steady) then ResetGate(g) else g;
    var g1 := g0.(lastSeen := steady, lastElapsed := elapsed);
    if !Accepts(m, f, elapsed) then ResetGate(g1)
    else Follow(if g1.anchored && Moving(m, g1, f) then ResetGate(g1) else g1, f, steady)
  }

  function Apply(m: Distance, g: Gate, op: Op): Gate {
    match op
    case Observe(f, elapsed, steady) => Step(m, g, f, elapsed, steady)
    case Reset => ResetGate(g)
  }

  function Run(m: Distance, ops: seq<Op>): Gate {
    if ops == [] then CLOSED else Apply(m, Run(m, ops[..|ops| - 1]), ops[|ops| - 1])
  }

  predicate Ready(g: Gate, steady: int) {
    && g.anchored && g.samples >= 3 && steady >= g.since && steady - g.since >= 3000
    && steady >= g.lastSeen && steady - g.lastSeen <= 2000
  }

  // ---------- epochs ----------

  lemma EpochGrows(m: Distance, g: Gate, op: Op)
    ensures Apply(m, g, op).epoch >= g.epoch
  {
  }

  /** The operation closes the gate or starts anew. */
  predicate Resets(m: Distance, g: Gate, op: Op) {
    op.Reset? || Gap(g, op.elapsed, op.steady) || !Accepts(m, op.fix, op.elapsed) || (g.anchored && Moving(m, g, op.fix))
  }

  /** The epoch stays exactly when nothing is reset. */
  lemma EpochCountsResets(m: Distance, g: Gate, op: Op)
    ensures Apply(m, g, op).epoch == g.epoch <==> !Resets(m, g, op)
  {
  }

  lemma RunStep(m: Distance, ops: seq<Op>, k: nat)
    requires k < |ops|
    ensures Run(m, ops[..k + 1]) == Apply(m, Run(m, ops[..k]), ops[k])
  {
    assert ops[..k + 1][..k] == ops[..k];
  }

  lemma {:induction false} EpochsGrow(m: Distance, ops: seq<Op>, i: nat, j: nat)
    requires i <= j <= |ops|
    ensures Run(m, ops[..i]).epoch <= Run(m, ops[..j]).epoch
  {
    hide Apply;
    if i < j {
      EpochsGrow(m, ops, i, j - 1);
      RunStep(m, ops, j - 1);
      EpochGrows(m, Run(m, ops[..j - 1]), ops[j - 1]);
    }
  }

  /** Two equal epochs mean that no operation between them reset the gate. */
  lemma EqualEpochsMeanNoReset(m: Distance, ops: seq<Op>, i: nat, j: nat, k: nat)
    requires i <= k < j <= |ops|
    requires Run(m, ops[..i]).epoch == Run(m, ops[..j]).epoch
    ensures !Resets(m, Run(m, ops[..k]), ops[k])
  {
    hide Run, Apply, Resets;
    EpochsGrow(m, ops, i, k);
    EpochsGrow(m, ops, k, k + 1);
    EpochsGrow(m, ops, k + 1, j);
    RunStep(m, ops, k);
    EpochCountsResets(m, Run(m, ops[..k]), ops[k]);
  }

  // ---------- the track of an epoch ----------

  /** The track after operation n, which finds the gate as g and the track so far. */
  function Tracked(m: Distance, n: nat, op: Op, track: seq<nat>, g: Gate): seq<nat> {
    var before := if Resets(m, g, op) then [] else track;
    if op.Reset? || !Accepts(m, op.fix, op.elapsed) then []
    else if before == [] || op.fix.time > g.lastFix then before + [n]
    else before
  }

  /** The operations whose fixes advanced the time since the last reset, from the first one on. */
  function Track(m: Distance, ops: seq<Op>): seq<nat> {
    if ops == [] then []
    else
      var n := |ops| - 1;
      Tracked(m, n, ops[n], Track(m, ops[..n]), Run(m, ops[..n]))
  }

  function FixAt(ops: seq<Op>, k: nat): Fix
    requires k < |ops| && ops[k].Observe?
  {
    ops[k].fix
  }

  predicate Listed(ops: seq<Op>, track: seq<nat>) {
    forall i :: 0 <= i < |track| ==> track[i] < |ops| && ops[track[i]].Observe?
  }

  predicate Rising(ops: seq<Op>, track: seq<nat>)
    requires Listed(ops, track)
  {
    && (forall i, j :: 0 <= i < j < |track| ==> track[i] < track[j])
    && (forall i, j :: 0 <= i < j < |track| ==> ops[track[i]].fix.time < ops[track[j]].fix.time)
  }

  predicate StepsBounded(m: Distance, ops: seq<Op>, track: seq<nat>)
    requires Listed(ops, track)
  {
    forall i :: 0 < i < |track| ==>
      var a, b := ops[track[i - 1]].fix, ops[track[i]].fix;
      m(a.game, b.game) <= Reach(b.time - a.time) && m(a.raw, b.raw) <= Reach(b.time - a.time)
  }

  predicate Fine(m: Distance, op: Op) {
    op.Observe? && Accepts(m, op.fix, op.elapsed)
  }

  predicate AllFine(m: Distance, ops: seq<Op>, from: nat) {
    forall k :: from <= k < |ops| ==> Fine(m, ops[k])
  }

  function Least(a: nat, b: nat): nat {
    if a < b then a else b
  }

  /** What the fields of the gate say about the operations so far. */
  predicate Remembers(m: Distance, ops: seq<Op>, g: Gate, track: seq<nat>) {
    && Listed(ops, track) && Rising(ops, track) && StepsBounded(m, ops, track)
    && (g.anchored <==> track != [])
    && (track != [] ==>
          && g.samples == Least(3, |track|)
          && g.since == ops[track[0]].steady
          && ops[|ops| - 1].Observe? && g.lastSeen == ops[|ops| - 1].steady
          && g.lastFix == ops[track[|track| - 1]].fix.time
          && g.game == ops[track[|track| - 1]].fix.game && g.raw == ops[track[|track| - 1]].fix.raw
          && AllFine(m, ops, track[0]))
  }

  lemma TrackKept(m: Distance, ops: seq<Op>, op: Op, track: seq<nat>, g: Gate)
    requires Remembers(m, ops, g, track) && track != [] && Fine(m, op)
    ensures Listed(ops + [op], track) && Rising(ops + [op], track) && StepsBounded(m, ops + [op], track)
    ensures AllFine(m, ops + [op], track[0])
  {
    hide Fine;
    var longer := ops + [op];
    assert forall k :: 0 <= k < |ops| ==> longer[k] == ops[k];
  }

  lemma TrackLonger(m: Distance, ops: seq<Op>, op: Op, track: seq<nat>, g: Gate)
    requires Remembers(m, ops, g, track) && track != [] && Fine(m, op)
    requires op.fix.time > g.lastFix && !Moving(m, g, op.fix)
    ensures var longer := ops + [op]; var t := track + [|ops|];
            Listed(longer, t) && Rising(longer, t) && StepsBounded(m, longer, t) && AllFine(m, longer, t[0])
  {
    TrackKept(m, ops, op, track, g);
    var longer := ops + [op];
    var t := track + [|ops|];
    assert longer[|ops|] == op;
    assert forall i :: 0 <= i < |track| ==> t[i] == track[i];
    LongerRises(ops, op, track);
  }

  lemma LongerRises(ops: seq<Op>, op: Op, track: seq<nat>)
    requires Listed(ops, track) && Rising(ops, track) && track != [] && op.Observe?
    requires op.fix.time > ops[track[|track| - 1]].fix.time
    ensures Listed(ops + [op], track + [|ops|]) && Rising(ops + [op], track + [|ops|])
  {
    var longer := ops + [op];
    var t := track + [|ops|];
    assert longer[|ops|] == op;
    assert forall i :: 0 <= i < |track| ==> t[i] == track[i] && longer[t[i]] == ops[track[i]];
  }

  /** The gate after one more observation, seen from its track. */
  lemma StepRemembers(m: Distance, ops: seq<Op>, op: Op, track: seq<nat>, g: Gate)
    requires Remembers(m, ops, g, track)
    ensures Remembers(m, ops + [op], Apply(m, g, op), Tracked(m, |ops|, op, track, g))
  {
    hide Accepts, Moving, Gap, StepsBounded, Rising, AllFine;
    if op.Observe? && Accepts(m, op.fix, op.elapsed) {
      if !Resets(m, g, op) && track != [] {
        TrackKept(m, ops, op, track, g);
        if op.fix.time > g.lastFix { TrackLonger(m, ops, op, track, g); }
        StillRemembers(m, ops, op, track, g);
      } else {
        FirstRemembers(m, ops, op, track, g);
        assert [] + [|ops|] == [|ops|];
      }
    } else {
      NothingTracked(m, ops + [op], Apply(m, g, op));
    }
  }

  lemma StillStep(m: Distance, g: Gate, op: Op)
    requires Fine(m, op) && !Resets(m, g, op) && g.anchored
    ensures var seen := g.(lastSeen := op.steady, lastElapsed := op.elapsed);
            Apply(m, g, op) ==
              if op.fix.time > g.lastFix then
                seen.(lastFix := op.fix.time, samples := if g.samples < 3 then g.samples + 1 else g.samples,
                      game := op.fix.game, raw := op.fix.raw)
              else seen
  {
    hide Accepts, Gap, Reach;
  }

  lemma StillRemembers(m: Distance, ops: seq<Op>, op: Op, track: seq<nat>, g: Gate)
    requires Remembers(m, ops, g, track) && track != [] && Fine(m, op) && !Resets(m, g, op)
    ensures Remembers(m, ops + [op], Apply(m, g, op), if op.fix.time > g.lastFix then track + [|ops|] else track)
  {
    hide Apply, Accepts, Gap, Moving, StepsBounded, Rising, AllFine;
    var longer := ops + [op];
    assert longer[|longer| - 1] == op && forall k :: 0 <= k < |ops| ==> longer[k] == ops[k];
    StillStep(m, g, op);
    TrackKept(m, ops, op, track, g);
    if op.fix.time > g.lastFix { TrackLonger(m, ops, op, track, g); }
  }

  lemma FirstTracked(m: Distance, ops: seq<Op>, op: Op)
    requires Fine(m, op)
    ensures var longer := ops + [op]; var t := [|ops|];
            Listed(longer, t) && Rising(longer, t) && StepsBounded(m, longer, t) && AllFine(m, longer, |ops|)
  {
  }

  lemma FirstRemembers(m: Distance, ops: seq<Op>, op: Op, track: seq<nat>, g: Gate)
    requires Remembers(m, ops, g, track) && Fine(m, op) && (Resets(m, g, op) || track == [])
    ensures Remembers(m, ops + [op], Apply(m, g, op), [|ops|])
  {
    hide Accepts, Gap, Reach, StepsBounded, Rising, AllFine;
    var longer := ops + [op];
    assert longer[|longer| - 1] == op;
    FirstTracked(m, ops, op);
  }

  lemma NothingTracked(m: Distance, ops: seq<Op>, g: Gate)
    requires !g.anchored
    ensures Remembers(m, ops, g, [])
  {
  }

  lemma {:induction false} RunRemembers(m: Distance, ops: seq<Op>)
    ensures Remembers(m, ops, Run(m, ops), Track(m, ops))
  {
    hide Remembers, Apply, Resets, Accepts;
    if ops == [] {
      NothingTracked(m, ops, CLOSED);
    } else {
      var n := |ops| - 1;
      RunRemembers(m, ops[..n]);
      assert ops == ops[..n] + [ops[n]];
      StepRemembers(m, ops[..n], ops[n], Track(m, ops[..n]), Run(m, ops[..n]));
    }
  }

  // ---------- what the gate promises ----------

  /** Three fixes, each newer than the one before, were accepted; every observation from the first of them on was
      valid, fresh and within 8 m of the game; the first was at least 3000 ms ago, the last observation at most
      2000 ms ago. */
  predicate Settled(m: Distance, ops: seq<Op>, steady: int, track: seq<nat>) {
    && Listed(ops, track) && Rising(ops, track) && |track| >= 3
    && AllFine(m, ops, track[0])
    && steady - ops[track[0]].steady >= 3000
    && 0 <= steady - ops[|ops| - 1].steady <= 2000
  }

  /** The gate answers ready exactly when the operations since its last reset support it. */
  lemma ReadyMeansSettled(m: Distance, ops: seq<Op>, steady: int)
    ensures Ready(Run(m, ops), steady) <==> Settled(m, ops, steady, Track(m, ops))
  {
    hide StepsBounded, Fine, Track, Run, Rising;
    RunRemembers(m, ops);
    FineLast(m, ops, Track(m, ops));
  }

  lemma FineLast(m: Distance, ops: seq<Op>, track: seq<nat>)
    requires Listed(ops, track)
    ensures track != [] && AllFine(m, ops, track[0]) ==> Fine(m, ops[|ops| - 1])
  {
    hide Fine;
  }

  /** No operation since the first fix of the track reset the gate. */
  lemma {:induction false} TrackSinceReset(m: Distance, ops: seq<Op>, k: nat)
    requires Track(m, ops) != [] && Track(m, ops)[0] < k < |ops|
    ensures !Resets(m, Run(m, ops[..k]), ops[k])
  {
    hide Resets, Accepts;
    var n := |ops| - 1;
    if k < n {
      TrackSinceReset(m, ops[..n], k);
      assert ops[..n][..k] == ops[..k];
    }
  }

  function Millis(dt: int): real {
    7.0 * (dt as real) / 1000.0
  }

  lemma ReachIsMillis(dt: int)
    ensures Reach(dt) == Millis(dt) + 2.0
  {
  }

  lemma MillisAdd(a: int, b: int)
    ensures Millis(a) + Millis(b) == Millis(a + b)
  {
  }

  lemma Triangle(m: Distance, a: Point, b: Point, c: Point)
    requires Metric(m)
    ensures m(a, c) <= m(a, b) + m(b, c) && m(a, a) == 0.0
  {
  }

  /** Within one epoch the game position drifts at most 7 m/s, and 2 m more for each fix. */
  lemma {:induction false} DriftIsBounded(m: Distance, ops: seq<Op>, track: seq<nat>, i: nat, j: nat)
    requires Metric(m) && Listed(ops, track) && StepsBounded(m, ops, track) && i <= j < |track|
    ensures var a, b := ops[track[i]].fix, ops[track[j]].fix;
            m(a.game, b.game) <= Millis(b.time - a.time) + 2.0 * ((j - i) as real)
    decreases j
  {
    hide Metric, Reach, Millis;
    var a, b := ops[track[i]].fix, ops[track[j]].fix;
    if i == j {
      Triangle(m, a.game, a.game, a.game);
      assert Millis(0) == 0.0 by { MillisAdd(0, 0); }
    } else {
      var c := ops[track[j - 1]].fix;
      DriftIsBounded(m, ops, track, i, j - 1);
      assert m(c.game, b.game) <= Reach(b.time - c.time);
      Triangle(m, a.game, c.game, b.game);
      ReachIsMillis(b.time - c.time);
      MillisAdd(c.time - a.time, b.time - c.time);
    }
  }

  /** The drift bound holds between any two advancing fixes of the current epoch of any run. */
  lemma EpochDriftIsBounded(m: Distance, ops: seq<Op>, i: nat, j: nat)
    requires Metric(m) && i <= j < |Track(m, ops)|
    ensures var track := Track(m, ops);
            && Listed(ops, track)
            && var a, b := ops[track[i]].fix, ops[track[j]].fix;
               m(a.game, b.game) <= Millis(b.time - a.time) + 2.0 * ((j - i) as real)
  {
    hide Metric, Track, Run, StepsBounded, Rising, AllFine;
    RunRemembers(m, ops);
    DriftIsBounded(m, ops, Track(m, ops), i, j);
  }

  lemma TrackRises(m: Distance, ops: seq<Op>)
    ensures Listed(ops, Track(m, ops)) && Rising(ops, Track(m, ops))
  {
    hide Track, Run, StepsBounded, AllFine, Rising;
    RunRemembers(m, ops);
  }

  lemma RisingTimes(ops: seq<Op>, track: seq<nat>, i: nat, j: nat)
    requires Listed(ops, track) && Rising(ops, track) && i <= j < |track|
    ensures ops[track[i]].fix.time <= ops[track[j]].fix.time
  {
  }

  /** While nothing resets the gate, its track only grows. */
  lemma {:induction false} TrackGrows(m: Distance, ops: seq<Op>, i: nat, j: nat)
    requires i <= j <= |ops|
    requires forall k :: i <= k < j ==> !Resets(m, Run(m, ops[..k]), ops[k])
    ensures Track(m, ops[..i]) <= Track(m, ops[..j])
    decreases j
  {
    hide Resets, Run;
    if i < j {
      TrackGrows(m, ops, i, j - 1);
      assert ops[..j][..j - 1] == ops[..j - 1] && ops[..j][j - 1] == ops[j - 1];
      assert !Resets(m, Run(m, ops[..j - 1]), ops[j - 1]);
      NotResetFine(m, Run(m, ops[..j - 1]), ops[j - 1]);
    }
  }

  lemma NotResetFine(m: Distance, g: Gate, op: Op)
    requires !Resets(m, g, op)
    ensures op.Observe? && Accepts(m, op.fix, op.elapsed)
  {
    hide Accepts;
  }

  // ---------- the gate as it runs ----------

  class NearbyLocationGate {
    const metres: Distance
    var anchored: bool
    var anchor: Point
    var raw: Point
    var since: int
    var lastSeen: int
    var lastFix: int
    var lastElapsed: int
    var samples: nat
    var epoch: nat
    ghost var history: seq<Op>

    ghost function State(): Gate
      reads this
    {
      Gate(anchored, anchor, raw, since, lastSeen, lastFix, lastElapsed, samples, epoch)
    }

    ghost predicate Valid()
      reads this
    {
      State() == Run(metres, history)
    }

    constructor (m: Distance)
      ensures Valid() && history == [] && metres == m
    {
      metres := m;
      anchored, anchor, raw, since, lastSeen, lastFix, lastElapsed, samples, epoch :=
        false, NOWHERE, NOWHERE, 0, 0, 0, 0, 0, 0;
      history := [];
    }

    method Clear()
      modifies `anchored, `samples, `since, `lastFix, `epoch
      ensures State() == ResetGate(old(State()))
    {
      anchored, samples, since, lastFix, epoch := false, 0, 0, 0, epoch + 1;
    }

    method ResetAll()
      requires Valid()
      modifies this
      ensures Valid() && history == old(history) + [Reset]
    {
      Clear();
      history := history + [Reset];
    }

    method FollowFix(f: Fix, steady: int)
      modifies `anchored, `anchor, `raw, `since, `lastFix, `samples
      ensures State() == Follow(old(State()), f, steady)
    {
      if !anchored {
        anchored, anchor, since, samples, lastFix, raw := true, f.game, steady, 1, f.time, f.raw;
      } else if f.time > lastFix {
        lastFix := f.time;
        if samples < 3 { samples := samples + 1; }
        anchor, raw := f.game, f.raw;
      }
    }

    method ObserveFix(f: Fix, elapsed: int, steady: int)
      modifies this
      ensures State() == Step(metres, old(State()), f, elapsed, steady) && history == old(history)
    {
      hide Follow, Accepts, Reach;
      if (lastSeen != 0 && (steady < lastSeen || steady - lastSeen > 5000)) || (lastElapsed != 0 && elapsed < lastElapsed) {
        Clear();
      }
      lastSeen, lastElapsed := steady, elapsed;
      if !Accepts(metres, f, elapsed) { Clear(); return; }
      if anchored {
        var dt := f.time - lastFix;
        var rawStep, gameStep := metres(raw, f.raw), metres(anchor, f.game);
        if dt < 0 || dt > 5000 || (dt == 0 && rawStep > 0.5)
           || (dt > 0 && (rawStep > Reach(dt) || gameStep > Reach(dt)))
        {
          Clear();
        }
      }
      FollowFix(f, steady);
    }

    method Observe(f: Fix, elapsed: int, steady: int)
      requires Valid()
      modifies this
      ensures Valid() && history == old(history) + [Op.Observe(f, elapsed, steady)]
    {
      hide Step;
      ObserveFix(f, elapsed, steady);
      history := history + [Op.Observe(f, elapsed, steady)];
    }

    /** The gate is ready exactly when what it was shown since its last reset supports it. */
    method IsReady(steady: int) returns (ready: bool)
      requires Valid()
      ensures ready <==> Settled(metres, history, steady, Track(metres, history))
    {
      ReadyMeansSettled(metres, history, steady);
      ready := anchored && samples >= 3 && steady >= since && steady - since >= 3000
               && steady >= lastSeen && steady - lastSeen <= 2000;
    }
  }
}
