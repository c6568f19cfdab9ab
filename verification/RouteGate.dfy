/** The route location gate: the game's position is matched to the recent raw trajectory. */
module RouteGate {
  import opened NearbyGate

  datatype Sample = Sample(fix: Fix, elapsed: int)

  datatype Watch = Watch(history: seq<Sample>, epoch: nat, ready: bool, seen: int)

  datatype Look = Look(fix: Fix, elapsed: int) | Forget

  const UNSEEN := Watch([], 0, false, 0)

  // ---------- one observation ----------

  predicate Timely(f: Fix, elapsed: int) {
    f.time > 0 && elapsed >= f.time && elapsed - f.time <= 2000
  }

  predicate Near(m: Distance, p: Sample, f: Fix, elapsed: int) {
    && 0 <= f.time - p.fix.time <= 2000
    && m(p.fix.raw, f.raw) <= Reach(f.time - p.fix.time)
    && m(p.fix.game, f.game) <= Reach(elapsed - p.elapsed)
  }

  predicate Continues(m: Distance, w: Watch, f: Fix, elapsed: int) {
    w.history != [] ==> 0 <= elapsed - w.seen <= 2000 && Near(m, w.history[|w.history| - 1], f, elapsed)
  }

  /** Drops the oldest samples while they are more than 12000 ms old and not the only one. */
  function Trim(history: seq<Sample>, elapsed: int): (r: seq<Sample>)
    ensures history != [] ==> r != []
  {
    if |history| > 1 && elapsed - history[0].elapsed > 12000 then Trim(history[1..], elapsed) else history
  }

  /** What is left is a suffix, and spans at most 12000 ms. */
  lemma {:induction false} TrimIsSuffix(history: seq<Sample>, elapsed: int)
    ensures var r := Trim(history, elapsed);
            && |r| <= |history| && r == history[|history| - |r|..]
            && (history != [] ==> |r| == 1 || elapsed - r[0].elapsed <= 12000)
  {
    if |history| > 1 && elapsed - history[0].elapsed > 12000 {
      TrimIsSuffix(history[1..], elapsed);
      var r := Trim(history[1..], elapsed);
      assert r == history[1..][|history| - 1 - |r|..] == history[|history| - |r|..];
    }
  }

  /** Some sample of the last 10000 ms lies within 8 m of where the game is now. */
  predicate Matches(m: Distance, history: seq<Sample>, f: Fix, elapsed: int) {
    exists k :: 0 <= k < |history| && elapsed - history[k].elapsed <= 10000 && m(history[k].fix.raw, f.game) <= 8.0
  }

  function Clear(w: Watch): Watch {
    Watch([], w.epoch + 1, false, 0)
  }

  predicate LongEnough(m: Distance, history: seq<Sample>, f: Fix, elapsed: int)
    requires history != []
  {
    && |history| >= 8 && elapsed - history[0].elapsed >= 10000
    && Matches(m, history, f, elapsed) && m(f.raw, f.game) <= 60.0
  }

  function Push(m: Distance, w: Watch, f: Fix, elapsed: int): Watch {
    var history := Trim(w.history + [Sample(f, elapsed)], elapsed);
    if !Matches(m, history, f, elapsed) && |history| > 1 then Clear(w)
    else Watch(history, w.epoch, LongEnough(m, history, f, elapsed), elapsed)
  }

  function See(m: Distance, w: Watch, f: Fix, elapsed: int): Watch {
    if !Valid(f) || !Timely(f, elapsed) || !Continues(m, w, f, elapsed) then Clear(w)
    else if w.history != [] && f.time == w.history[|w.history| - 1].fix.time then w.(seen := elapsed)
    else Push(m, w, f, elapsed)
  }

  function Handle(m: Distance, w: Watch, look: Look): Watch {
    match look
    case Look(f, elapsed) => See(m, w, f, elapsed)
    case Forget => Clear(w)
  }

  function RunRoute(m: Distance, looks: seq<Look>): Watch {
    if looks == [] then UNSEEN else Handle(m, RunRoute(m, looks[..|looks| - 1]), looks[|looks| - 1])
  }

  predicate RouteReady(w: Watch, elapsed: int) {
    w.ready && elapsed >= w.seen && elapsed - w.seen <= 2000
  }

  // ---------- what the history keeps ----------

  predicate Increasing(history: seq<Sample>) {
    forall i, j :: 0 <= i < j < |history| ==>
      history[i].fix.time < history[j].fix.time && history[i].elapsed <= history[j].elapsed
  }

  predicate AllTimely(history: seq<Sample>) {
    forall i :: 0 <= i < |history| ==> Valid(history[i].fix) && Timely(history[i].fix, history[i].elapsed)
  }

  predicate Slow(m: Distance, history: seq<Sample>) {
    forall i :: 0 < i < |history| ==> Near(m, history[i - 1], history[i].fix, history[i].elapsed)
  }

  predicate Spans(history: seq<Sample>) {
    history != [] ==> history[|history| - 1].elapsed - history[0].elapsed <= 12000
  }

  predicate Trajectory(m: Distance, history: seq<Sample>) {
    Increasing(history) && AllTimely(history) && Slow(m, history) && Spans(history)
  }

  predicate Sound(m: Distance, w: Watch) {
    && Trajectory(m, w.history)
    && (w.history != [] ==>
          var last := w.history[|w.history| - 1];
          last.elapsed <= w.seen && w.seen - last.fix.time <= 2000)
    && (w.ready ==>
          && |w.history| >= 8
          && var last := w.history[|w.history| - 1];
             LongEnough(m, w.history, last.fix, last.elapsed))
  }

  lemma SuffixTrajectory(m: Distance, history: seq<Sample>, n: nat)
    requires n <= |history| && Increasing(history) && AllTimely(history) && Slow(m, history)
    ensures Increasing(history[n..]) && AllTimely(history[n..]) && Slow(m, history[n..])
  {
    hide Near, Valid, Timely;
    var r := history[n..];
    assert forall i :: 0 <= i < |r| ==> r[i] == history[n + i];
    forall i | 0 < i < |r| ensures Near(m, r[i - 1], r[i].fix, r[i].elapsed) {
      assert r[i] == history[n + i] && r[i - 1] == history[n + i - 1];
    }
  }

  lemma PushTrajectory(m: Distance, w: Watch, f: Fix, elapsed: int)
    requires Sound(m, w) && Valid(f) && Timely(f, elapsed) && Continues(m, w, f, elapsed)
    requires w.history != [] ==> f.time != w.history[|w.history| - 1].fix.time
    ensures var longer := w.history + [Sample(f, elapsed)];
            Increasing(longer) && AllTimely(longer) && Slow(m, longer)
  {
    hide Valid, Timely, Reach, LongEnough;
    var n := |w.history|;
    var longer := w.history + [Sample(f, elapsed)];
    assert longer[n] == Sample(f, elapsed) && forall i :: 0 <= i < n ==> longer[i] == w.history[i];
    if n > 0 {
      var last := w.history[n - 1];
      assert last.fix.time < f.time && last.elapsed <= elapsed;
      assert forall i :: 0 <= i < n ==> longer[i].fix.time <= last.fix.time && longer[i].elapsed <= last.elapsed;
    }
  }

  lemma TrimTrajectory(m: Distance, longer: seq<Sample>)
    requires longer != [] && Increasing(longer) && AllTimely(longer) && Slow(m, longer)
    ensures var last := longer[|longer| - 1]; var r := Trim(longer, last.elapsed);
            Trajectory(m, r) && r[|r| - 1] == last
  {
    hide Increasing, AllTimely, Slow, Trim;
    var last := longer[|longer| - 1];
    var r := Trim(longer, last.elapsed);
    TrimIsSuffix(longer, last.elapsed);
    SuffixTrajectory(m, longer, |longer| - |r|);
    assert r[|r| - 1] == last;
  }

  lemma PushSound(m: Distance, w: Watch, f: Fix, elapsed: int)
    requires Sound(m, w) && Valid(f) && Timely(f, elapsed) && Continues(m, w, f, elapsed)
    requires w.history != [] ==> f.time != w.history[|w.history| - 1].fix.time
    ensures Sound(m, Push(m, w, f, elapsed))
  {
    hide Valid, Trajectory, LongEnough, Matches, Continues, Trim;
    var longer := w.history + [Sample(f, elapsed)];
    PushTrajectory(m, w, f, elapsed);
    assert longer[|longer| - 1] == Sample(f, elapsed);
    TrimTrajectory(m, longer);
    ClearSound(m, w);
    LongEnoughIsEight(m, Trim(longer, elapsed), f, elapsed);
  }

  lemma LongEnoughIsEight(m: Distance, history: seq<Sample>, f: Fix, elapsed: int)
    requires history != []
    ensures LongEnough(m, history, f, elapsed) ==> |history| >= 8
  {
  }

  lemma ClearSound(m: Distance, w: Watch)
    ensures Sound(m, Clear(w))
  {
  }

  lemma HandleSound(m: Distance, w: Watch, look: Look)
    requires Sound(m, w)
    ensures Sound(m, Handle(m, w, look))
  {
    hide Valid, Trajectory, LongEnough, Push, Near;
    ClearSound(m, w);
    if look.Look? && Valid(look.fix) && Timely(look.fix, look.elapsed) && Continues(m, w, look.fix, look.elapsed) {
      if w.history != [] && look.fix.time == w.history[|w.history| - 1].fix.time {
      } else {
        PushSound(m, w, look.fix, look.elapsed);
      }
    }
  }

  /** After any observations, the history is strictly increasing in raw time, fresh, slow, and at most 12000 ms long. */
  lemma {:induction false} AlwaysSound(m: Distance, looks: seq<Look>)
    ensures Sound(m, RunRoute(m, looks))
  {
    hide Sound, Handle;
    if looks == [] {
      UnseenSound(m);
    } else {
      AlwaysSound(m, looks[..|looks| - 1]);
      HandleSound(m, RunRoute(m, looks[..|looks| - 1]), looks[|looks| - 1]);
    }
  }

  lemma UnseenSound(m: Distance)
    ensures Sound(m, UNSEEN)
  {
  }

  // ---------- the size of the history ----------

  lemma {:induction false} TimesApart(history: seq<Sample>, k: nat)
    requires Increasing(history) && k < |history|
    ensures history[k].fix.time >= history[0].fix.time + k
  {
    if k > 0 {
      TimesApart(history, k - 1);
    }
  }

  /** The history never holds more than 14001 samples. */
  lemma HistoryIsShort(m: Distance, looks: seq<Look>)
    ensures |RunRoute(m, looks).history| <= 14001
  {
    hide RunRoute, Increasing, Valid, Slow, LongEnough;
    AlwaysSound(m, looks);
    var history := RunRoute(m, looks).history;
    if history != [] {
      TimesApart(history, |history| - 1);
      assert Timely(history[0].fix, history[0].elapsed);
      assert Timely(history[|history| - 1].fix, history[|history| - 1].elapsed);
    }
  }

  // ---------- what readiness promises ----------

  /** Eight fixes, each newer than the one before, over at least 10000 ms and with every step within the speed bound;
      the newest is at most 4000 ms old, and within 60 m of where the game is. */
  lemma ReadyIsEarned(m: Distance, looks: seq<Look>, elapsed: int)
    requires RouteReady(RunRoute(m, looks), elapsed)
    ensures var w := RunRoute(m, looks);
            && |w.history| >= 8 && Trajectory(m, w.history)
            && var last := w.history[|w.history| - 1];
               && last.elapsed - w.history[0].elapsed >= 10000
               && 0 <= elapsed - last.fix.time <= 4000
               && m(last.fix.raw, last.fix.game) <= 60.0
               && Matches(m, w.history, last.fix, last.elapsed)
  {
    hide RunRoute, Increasing, Slow, Matches;
    AlwaysSound(m, looks);
    var w := RunRoute(m, looks);
    assert Timely(w.history[|w.history| - 1].fix, w.history[|w.history| - 1].elapsed);
  }

  /** Along the history the raw position drifts at most 7 m/s, and 2 m more for each fix. */
  lemma {:induction false} RouteDriftIsBounded(m: Distance, history: seq<Sample>, i: nat, j: nat)
    requires Metric(m) && Slow(m, history) && i <= j < |history|
    ensures var a, b := history[i].fix, history[j].fix;
            m(a.raw, b.raw) <= Millis(b.time - a.time) + 2.0 * ((j - i) as real)
    decreases j
  {
    hide Metric, Reach, Millis;
    var a, b := history[i].fix, history[j].fix;
    if i == j {
      Triangle(m, a.raw, a.raw, a.raw);
      assert Millis(0) == 0.0 by { MillisAdd(0, 0); }
    } else {
      var c := history[j - 1].fix;
      RouteDriftIsBounded(m, history, i, j - 1);
      assert Near(m, history[j - 1], history[j].fix, history[j].elapsed);
      Triangle(m, a.raw, c.raw, b.raw);
      ReachIsMillis(b.time - c.time);
      MillisAdd(c.time - a.time, b.time - c.time);
    }
  }

  // ---------- epochs ----------

  predicate Breaks(m: Distance, w: Watch, look: Look) {
    || look.Forget?
    || !Valid(look.fix) || !Timely(look.fix, look.elapsed) || !Continues(m, w, look.fix, look.elapsed)
    || (var history := Trim(w.history + [Sample(look.fix, look.elapsed)], look.elapsed);
        && (w.history != [] ==> look.fix.time != w.history[|w.history| - 1].fix.time)
        && |history| > 1 && !Matches(m, history, look.fix, look.elapsed))
  }

  lemma RouteEpochCountsResets(m: Distance, w: Watch, look: Look)
    ensures Handle(m, w, look).epoch == if Breaks(m, w, look) then w.epoch + 1 else w.epoch
  {
    hide Valid, Timely, Continues, Matches, Trim, LongEnough;
  }

  lemma RouteRunStep(m: Distance, looks: seq<Look>, k: nat)
    requires k < |looks|
    ensures RunRoute(m, looks[..k + 1]) == Handle(m, RunRoute(m, looks[..k]), looks[k])
  {
    assert looks[..k + 1][..k] == looks[..k];
  }

  lemma {:induction false} RouteEpochsGrow(m: Distance, looks: seq<Look>, i: nat, j: nat)
    requires i <= j <= |looks|
    ensures RunRoute(m, looks[..i]).epoch <= RunRoute(m, looks[..j]).epoch
  {
    hide Handle, Breaks;
    if i < j {
      RouteEpochsGrow(m, looks, i, j - 1);
      RouteRunStep(m, looks, j - 1);
      RouteEpochCountsResets(m, RunRoute(m, looks[..j - 1]), looks[j - 1]);
    }
  }

  /** Two equal epochs mean that nothing between them reset the gate. */
  lemma EqualRouteEpochsMeanNoReset(m: Distance, looks: seq<Look>, i: nat, j: nat, k: nat)
    requires i <= k < j <= |looks|
    requires RunRoute(m, looks[..i]).epoch == RunRoute(m, looks[..j]).epoch
    ensures !Breaks(m, RunRoute(m, looks[..k]), looks[k])
  {
    hide RunRoute, Handle, Breaks;
    RouteEpochsGrow(m, looks, i, k);
    RouteEpochsGrow(m, looks, k, k + 1);
    RouteEpochsGrow(m, looks, k + 1, j);
    RouteRunStep(m, looks, k);
    RouteEpochCountsResets(m, RunRoute(m, looks[..k]), looks[k]);
  }

  // ---------- the history comes from the observations since the last reset ----------

  function SinceReset(m: Distance, looks: seq<Look>): seq<Look> {
    if looks == [] then []
    else
      var n := |looks| - 1;
      if Breaks(m, RunRoute(m, looks[..n]), looks[n]) then [] else SinceReset(m, looks[..n]) + [looks[n]]
  }

  predicate Seen(history: seq<Sample>, looks: seq<Look>) {
    forall i :: 0 <= i < |history| ==> Look.Look(history[i].fix, history[i].elapsed) in looks
  }

  lemma HandleSeen(m: Distance, w: Watch, look: Look, before: seq<Look>)
    requires Seen(w.history, before)
    ensures if Breaks(m, w, look) then Handle(m, w, look).history == []
            else Seen(Handle(m, w, look).history, before + [look])
  {
    hide Valid, Timely, Continues, Matches, LongEnough, Trim;
    if !Breaks(m, w, look) {
      var longer := w.history + [Sample(look.fix, look.elapsed)];
      var history := Trim(longer, look.elapsed);
      TrimIsSuffix(longer, look.elapsed);
      assert forall i :: 0 <= i < |history| ==> history[i] == longer[|longer| - |history| + i];
    }
  }

  lemma {:induction false} HistoryIsSeen(m: Distance, looks: seq<Look>)
    ensures Seen(RunRoute(m, looks).history, SinceReset(m, looks))
  {
    hide Breaks, Handle;
    if looks != [] {
      var n := |looks| - 1;
      HistoryIsSeen(m, looks[..n]);
      HandleSeen(m, RunRoute(m, looks[..n]), looks[n], SinceReset(m, looks[..n]));
    }
  }

  // ---------- the gate as it runs ----------

  class RouteLocationGate {
    const metres: Distance
    var history: seq<Sample>
    var epoch: nat
    var ready: bool
    var seen: int
    ghost var looks: seq<Look>

    ghost function State(): Watch
      reads this
    {
      Watch(history, epoch, ready, seen)
    }

    ghost predicate Valid()
      reads this
    {
      State() == RunRoute(metres, looks)
    }

    constructor (m: Distance)
      ensures Valid() && looks == [] && metres == m
    {
      metres := m;
      history, epoch, ready, seen := [], 0, false, 0;
      looks := [];
    }

    method Erase()
      modifies `history, `epoch, `ready, `seen
      ensures State() == Clear(old(State()))
    {
      history, ready, seen, epoch := [], false, 0, epoch + 1;
    }

    method Reset()
      requires Valid()
      modifies this
      ensures Valid() && looks == old(looks) + [Forget]
    {
      Erase();
      looks := looks + [Forget];
    }

    method DropOld(elapsed: int)
      modifies `history
      ensures history == Trim(old(history), elapsed)
    {
      while |history| > 1 && elapsed - history[0].elapsed > 12000
        invariant Trim(history, elapsed) == Trim(old(history), elapsed)
        decreases |history|
      {
        history := history[1..];
      }
    }

    method FindMatch(f: Fix, elapsed: int) returns (matches: bool)
      ensures matches <==> Matches(metres, history, f, elapsed)
    {
      matches := false;
      var k := 0;
      while k < |history| && !matches
        invariant 0 <= k <= |history|
        invariant !matches ==> !Matches(metres, history[..k], f, elapsed)
        invariant matches ==> Matches(metres, history, f, elapsed)
      {
        var p := history[k];
        if elapsed - p.elapsed <= 10000 && metres(p.fix.raw, f.game) <= 8.0 { matches := true; }
        k := k + 1;
      }
      if !matches {
        assert history[..k] == history;
      }
    }

    method PushSample(f: Fix, elapsed: int)
      modifies `history, `epoch, `ready, `seen
      ensures State() == Push(metres, old(State()), f, elapsed)
    {
      hide Matches, Trim;
      seen := elapsed;
      history := history + [Sample(f, elapsed)];
      DropOld(elapsed);
      var matches := FindMatch(f, elapsed);
      ready := |history| >= 8 && elapsed - history[0].elapsed >= 10000 && matches && metres(f.raw, f.game) <= 60.0;
      if !matches && |history| > 1 { Erase(); }
    }

    method SeeFix(f: Fix, elapsed: int)
      modifies `history, `epoch, `ready, `seen
      ensures State() == See(metres, old(State()), f, elapsed)
    {
      hide NearbyGate.Valid, Push, Reach;
      if !NearbyGate.Valid(f) || f.time <= 0 || elapsed < f.time || elapsed - f.time > 2000 { Erase(); return; }
      if history != [] {
        var p := history[|history| - 1];
        var dt := f.time - p.fix.time;
        if elapsed < seen || elapsed - seen > 2000 || dt < 0 || dt > 2000
           || metres(p.fix.raw, f.raw) > Reach(dt) || metres(p.fix.game, f.game) > Reach(elapsed - p.elapsed)
        {
          Erase();
          return;
        }
        if dt == 0 { seen := elapsed; return; }
      }
      PushSample(f, elapsed);
    }

    method Observe(f: Fix, elapsed: int)
      requires Valid()
      modifies this
      ensures Valid() && looks == old(looks) + [Look.Look(f, elapsed)]
    {
      hide See;
      SeeFix(f, elapsed);
      looks := looks + [Look.Look(f, elapsed)];
    }

    /** A ready answer is earned by the observations since the last reset. */
    method IsReady(elapsed: int) returns (r: bool)
      requires Valid()
      ensures r <==> RouteReady(RunRoute(metres, looks), elapsed)
      ensures r ==> |history| >= 8 && Trajectory(metres, history) && Seen(history, SinceReset(metres, looks))
    {
      r := ready && elapsed >= seen && elapsed - seen <= 2000;
      if r {
        ReadyIsEarned(metres, looks, elapsed);
        HistoryIsSeen(metres, looks);
      }
    }
  }
}
