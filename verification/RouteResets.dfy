/** When the route gate resets and when it is ready, told from the observations alone. */
module RouteResets {
  import opened NearbyGate
  import opened Options
  import opened RouteGate

  /** Both positions are on the globe, and the fix is at most two seconds old. */
  predicate Current(f: Fix, elapsed: int) {
    && f.valid
    && -90.0 <= f.raw.lat <= 90.0 && -180.0 <= f.raw.lng <= 180.0
    && -90.0 <= f.game.lat <= 90.0 && -180.0 <= f.game.lng <= 180.0
    && 0 < f.time <= elapsed <= f.time + 2000
  }

  /** From the sample p, observed last at `seen`, the observation is at most two seconds later and of a fix that is at most
      two seconds newer, within 7 m/s and 2 m more for the raw and for the game position. */
  predicate Steps(m: Distance, p: Sample, seen: int, f: Fix, elapsed: int) {
    && seen <= elapsed <= seen + 2000 && p.fix.time <= f.time <= p.fix.time + 2000
    && m(p.fix.raw, f.raw) <= 7.0 * ((f.time - p.fix.time) as real) / 1000.0 + 2.0
    && m(p.fix.game, f.game) <= 7.0 * ((elapsed - p.elapsed) as real) / 1000.0 + 2.0
  }

  /** The game is within 8 m of where one of the samples of the last ten seconds was. */
  ghost predicate OnTrack(m: Distance, kept: seq<Sample>, f: Fix, elapsed: int) {
    m(f.raw, f.game) <= 8.0
    || exists k :: 0 <= k < |kept| && kept[k].elapsed >= elapsed - 10000 && m(kept[k].fix.raw, f.game) <= 8.0
  }

  /** Some sample is at most twelve seconds old. */
  predicate SomeRecent(kept: seq<Sample>, elapsed: int) {
    exists k :: 0 <= k < |kept| && kept[k].elapsed >= elapsed - 12000
  }

  /** A fix that was not observed just before. */
  predicate NewFix(kept: seq<Sample>, f: Fix) {
    kept == [] || f.time != kept[|kept| - 1].fix.time
  }

  /** The fixes that were counted among the first n observations, since what reset the gate last. */
  ghost function Kept(m: Distance, looks: seq<Look>, n: nat): (kept: seq<Sample>)
    requires n <= |looks|
    ensures kept != [] ==> n > 0 && looks[n - 1].Look?
    decreases n, 0
  {
    if n == 0 || BreaksOff(m, looks, n - 1) then []
    else
      var kept, look := Kept(m, looks, n - 1), looks[n - 1];
      if NewFix(kept, look.fix) then kept + [Sample(look.fix, look.elapsed)] else kept
  }

  /** Observation n resets the gate. */
  ghost predicate BreaksOff(m: Distance, looks: seq<Look>, n: nat)
    requires n < |looks|
    decreases n, 1
  {
    looks[n].Forget? || !Current(looks[n].fix, looks[n].elapsed) ||
    var kept, f, elapsed := Kept(m, looks, n), looks[n].fix, looks[n].elapsed;
    (kept != [] && !Steps(m, kept[|kept| - 1], looks[n - 1].elapsed, f, elapsed))
    || (NewFix(kept, f) && SomeRecent(kept, elapsed) && !OnTrack(m, kept, f, elapsed))
  }

  /** The samples that are at most twelve seconds old. */
  function Recent(kept: seq<Sample>, elapsed: int): (r: seq<Sample>) {
    if kept == [] then []
    else (if kept[0].elapsed >= elapsed - 12000 then [kept[0]] else []) + Recent(kept[1..], elapsed)
  }

  /** At least eight fixes in the last twelve seconds, the oldest of them at least ten seconds old, the game on the track
      and within 60 m of the raw position. */
  ghost predicate Earns(m: Distance, kept: seq<Sample>) {
    && kept != []
    && var last := kept[|kept| - 1];
       var recent := Recent(kept, last.elapsed);
       && |recent| >= 8 && recent[0].elapsed <= last.elapsed - 10000
       && OnTrack(m, kept, last.fix, last.elapsed) && m(last.fix.raw, last.fix.game) <= 60.0
  }

  // ---------- the window of the gate ----------

  predicate Ascends(kept: seq<Sample>) {
    forall i, j :: 0 <= i < j < |kept| ==> kept[i].elapsed <= kept[j].elapsed
  }

  lemma {:induction false} RecentAll(kept: seq<Sample>, elapsed: int)
    requires forall k :: 0 <= k < |kept| ==> kept[k].elapsed >= elapsed - 12000
    ensures Recent(kept, elapsed) == kept
  {
    if kept != [] {
      RecentAll(kept[1..], elapsed);
      assert kept == [kept[0]] + kept[1..];
    }
  }

  lemma {:induction false} TrimIsRecent(history: seq<Sample>, elapsed: int)
    requires Ascends(history) && history != [] && history[|history| - 1].elapsed == elapsed
    ensures Trim(history, elapsed) == Recent(history, elapsed)
  {
    if |history| > 1 && elapsed - history[0].elapsed > 12000 {
      assert history[1..][|history| - 2] == history[|history| - 1];
      TrimIsRecent(history[1..], elapsed);
    } else {
      RecentAll(history, elapsed);
    }
  }

  function Recently(s: Sample, elapsed: int): seq<Sample> {
    if s.elapsed >= elapsed - 12000 then [s] else []
  }

  lemma RecentFirst(kept: seq<Sample>, elapsed: int)
    requires kept != []
    ensures Recent(kept, elapsed) == Recently(kept[0], elapsed) + Recent(kept[1..], elapsed)
  {
  }

  lemma {:induction false} RecentSplits(a: seq<Sample>, b: seq<Sample>, elapsed: int)
    ensures Recent(a + b, elapsed) == Recent(a, elapsed) + Recent(b, elapsed)
  {
    if a == [] {
      assert a + b == b;
    } else {
      hide Recent, Recently;
      var rest := a[1..];
      assert (a + b)[1..] == rest + b && (a + b)[0] == a[0];
      RecentSplits(rest, b, elapsed);
      RecentFirst(a, elapsed);
      RecentFirst(a + b, elapsed);
    }
  }

  lemma {:induction false} RecentTwice(kept: seq<Sample>, before: int, elapsed: int)
    requires before <= elapsed
    ensures Recent(Recent(kept, before), elapsed) == Recent(kept, elapsed)
  {
    if kept != [] {
      hide Recent;
      RecentTwice(kept[1..], before, elapsed);
      RecentFirst(kept, before);
      RecentFirst(kept, elapsed);
      RecentSplits(Recently(kept[0], before), Recent(kept[1..], before), elapsed);
      RecentOne(kept[0], elapsed);
    }
  }

  lemma RecentOne(s: Sample, elapsed: int)
    ensures Recent([s], elapsed) == Recently(s, elapsed)
    ensures Recent([], elapsed) == []
  {
    assert [s][1..] == [];
  }

  lemma {:induction false} RecentIn(kept: seq<Sample>, elapsed: int, s: Sample)
    ensures s in Recent(kept, elapsed) <==> s in kept && s.elapsed >= elapsed - 12000
  {
    if kept != [] {
      RecentIn(kept[1..], elapsed, s);
      assert kept == [kept[0]] + kept[1..];
    }
  }

  // ---------- the gate keeps to it ----------

  /** The fields of the gate after n observations. */
  ghost predicate Agrees(m: Distance, looks: seq<Look>, n: nat)
    requires n <= |looks|
  {
    var w, kept := RunRoute(m, looks[..n]), Kept(m, looks, n);
    && Ascends(kept)
    && if kept == [] then w.history == [] && !w.ready
       else
         && w.history == Recent(kept, kept[|kept| - 1].elapsed)
         && w.seen == looks[n - 1].elapsed >= kept[|kept| - 1].elapsed
         && (w.ready <==> Earns(m, kept))
  }

  lemma CurrentIsTimely(f: Fix, elapsed: int)
    ensures Current(f, elapsed) <==> Valid(f) && Timely(f, elapsed)
  {
  }

  lemma LastRecent(kept: seq<Sample>)
    requires kept != []
    ensures var last := kept[|kept| - 1]; var r := Recent(kept, last.elapsed); r != [] && r[|r| - 1] == last
  {
    hide Recent;
    var last := kept[|kept| - 1];
    assert kept == kept[..|kept| - 1] + [last];
    RecentSplits(kept[..|kept| - 1], [last], last.elapsed);
    RecentOne(last, last.elapsed);
  }

  lemma StepsIsContinues(m: Distance, w: Watch, kept: seq<Sample>, f: Fix, elapsed: int)
    requires kept != [] && w.history == Recent(kept, kept[|kept| - 1].elapsed)
    ensures Steps(m, kept[|kept| - 1], w.seen, f, elapsed) <==> Continues(m, w, f, elapsed)
  {
    hide Recent;
    LastRecent(kept);
  }

  /** The trimmed window with a new sample is what is recent of all samples. */
  lemma TrimmedIs(kept: seq<Sample>, before: int, f: Fix, elapsed: int)
    requires Ascends(kept) && (kept != [] ==> before == kept[|kept| - 1].elapsed <= elapsed)
    ensures Trim((if kept == [] then [] else Recent(kept, before)) + [Sample(f, elapsed)], elapsed)
         == Recent(kept + [Sample(f, elapsed)], elapsed)
  {
    hide Recent, Trim;
    var s := Sample(f, elapsed);
    RecentSplits(kept, [s], elapsed);
    RecentOne(s, elapsed);
    var window := if kept == [] then [] else Recent(kept, before);
    if kept == [] {
      assert kept + [s] == [s] && window + [s] == [s];
      TrimIsRecent([s], elapsed);
    } else {
      AscendsRecent(kept, before);
      RecentIn2(kept, before);
      assert Ascends(window + [s]);
      TrimIsRecent(window + [s], elapsed);
      RecentSplits(window, [s], elapsed);
      RecentTwice(kept, before, elapsed);
    }
  }

  lemma RecentIn2(kept: seq<Sample>, before: int)
    requires Ascends(kept) && kept != [] && before == kept[|kept| - 1].elapsed
    ensures forall k :: 0 <= k < |Recent(kept, before)| ==> Recent(kept, before)[k].elapsed <= before
  {
    hide Recent;
    forall k | 0 <= k < |Recent(kept, before)|
      ensures Recent(kept, before)[k].elapsed <= before
    {
      RecentIn(kept, before, Recent(kept, before)[k]);
    }
  }

  lemma {:induction false} AscendsRecent(kept: seq<Sample>, elapsed: int)
    requires Ascends(kept)
    ensures Ascends(Recent(kept, elapsed))
  {
    if kept != [] {
      AscendsRecent(kept[1..], elapsed);
      forall s | s in Recent(kept[1..], elapsed)
        ensures s.elapsed >= kept[0].elapsed
      {
        RecentIn(kept[1..], elapsed, s);
      }
    }
  }

  lemma MatchesIs(m: Distance, kept: seq<Sample>, f: Fix, elapsed: int)
    requires kept != [] && kept[|kept| - 1] == Sample(f, elapsed)
    ensures Matches(m, Recent(kept, elapsed), f, elapsed) <==> OnTrack(m, kept[..|kept| - 1], f, elapsed)
    ensures OnTrack(m, kept, f, elapsed) <==> OnTrack(m, kept[..|kept| - 1], f, elapsed)
  {
    hide Recent;
    var r, before := Recent(kept, elapsed), kept[..|kept| - 1];
    forall s ensures s in r <==> s in kept && s.elapsed >= elapsed - 12000 { RecentIn(kept, elapsed, s); }
    if OnTrack(m, before, f, elapsed) {
      if m(f.raw, f.game) <= 8.0 {
        assert kept[|kept| - 1] in r;
        var k :| 0 <= k < |r| && r[k] == kept[|kept| - 1];
      } else {
        var k :| 0 <= k < |before| && before[k].elapsed >= elapsed - 10000 && m(before[k].fix.raw, f.game) <= 8.0;
        assert kept[k] == before[k] && kept[k] in r;
        var i :| 0 <= i < |r| && r[i] == kept[k];
      }
    }
    if Matches(m, r, f, elapsed) {
      var i :| 0 <= i < |r| && elapsed - r[i].elapsed <= 10000 && m(r[i].fix.raw, f.game) <= 8.0;
      assert r[i] in r;
      var k :| 0 <= k < |kept| && kept[k] == r[i];
      assert k < |before| ==> before[k] == kept[k];
    }
    assert forall k :: 0 <= k < |before| ==> before[k] == kept[k];
  }

  lemma RecentNonempty(kept: seq<Sample>, f: Fix, elapsed: int)
    ensures |Recent(kept + [Sample(f, elapsed)], elapsed)| > 1 <==> SomeRecent(kept, elapsed)
    ensures Recent(kept + [Sample(f, elapsed)], elapsed) != []
  {
    hide Recent;
    var s, r := Sample(f, elapsed), Recent(kept, elapsed);
    RecentSplits(kept, [s], elapsed);
    RecentOne(s, elapsed);
    if r != [] {
      RecentIn(kept, elapsed, r[0]);
      var k :| 0 <= k < |kept| && kept[k] == r[0];
    }
    if k :| 0 <= k < |kept| && kept[k].elapsed >= elapsed - 12000 {
      RecentIn(kept, elapsed, kept[k]);
    }
  }

  /** The window of the gate, where `before` is the time of the newest sample. */
  predicate Window(w: Watch, kept: seq<Sample>) {
    && Ascends(kept)
    && if kept == [] then w.history == []
       else w.history == Recent(kept, kept[|kept| - 1].elapsed) && w.seen >= kept[|kept| - 1].elapsed
  }

  lemma NextWindow(m: Distance, w: Watch, kept: seq<Sample>, f: Fix, elapsed: int)
    requires Window(w, kept) && (kept != [] ==> elapsed >= w.seen)
    ensures var s := Sample(f, elapsed); var history := Trim(w.history + [s], elapsed);
      && history == Recent(kept + [s], elapsed) != []
      && (|history| > 1 <==> SomeRecent(kept, elapsed))
      && (Matches(m, history, f, elapsed) <==> OnTrack(m, kept, f, elapsed))
      && (OnTrack(m, kept + [s], f, elapsed) <==> OnTrack(m, kept, f, elapsed))
      && Ascends(kept + [s])
  {
    hide Recent, Trim, SomeRecent, OnTrack, Matches;
    var s := Sample(f, elapsed);
    TrimmedIs(kept, if kept == [] then elapsed else kept[|kept| - 1].elapsed, f, elapsed);
    RecentNonempty(kept, f, elapsed);
    assert (kept + [s])[..|kept + [s]| - 1] == kept;
    MatchesIs(m, kept + [s], f, elapsed);
  }

  lemma LastFix(w: Watch, kept: seq<Sample>, f: Fix)
    requires Window(w, kept)
    ensures (w.history != [] ==> f.time != w.history[|w.history| - 1].fix.time) <==> NewFix(kept, f)
    ensures w.history == [] <==> kept == []
  {
    hide Recent;
    if kept != [] { LastRecent(kept); }
  }

  lemma BreaksOffIsBreak(m: Distance, looks: seq<Look>, n: nat)
    requires n < |looks| && Agrees(m, looks, n)
    ensures BreaksOff(m, looks, n) <==> Breaks(m, RunRoute(m, looks[..n]), looks[n])
  {
    hide Recent, Trim, SomeRecent, OnTrack, RouteGate.Matches, RunRoute, Current, Valid, Timely, Steps, Continues, Earns;
    var w, kept, look := RunRoute(m, looks[..n]), Kept(m, looks, n), looks[n];
    if look.Look? {
      CurrentIsTimely(look.fix, look.elapsed);
      LastFix(w, kept, look.fix);
      if kept != [] {
        StepsIsContinues(m, w, kept, look.fix, look.elapsed);
        assert Steps(m, kept[|kept| - 1], w.seen, look.fix, look.elapsed) ==> look.elapsed >= w.seen by { StepsLater(m, kept[|kept| - 1], w.seen, look.fix, look.elapsed); }
      } else {
        assert Continues(m, w, look.fix, look.elapsed) by { FreshContinues(m, w, look.fix, look.elapsed); }
      }
      if kept == [] || look.elapsed >= w.seen { NextWindow(m, w, kept, look.fix, look.elapsed); }
    }
  }

  lemma StepsLater(m: Distance, p: Sample, seen: int, f: Fix, elapsed: int)
    ensures Steps(m, p, seen, f, elapsed) ==> elapsed >= seen
  {
  }

  lemma FreshContinues(m: Distance, w: Watch, f: Fix, elapsed: int)
    requires w.history == []
    ensures Continues(m, w, f, elapsed)
  {
  }

  lemma PushAgrees(m: Distance, w: Watch, kept: seq<Sample>, f: Fix, elapsed: int)
    requires Window(w, kept) && (kept != [] ==> elapsed >= w.seen) && !(SomeRecent(kept, elapsed) && !OnTrack(m, kept, f, elapsed))
    ensures var s := Sample(f, elapsed); var r := Push(m, w, f, elapsed);
      Window(r, kept + [s]) && r.seen == elapsed && (r.ready <==> Earns(m, kept + [s]))
  {
    hide Recent, Trim, SomeRecent, OnTrack, RouteGate.Matches;
    NextWindow(m, w, kept, f, elapsed);
  }

  lemma AgreesNext(m: Distance, looks: seq<Look>, n: nat)
    requires n < |looks| && Agrees(m, looks, n)
    ensures Agrees(m, looks, n + 1)
  {
    hide Recent, Trim, SomeRecent, OnTrack, RouteGate.Matches, RunRoute, Current, Valid, Timely, Steps, Continues, Earns,
         Push, Breaks, BreaksOff;
    var w, kept, look := RunRoute(m, looks[..n]), Kept(m, looks, n), looks[n];
    RouteRunStep(m, looks, n);
    BreaksOffIsBreak(m, looks, n);
    if BreaksOff(m, looks, n) {
      assert Handle(m, w, look).history == [] && !Handle(m, w, look).ready by { BreakClears(m, w, look); }
    } else {
      NoBreak(m, w, look);
      LastFix(w, kept, look.fix);
      if NewFix(kept, look.fix) {
        NoBreakHere(m, looks, n);
        PushAgrees(m, w, kept, look.fix, look.elapsed);
      }
    }
  }

  lemma BreakClears(m: Distance, w: Watch, look: Look)
    requires Breaks(m, w, look)
    ensures Handle(m, w, look).history == [] && !Handle(m, w, look).ready
  {
    hide Valid, Timely, Continues, RouteGate.Matches, Trim, LongEnough;
  }

  lemma NoBreak(m: Distance, w: Watch, look: Look)
    requires !Breaks(m, w, look)
    ensures look.Look? && (w.history != [] ==> look.elapsed >= w.seen)
    ensures Handle(m, w, look) ==
      if w.history != [] && look.fix.time == w.history[|w.history| - 1].fix.time then w.(seen := look.elapsed)
      else Push(m, w, look.fix, look.elapsed)
  {
    hide Valid, Timely, RouteGate.Matches, Trim, LongEnough, Push;
  }

  lemma NoBreakHere(m: Distance, looks: seq<Look>, n: nat)
    requires n < |looks| && !BreaksOff(m, looks, n) && NewFix(Kept(m, looks, n), looks[n].fix)
    ensures !(SomeRecent(Kept(m, looks, n), looks[n].elapsed) && !OnTrack(m, Kept(m, looks, n), looks[n].fix, looks[n].elapsed))
  {
    hide SomeRecent, OnTrack, Current, Steps;
  }

  lemma {:induction false} AlwaysAgrees(m: Distance, looks: seq<Look>, n: nat)
    requires n <= |looks|
    ensures Agrees(m, looks, n)
  {
    hide Agrees;
    if n == 0 {
      NothingAgrees(m, looks);
    } else {
      AlwaysAgrees(m, looks, n - 1);
      AgreesNext(m, looks, n - 1);
    }
  }

  lemma NothingAgrees(m: Distance, looks: seq<Look>)
    ensures Agrees(m, looks, 0)
  {
    assert looks[..0] == [];
  }

  // ---------- the laws ----------

  /** The epoch changes exactly with the observations that reset the gate. */
  lemma RouteEpochChangesExactly(m: Distance, looks: seq<Look>, n: nat)
    requires n < |looks|
    ensures RunRoute(m, looks[..n + 1]).epoch != RunRoute(m, looks[..n]).epoch <==> BreaksOff(m, looks, n)
  {
    hide RunRoute, Handle, Breaks, BreaksOff, Agrees;
    AlwaysAgrees(m, looks, n);
    BreaksOffIsBreak(m, looks, n);
    RouteRunStep(m, looks, n);
    RouteEpochCountsResets(m, RunRoute(m, looks[..n]), looks[n]);
  }

  /** The gate is ready exactly when the fixes counted since the last reset earn it and the last observation was at most
      two seconds ago. */
  lemma RouteReadyExactly(m: Distance, looks: seq<Look>, elapsed: int)
    ensures var kept := Kept(m, looks, |looks|);
      RouteReady(RunRoute(m, looks), elapsed) <==>
        Earns(m, kept) && looks[|looks| - 1].elapsed <= elapsed <= looks[|looks| - 1].elapsed + 2000
  {
    hide RunRoute, Kept, Recent, OnTrack;
    AlwaysAgrees(m, looks, |looks|);
    assert looks[..|looks|] == looks;
  }
}
