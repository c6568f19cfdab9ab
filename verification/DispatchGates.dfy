/** The dispatcher and its location gates together: a nearby or route start lies within one epoch of its gate. */
module DispatchGates {
  import opened DispatchSelections
  import opened DispatchState
  import N = NearbyGate
  import R = RouteGate

  /** Everything both gates were shown over a run. */
  datatype Gates = Gates(metres: N.Distance, ops: seq<N.Op>, looks: seq<R.Look>)

  /** How far the two gates had got when an event read one of them, and the time for which it asked. */
  datatype Moment = Moment(ops: nat, looks: nat, asked: int)

  predicate ReadsGate(ev: Event) {
    (ev.Selected? && ev.flow == NearbyFlow) || (ev.Started? && ev.flow == NearbyFlow)
  }

  function EpochAt(g: Gates, at: Moment, route: bool): int
    requires at.ops <= |g.ops| && at.looks <= |g.looks|
  {
    if route then R.RunRoute(g.metres, g.looks[..at.looks]).epoch else N.Run(g.metres, g.ops[..at.ops]).epoch
  }

  /** The gate's answer at the time for which it was asked. */
  ghost predicate ReadyAt(g: Gates, at: Moment, route: bool)
    requires at.ops <= |g.ops| && at.looks <= |g.looks|
  {
    if route then R.RouteReady(R.RunRoute(g.metres, g.looks[..at.looks]), at.asked)
    else N.Ready(N.Run(g.metres, g.ops[..at.ops]), at.asked)
  }

  /** What the gate had been shown by then. Nearby: three ever newer fixes since the last reset, the first of them
      3000 ms before, and the last observation at most 2000 ms before. Route: eight ever newer fixes since the last
      reset, over 10000 ms and within the speed bounds, the newest at most 4000 ms old. */
  ghost predicate EarnedAt(g: Gates, at: Moment, route: bool)
    requires at.ops <= |g.ops| && at.looks <= |g.looks|
  {
    if route then
      var looks := g.looks[..at.looks];
      var history := R.RunRoute(g.metres, looks).history;
      && |history| >= 8 && R.Trajectory(g.metres, history) && R.Seen(history, R.SinceReset(g.metres, looks))
      && history[|history| - 1].elapsed - history[0].elapsed >= 10000
      && 0 <= at.asked - history[|history| - 1].fix.time <= 4000
    else
      var ops := g.ops[..at.ops];
      N.Settled(g.metres, ops, at.asked, N.Track(g.metres, ops))
  }

  lemma ReadyIsEarned(g: Gates, at: Moment, route: bool)
    requires at.ops <= |g.ops| && at.looks <= |g.looks| && ReadyAt(g, at, route)
    ensures EarnedAt(g, at, route)
  {
    hide R.RunRoute, N.Run, R.Trajectory, R.Seen, R.RouteReady, N.Ready, N.Settled, N.Track;
    if route {
      R.ReadyIsEarned(g.metres, g.looks[..at.looks], at.asked);
      R.HistoryIsSeen(g.metres, g.looks[..at.looks]);
    } else {
      N.ReadyMeansSettled(g.metres, g.ops[..at.ops], at.asked);
    }
  }

  predicate InOrder(g: Gates, when: seq<Moment>) {
    && (forall k :: 0 <= k < |when| ==> when[k].ops <= |g.ops| && when[k].looks <= |g.looks|)
    && (forall i, j :: 0 <= i <= j < |when| ==> when[i].ops <= when[j].ops && when[i].looks <= when[j].looks)
  }

  /** The epochs and the readiness that a run read are those of the gates at the time. The nearby gate is asked for
      the monotonic clock that the event itself has read before. */
  ghost predicate ReadFrom(log: seq<Event>, g: Gates, when: seq<Moment>) {
    && |when| == |log| && InOrder(g, when)
    && (forall k :: 0 <= k < |log| && ReadsGate(log[k]) ==> log[k].epoch == EpochAt(g, when[k], log[k].route))
    && (forall k :: 0 <= k < |log| && ReadsGate(log[k]) && log[k].Started? && log[k].ready ==>
          ReadyAt(g, when[k], log[k].route) && (!log[k].route ==> when[k].asked >= log[k].at))
  }

  /** The gate was not reset from one moment to a later one. */
  ghost predicate NoResetBetween(g: Gates, from: Moment, to: Moment, route: bool)
    requires from.ops <= to.ops <= |g.ops| && from.looks <= to.looks <= |g.looks|
  {
    if route then
      forall k :: from.looks <= k < to.looks ==> !R.Breaks(g.metres, R.RunRoute(g.metres, g.looks[..k]), g.looks[k])
    else
      forall k :: from.ops <= k < to.ops ==> !N.Resets(g.metres, N.Run(g.metres, g.ops[..k]), g.ops[k])
  }

  lemma SameEpochNoReset(g: Gates, from: Moment, to: Moment, route: bool)
    requires from.ops <= to.ops <= |g.ops| && from.looks <= to.looks <= |g.looks|
    requires EpochAt(g, from, route) == EpochAt(g, to, route)
    ensures NoResetBetween(g, from, to, route)
  {
    if route {
      forall k | from.looks <= k < to.looks
        ensures !R.Breaks(g.metres, R.RunRoute(g.metres, g.looks[..k]), g.looks[k])
      {
        R.EqualRouteEpochsMeanNoReset(g.metres, g.looks, from.looks, to.looks, k);
      }
    } else {
      forall k | from.ops <= k < to.ops ensures !N.Resets(g.metres, N.Run(g.metres, g.ops[..k]), g.ops[k]) {
        N.EqualEpochsMeanNoReset(g.metres, g.ops, from.ops, to.ops, k);
      }
    }
  }

  lemma ReadBoth(log: seq<Event>, g: Gates, when: seq<Moment>, i: int, j: int)
    requires ReadFrom(log, g, when) && 0 <= j < |log| && log[j].Started? && Follows(log, i, j)
    requires log[j].flow == NearbyFlow && log[i].route == log[j].route
    ensures NoResetBetween(g, when[i], when[j], log[j].route)
  {
    hide EpochAt, ReadyAt, NoResetBetween;
    assert ReadsGate(log[i]) && ReadsGate(log[j]);
    SameEpochNoReset(g, when[i], when[j], log[j].route);
  }

  lemma AskedReady(log: seq<Event>, g: Gates, when: seq<Moment>, j: int)
    requires ReadFrom(log, g, when) && 0 <= j < |log| && log[j].Started? && log[j].flow == NearbyFlow && log[j].ready
    ensures when[j].ops <= |g.ops| && when[j].looks <= |g.looks|
    ensures EarnedAt(g, when[j], log[j].route)
    ensures !log[j].route ==> when[j].asked >= log[j].at
  {
    hide EpochAt, ReadyAt, EarnedAt;
    assert ReadsGate(log[j]);
    ReadyIsEarned(g, when[j], log[j].route);
  }

  /** Every nearby or route start follows a selection of the same team at least 1000 ms before; at the start the gate
      has been shown what makes it ready at that time; and if the route flag did not change in between, the gate was
      not reset in between. */
  lemma StartsLieInOneEpoch(steps: seq<Step>, g: Gates, when: seq<Moment>, j: int) returns (i: int)
    requires ReadFrom(Run(steps).log, g, when)
    requires 0 <= j < |Run(steps).log| && Run(steps).log[j].Started? && Run(steps).log[j].flow == NearbyFlow
    ensures Follows(Run(steps).log, i, j)
    ensures Run(steps).log[i].route == Run(steps).log[j].route ==>
              NoResetBetween(g, when[i], when[j], Run(steps).log[j].route)
    ensures EarnedAt(g, when[j], Run(steps).log[j].route)
    ensures !Run(steps).log[j].route ==> when[j].asked - Run(steps).log[i].at >= 1000
  {
    hide Run, Follows, EpochAt, EarnedAt, NoResetBetween, Recorded;
    StartsAreBacked(steps);
    var log := Run(steps).log;
    assert Later(log[j]) && Backed(log, j) && GateOpen(log[j]) && ReadsGate(log[j]);
    i :| Follows(log, i, j);
    FollowsEarlier(log, i, j);
    if log[i].route == log[j].route {
      ReadBoth(log, g, when, i, j);
    }
    AskedReady(log, g, when, j);
  }

  lemma FollowsEarlier(log: seq<Event>, i: int, j: int)
    requires 0 <= j < |log| && log[j].Started? && Follows(log, i, j)
    ensures 0 <= i < j && log[i].Selected?
    ensures log[j].flow == NearbyFlow ==> log[j].at - log[i].at >= 1000
  {
  }

  // ---------- how far the game moves between selection and start ----------

  /** The fix that the nearby gate counted last. */
  function LastFix(g: Gates, at: Moment): N.Fix
    requires at.ops <= |g.ops| && N.Track(g.metres, g.ops[..at.ops]) != []
    requires N.Listed(g.ops[..at.ops], N.Track(g.metres, g.ops[..at.ops]))
  {
    var track := N.Track(g.metres, g.ops[..at.ops]);
    g.ops[track[|track| - 1]].fix
  }

  /** Seven metres a second, and two metres for each fix that was counted in between. */
  ghost predicate Drifts(g: Gates, from: Moment, to: Moment)
    requires from.ops <= to.ops <= |g.ops|
  {
    var before, after := N.Track(g.metres, g.ops[..from.ops]), N.Track(g.metres, g.ops[..to.ops]);
    && N.Listed(g.ops[..from.ops], before) && N.Listed(g.ops[..to.ops], after) && before <= after
    && (before != [] ==>
          var a, b := LastFix(g, from), LastFix(g, to);
          && a.time <= b.time
          && g.metres(a.game, b.game) <= N.Millis(b.time - a.time) + 2.0 * ((|after| - |before|) as real))
  }

  lemma DriftsLittle(g: Gates, from: Moment, to: Moment)
    requires from.ops <= to.ops <= |g.ops| && from.looks <= to.looks <= |g.looks|
    requires NoResetBetween(g, from, to, false) && N.Metric(g.metres)
    ensures Drifts(g, from, to)
  {
    hide N.Metric, N.Track, N.Run, N.Rising, N.Millis, N.Resets;
    var m, before, after := g.metres, N.Track(g.metres, g.ops[..from.ops]), N.Track(g.metres, g.ops[..to.ops]);
    N.TrackGrows(m, g.ops, from.ops, to.ops);
    N.TrackRises(m, g.ops[..from.ops]);
    N.TrackRises(m, g.ops[..to.ops]);
    if before != [] {
      N.EpochDriftIsBounded(m, g.ops[..to.ops], |before| - 1, |after| - 1);
      N.RisingTimes(g.ops[..to.ops], after, |before| - 1, |after| - 1);
    }
  }

  /** Between the selection and the start of a nearby task the game's position drifts at most 7 m/s, and 2 m more for
      each fix. */
  lemma NearbyStartDriftsLittle(steps: seq<Step>, g: Gates, when: seq<Moment>, j: int) returns (i: int)
    requires ReadFrom(Run(steps).log, g, when) && N.Metric(g.metres)
    requires 0 <= j < |Run(steps).log| && Run(steps).log[j].Started? && Run(steps).log[j].flow == NearbyFlow
    ensures Follows(Run(steps).log, i, j)
    ensures !Run(steps).log[i].route && !Run(steps).log[j].route ==> Drifts(g, when[i], when[j])
  {
    hide Run, Follows, EpochAt, EarnedAt, NoResetBetween, N.Metric, Drifts;
    i := StartsLieInOneEpoch(steps, g, when, j);
    FollowsEarlier(Run(steps).log, i, j);
    if !Run(steps).log[i].route && !Run(steps).log[j].route {
      DriftsLittle(g, when[i], when[j]);
    }
  }
}
