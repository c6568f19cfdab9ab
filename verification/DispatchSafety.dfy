/** Over every run, a Pikmin that was sent out is not sent out again before it is seen back. */
module DispatchSafety {
  import opened DispatchCoupling
  import opened DispatchState
  import opened DispatchTeams
  import opened Options
  import opened Reservations

  // ---------- evidence that a Pikmin is free again ----------

  predicate BusyAt(ev: Event, p: string) {
    ev == StatusSeen(p, BUSY)
  }

  predicate FreeAt(ev: Event, p: string) {
    ev.StatusSeen? && ev.pikmin == p && Available(ev.status)
  }

  ghost predicate BusySince(log: seq<Event>, i: int, p: string, n: int)
    requires 0 <= i && n <= |log|
  {
    exists b :: i < b < n && BusyAt(log[b], p)
  }

  /** The Pikmin was seen busy, and then available. */
  ghost predicate Returned(log: seq<Event>, i: int, p: string, n: int)
    requires 0 <= i && n <= |log|
  {
    exists f :: i < f < n && FreeAt(log[f], p) && BusySince(log, i, p, f)
  }

  predicate LeavesOut(ev: Event, task: string, sentAt: int) {
    ev.ScanClosed? && ev.complete && ev.observed > sentAt && task !in ev.live
  }

  /** A complete list, read after the start, does not have the task any more. */
  ghost predicate TaskGone(log: seq<Event>, i: int, n: int)
    requires 0 <= i < |log| && log[i].Started? && n <= |log|
  {
    exists k :: i < k < n && LeavesOut(log[k], log[i].task, log[i].sentAt)
  }

  ghost predicate Freed(log: seq<Event>, i: int, p: string, n: int)
    requires 0 <= i < |log| && log[i].Started? && n <= |log|
  {
    Returned(log, i, p, n) || TaskGone(log, i, n)
  }

  predicate SendsOut(ev: Event, p: string) {
    ev.Started? && p in ev.team
  }

  /** Another start of the Pikmin, or of the task it was sent out for. */
  predicate Again(ev: Event, first: Event, p: string) {
    ev.Started? && first.Started? && (p in ev.team || ev.task == first.task)
  }

  // ---------- the invariant ----------

  ghost predicate StillHeld(h: Holds, log: seq<Event>, i: int, p: string)
    requires 0 <= i < |log| && log[i].Started?
  {
    && p in h && h[p].sent && h[p].owner == log[i].task && h[p].sentMs == log[i].sentAt
    && (h[p].sawBusy ==> BusySince(log, i, p, |log|))
  }

  ghost predicate Watched(h: Holds, log: seq<Event>, i: int, p: string)
    requires 0 <= i < |log| && log[i].Started?
  {
    Freed(log, i, p, |log|) || StillHeld(h, log, i, p)
  }

  ghost predicate AllWatched(h: Holds, log: seq<Event>) {
    forall i, p :: 0 <= i < |log| && SendsOut(log[i], p) ==> Watched(h, log, i, p)
  }

  ghost predicate Exclusive(log: seq<Event>) {
    forall i, j, p :: 0 <= i < j < |log| && SendsOut(log[i], p) && Again(log[j], log[i], p) ==> Freed(log, i, p, j)
  }

  ghost predicate UnsentUnseen(h: Holds) {
    forall id :: id in h && !h[id].sent ==> !h[id].sawBusy
  }

  ghost predicate Safe(h: Holds, log: seq<Event>) {
    AllWatched(h, log) && Exclusive(log) && UnsentUnseen(h)
  }

  // ---------- longer logs ----------

  lemma BusyGrows(log: seq<Event>, ev: Event, i: int, p: string, n: int)
    requires 0 <= i && n <= |log| && BusySince(log, i, p, n)
    ensures BusySince(log + [ev], i, p, n) && BusySince(log + [ev], i, p, |log| + 1)
  {
    var b :| i < b < n && BusyAt(log[b], p);
    assert (log + [ev])[b] == log[b];
  }

  lemma FreedGrows(log: seq<Event>, ev: Event, i: int, p: string, n: int)
    requires 0 <= i < |log| && log[i].Started? && n <= |log| && Freed(log, i, p, n)
    ensures Freed(log + [ev], i, p, n) && Freed(log + [ev], i, p, |log| + 1)
  {
    hide BusySince;
    var longer := log + [ev];
    if Returned(log, i, p, n) {
      var f :| i < f < n && FreeAt(log[f], p) && BusySince(log, i, p, f);
      BusyGrows(log, ev, i, p, f);
      assert longer[f] == log[f];
    } else {
      var k :| i < k < n && LeavesOut(log[k], log[i].task, log[i].sentAt);
      assert longer[k] == log[k];
    }
  }

  lemma ExclusiveGrows(log: seq<Event>, ev: Event)
    requires Exclusive(log) && !ev.Started?
    ensures Exclusive(log + [ev])
  {
    hide Freed;
    var longer := log + [ev];
    forall i, j, p | 0 <= i < j < |longer| && SendsOut(longer[i], p) && Again(longer[j], longer[i], p)
      ensures Freed(longer, i, p, j)
    {
      assert Freed(log, i, p, j);
      FreedGrows(log, ev, i, p, j);
    }
  }

  /** Each start is watched after an event that is not a start, if it is case by case. */
  lemma SafeGrows(h: Holds, h': Holds, log: seq<Event>, ev: Event)
    requires Safe(h, log) && !ev.Started? && UnsentUnseen(h')
    requires forall i, p :: 0 <= i < |log| && SendsOut(log[i], p) && StillHeld(h, log, i, p) ==>
               Watched(h', log + [ev], i, p)
    ensures Safe(h', log + [ev])
  {
    hide Freed, StillHeld, UnsentUnseen;
    ExclusiveGrows(log, ev);
    var longer := log + [ev];
    forall i, p | 0 <= i < |longer| && SendsOut(longer[i], p) ensures Watched(h', longer, i, p) {
      assert longer[i] == log[i] && Watched(h, log, i, p);
      if Freed(log, i, p, |log|) { FreedGrows(log, ev, i, p, |log|); }
    }
  }

  lemma SameHoldsGrow(h: Holds, log: seq<Event>, ev: Event)
    requires Safe(h, log) && !ev.Started?
    ensures Safe(h, log + [ev])
  {
    hide Freed, BusySince, Exclusive;
    forall i, p | 0 <= i < |log| && SendsOut(log[i], p) && StillHeld(h, log, i, p)
      ensures Watched(h, log + [ev], i, p)
    {
      if h[p].sawBusy { BusyGrows(log, ev, i, p, |log|); }
    }
    SafeGrows(h, h, log, ev);
  }

  // ---------- a status is seen ----------

  lemma BusySeen(log: seq<Event>, i: int, p: string)
    requires 0 <= i < |log|
    ensures BusySince(log + [StatusSeen(p, BUSY)], i, p, |log| + 1)
  {
    assert BusyAt((log + [StatusSeen(p, BUSY)])[|log|], p);
  }

  lemma FreeSeen(log: seq<Event>, i: int, p: string, status: int)
    requires 0 <= i < |log| && log[i].Started? && BusySince(log, i, p, |log|) && Available(status)
    ensures Freed(log + [StatusSeen(p, status)], i, p, |log| + 1)
  {
    var ev := StatusSeen(p, status);
    BusyGrows(log, ev, i, p, |log|);
    assert FreeAt((log + [ev])[|log|], p);
  }

  lemma HeldThroughStatus(h: Holds, log: seq<Event>, id: string, status: int, i: int, p: string)
    requires 0 <= i < |log| && log[i].Started? && StillHeld(h, log, i, p)
    ensures Watched(Observed(h, id, status), log + [StatusSeen(id, status)], i, p)
  {
    hide Freed, BusySince;
    var ev := StatusSeen(id, status);
    if h[p].sawBusy { BusyGrows(log, ev, i, p, |log|); }
    if id == p {
      if status == BUSY {
        BusySeen(log, i, p);
      } else if Available(status) && h[p].sawBusy {
        FreeSeen(log, i, p, status);
      }
    }
  }

  lemma StatusSafe(h: Holds, log: seq<Event>, id: string, status: int)
    requires Safe(h, log)
    ensures Safe(Observed(h, id, status), log + [StatusSeen(id, status)])
  {
    hide Watched, StillHeld, Exclusive, AllWatched, Observed;
    forall i, p | 0 <= i < |log| && SendsOut(log[i], p) && StillHeld(h, log, i, p)
      ensures Watched(Observed(h, id, status), log + [StatusSeen(id, status)], i, p)
    {
      HeldThroughStatus(h, log, id, status, i, p);
    }
    ObservedUnseen(h, id, status);
    SafeGrows(h, Observed(h, id, status), log, StatusSeen(id, status));
  }

  lemma ObservedUnseen(h: Holds, id: string, status: int)
    requires UnsentUnseen(h)
    ensures UnsentUnseen(Observed(h, id, status))
  {
  }

  lemma {:induction false} SurveySafe(h: Holds, sightings: seq<Sighting>, known: set<string>, owner: string, gift: bool,
                                      designated: string, eligible: set<string>, log: seq<Event>)
    requires Safe(h, log)
    ensures var s := Survey(h, sightings, known, owner, gift, designated, eligible, log); Safe(s.holds, s.log)
    decreases |sightings|
  {
    hide Safe, Observed, Eligible;
    if sightings != [] {
      var s := sightings[0];
      if s.id != "" && s.id !in known {
        var h' := Observed(h, s.id, s.status);
        var more := if Eligible(h', s, owner, gift, designated) then eligible + {s.id} else eligible;
        StatusSafe(h, log, s.id, s.status);
        SurveySafe(h', sightings[1..], known + {s.id}, owner, gift, designated, more,
                   log + [StatusSeen(s.id, s.status)]);
      }
    }
  }

  // ---------- reserving and cancelling ----------

  /** What was sent stays. */
  ghost predicate SentKept(h: Holds, h': Holds) {
    && (forall id :: id in h && h[id].sent ==> id in h' && h'[id] == h[id])
    && (forall id :: id in h' && !h'[id].sent ==> !h'[id].sawBusy)
  }

  lemma SentKeptSafe(h: Holds, h': Holds, log: seq<Event>)
    requires Safe(h, log) && SentKept(h, h')
    ensures Safe(h', log)
  {
    hide Freed, BusySince, Exclusive;
    forall i, p | 0 <= i < |log| && SendsOut(log[i], p) ensures Watched(h', log, i, p) {
      assert Watched(h, log, i, p);
    }
  }

  lemma CancelKeepsSent(h: Holds, owner: string)
    requires UnsentUnseen(h)
    ensures SentKept(h, Cancel(h, owner))
  {
  }

  lemma CancelAllKeepsSent(h: Holds, owners: set<string>)
    requires UnsentUnseen(h)
    ensures SentKept(h, CancelAll(h, owners))
  {
  }

  lemma ReserveSentKept(h: Holds, owner: string, ids: seq<string>)
    requires UnsentUnseen(h)
    ensures SentKept(h, Reserve(h, owner, ids))
  {
    hide CanReserve, Ids;
    if CanReserve(h, owner, ids) {
      forall id | id in h && h[id].sent ensures id !in Ids(ids) {
        SentIsNotPermitted(h, owner, ids, id);
      }
    }
  }

  lemma CancelSafe(h: Holds, log: seq<Event>, owner: string)
    requires Safe(h, log)
    ensures Safe(Cancel(h, owner), log)
  {
    hide AllWatched, Exclusive, Cancel, SentKept, UnsentUnseen;
    CancelKeepsSent(h, owner);
    SentKeptSafe(h, Cancel(h, owner), log);
  }

  lemma CancelAllSafe(h: Holds, log: seq<Event>, owners: set<string>)
    requires Safe(h, log)
    ensures Safe(CancelAll(h, owners), log)
  {
    hide AllWatched, Exclusive, CancelAll, SentKept, UnsentUnseen;
    CancelAllKeepsSent(h, owners);
    SentKeptSafe(h, CancelAll(h, owners), log);
  }

  lemma ReserveSafe(h: Holds, log: seq<Event>, owner: string, ids: seq<string>)
    requires Safe(h, log)
    ensures Safe(Reserve(h, owner, ids), log)
  {
    hide AllWatched, Exclusive, Reserve, SentKept, UnsentUnseen;
    ReserveSentKept(h, owner, ids);
    SentKeptSafe(h, Reserve(h, owner, ids), log);
  }

  // ---------- a start ----------

  ghost predicate StartsTeam(h: Holds, ev: Event, team: seq<string>) {
    ev.Started? && OwnTeam(h, ev.task, team) && forall p :: p in ev.team ==> p in team
  }

  lemma StartExclusive(h: Holds, log: seq<Event>, ev: Event, team: seq<string>)
    requires Safe(h, log) && StartsTeam(h, ev, team)
    ensures Exclusive(log + [ev])
  {
    hide Freed, BusySince;
    var longer := log + [ev];
    forall i, j, p | 0 <= i < j < |longer| && SendsOut(longer[i], p) && Again(longer[j], longer[i], p)
      ensures Freed(longer, i, p, j)
    {
      assert longer[i] == log[i] && Watched(h, log, i, p);
      if j < |log| {
        assert Freed(log, i, p, j);
        FreedGrows(log, ev, i, p, j);
      } else {
        assert p in team || ev.task == log[i].task;
        assert !StillHeld(h, log, i, p);
        FreedGrows(log, ev, i, p, |log|);
      }
    }
  }

  lemma HeldThroughStart(h: Holds, log: seq<Event>, ev: Event, team: seq<string>, i: int, p: string)
    requires 0 <= i < |log| && log[i].Started? && StillHeld(h, log, i, p) && StartsTeam(h, ev, team)
    ensures StillHeld(MarkSent(h, ev.task, ev.sentAt), log + [ev], i, p)
  {
    hide BusySince, MarkSent;
    assert h[p].owner != ev.task;
    assert MarkSent(h, ev.task, ev.sentAt)[p] == h[p] by { MarkSentOthers(h, ev.task, ev.sentAt, p); }
    if h[p].sawBusy { BusyGrows(log, ev, i, p, |log|); }
  }

  lemma MarkSentOthers(h: Holds, owner: string, now: int, p: string)
    requires p in h && h[p].owner != owner
    ensures p in MarkSent(h, owner, now) && MarkSent(h, owner, now)[p] == h[p]
  {
  }

  lemma HeldFromStart(h: Holds, log: seq<Event>, ev: Event, team: seq<string>, p: string)
    requires StartsTeam(h, ev, team) && p in ev.team && UnsentUnseen(h)
    ensures StillHeld(MarkSent(h, ev.task, ev.sentAt), log + [ev], |log|, p)
  {
    assert p in team && p in h && h[p].owner == ev.task && !h[p].sent;
  }

  lemma StartSafe(h: Holds, log: seq<Event>, ev: Event, team: seq<string>)
    requires Safe(h, log) && ev.Started? && StartsTeam(h, ev, team)
    ensures Safe(MarkSent(h, ev.task, ev.sentAt), log + [ev])
  {
    hide Freed, StillHeld, Exclusive, MarkSent, StartsTeam, UnsentUnseen;
    StartExclusive(h, log, ev, team);
    var longer := log + [ev];
    var h' := MarkSent(h, ev.task, ev.sentAt);
    assert UnsentUnseen(h') by { MarkSentUnseen(h, ev.task, ev.sentAt); }
    forall i, p | 0 <= i < |longer| && SendsOut(longer[i], p) ensures Watched(h', longer, i, p) {
      if i < |log| {
        assert longer[i] == log[i] && Watched(h, log, i, p);
        if Freed(log, i, p, |log|) { FreedGrows(log, ev, i, p, |log|); }
        else { HeldThroughStart(h, log, ev, team, i, p); }
      } else {
        HeldFromStart(h, log, ev, team, p);
      }
    }
  }

  lemma MarkSentUnseen(h: Holds, owner: string, now: int)
    requires UnsentUnseen(h)
    ensures UnsentUnseen(MarkSent(h, owner, now))
  {
  }

  // ---------- the end of a scan ----------

  lemma HeldThroughClose(h: Holds, log: seq<Event>, live: set<string>, observed: int, i: int, p: string)
    requires 0 <= i < |log| && log[i].Started? && StillHeld(h, log, i, p)
    ensures Watched(Reconcile(h, live, observed), log + [ScanClosed(observed, live, true)], i, p)
  {
    hide BusySince;
    var ev := ScanClosed(observed, live, true);
    if h[p].sawBusy { BusyGrows(log, ev, i, p, |log|); }
    if Ended(h[p], live, observed) {
      assert LeavesOut((log + [ev])[|log|], log[i].task, log[i].sentAt);
    }
  }

  lemma ReconcileSafe(h: Holds, log: seq<Event>, live: set<string>, observed: int)
    requires Safe(h, log)
    ensures Safe(Reconcile(h, live, observed), log + [ScanClosed(observed, live, true)])
  {
    hide Watched, StillHeld, Exclusive, AllWatched, Reconcile;
    forall i, p | 0 <= i < |log| && SendsOut(log[i], p) && StillHeld(h, log, i, p)
      ensures Watched(Reconcile(h, live, observed), log + [ScanClosed(observed, live, true)], i, p)
    {
      HeldThroughClose(h, log, live, observed, i, p);
    }
    ReconcileUnseen(h, live, observed);
    SafeGrows(h, Reconcile(h, live, observed), log, ScanClosed(observed, live, true));
  }

  lemma ReconcileUnseen(h: Holds, live: set<string>, observed: int)
    requires UnsentUnseen(h)
    ensures UnsentUnseen(Reconcile(h, live, observed))
  {
  }

  // ---------- one row ----------

  ghost predicate SafeAt(x: Progress) {
    Safe(x.st.holds, x.log)
  }

  lemma SubmitSafe(x: Progress, o: Opening, r: Row, flow: Flow, reading: TeamReading, at: int, g: Gate, team: seq<string>)
    requires SafeAt(x) && OwnTeam(x.st.holds, r.id, team) && Matches(reading, team)
    ensures SafeAt(Submit(x, o, r, flow, reading, at, g))
  {
    hide Safe, MarkSent, OwnTeam, AddFlight, TeamOf;
    var y := Submit(x, o, r, flow, reading, at, g);
    SameMembers(team, TeamOf(reading.ids));
    StartSafe(x.st.holds, x.log, y.log[|x.log|], team);
  }

  lemma SameMembers(a: seq<string>, b: seq<string>)
    requires SameTeam(a, b)
    ensures forall p :: p in b ==> p in a
  {
    forall p | p in b ensures p in a {
      assert p in Ids(b);
    }
  }

  lemma SettleNearbySafe(x: Progress, o: Opening, r: Row, v: Seen)
    requires SafeAt(x) && Coupled(x.st) && r.id in x.st.selections
    ensures SafeAt(SettleNearby(x, o, r, v))
  {
    hide Safe, Cancel, Submit, OwnTeam, Matches, Homes, BatchAlone, Sized, TeamEligible;
    var s := x.st.selections[r.id];
    CancelSafe(x.st.holds, x.log, r.id);
    if NearbySafe(x, o, r, v, s) {
      SubmitSafe(x, o, r, NearbyFlow, r.live.team, r.live.recheck.steady, r.live.recheck.gate, s.team);
      var y := Submit(x, o, r, NearbyFlow, r.live.team, r.live.recheck.steady, r.live.recheck.gate);
      CancelSafe(y.st.holds, y.log, r.id);
    }
  }

  lemma StartBatchSafe(x: Progress, o: Opening, r: Row, team: seq<string>)
    requires SafeAt(x) && OwnTeam(x.st.holds, r.id, team) && Matches(r.live.team, team)
    ensures SafeAt(StartBatch(x, o, r))
  {
    hide Safe, MarkSent, OwnTeam, TeamOf;
    var y := StartBatch(x, o, r);
    SameMembers(team, TeamOf(r.live.team.ids));
    StartSafe(x.st.holds, x.log, y.log[|x.log|], team);
  }

  lemma SettleBatchSafe(x: Progress, o: Opening, r: Row, v: Seen)
    requires SafeAt(x) && Coupled(x.st) && x.st.batch.id != ""
    ensures SafeAt(SettleBatch(x, o, r, v))
  {
    hide Safe, Cancel, StartBatch, OwnTeam, Matches, Homes, Owners, Sized, TeamEligible;
    CancelSafe(x.st.holds, x.log, x.st.batch.id);
    if r.id == x.st.batch.id && BatchSafe(x, o, r, v) {
      StartBatchSafe(x, o, r, x.st.batch.team);
      var y := StartBatch(x, o, r);
      CancelSafe(y.st.holds, y.log, y.st.batch.id);
    }
  }

  lemma ChooseSafe(x: Progress, o: Opening, r: Row, team: seq<string>)
    requires SafeAt(x) && OwnTeam(x.st.holds, r.id, team)
    ensures SafeAt(Choose(x, o, r, team))
  {
    hide Safe, Submit, OwnTeam, Matches;
    if Choose(x, o, r, team) == Submit(x, o, r, FarmFlow, r.live.after.team, o.observed, Gate(false, 0))
       && Matches(r.live.after.team, team)
    {
      SubmitSafe(x, o, r, FarmFlow, r.live.after.team, o.observed, Gate(false, 0), team);
    } else if Choose(x, o, r, team) != x {
      SelectedSafe(x, o, r, team);
    }
  }

  lemma SelectedSafe(x: Progress, o: Opening, r: Row, team: seq<string>)
    requires SafeAt(x)
    ensures SafeAt(SelectBatch(x, o, r, team)) && SafeAt(SelectNearby(x, o, r, team))
  {
    hide Safe;
    var a := r.live.after;
    SameHoldsGrow(x.st.holds, x.log, Selected(r.id, team, BatchFlow, o.observed, false, 0));
    SameHoldsGrow(x.st.holds, x.log, Selected(r.id, team, NearbyFlow, a.steady, IsRoute(o), a.epoch));
  }

  lemma SelectSafe(x: Progress, o: Opening, r: Row, v: Seen)
    requires SafeAt(x)
    ensures SafeAt(Select(x, o, r, v))
  {
    hide Safe, Choose, CanReserve, Reserve, Cancel, TeamOf, Pending, TeamEligible;
    var team := TeamOf(r.live.proposal.ids);
    if CanReserve(x.st.holds, r.id, team) {
      ReserveSafe(x.st.holds, x.log, r.id, team);
      ReserveAgrees(x.st.holds, r.id, team);
      var y := Choose(Reserved(x, r.id, team), o, r, team);
      ChooseSafe(Reserved(x, r.id, team), o, r, team);
      CancelSafe(y.st.holds, y.log, r.id);
    }
  }

  lemma DecideSafe(x: Progress, o: Opening, r: Row, v: Seen)
    requires SafeAt(x) && Coupled(x.st)
    ensures SafeAt(Decide(x, o, r, v))
  {
    hide SafeAt, Coupled, SettleNearby, SettleBatch, Selectable, Select;
    if IsNearby(o) && r.id in x.st.selections {
      SettleNearbySafe(x, o, r, v);
    } else if IsBatch(o) && x.st.batch.id != "" {
      SettleBatchSafe(x, o, r, v);
    } else if Selectable(x, o, r, v) {
      SelectSafe(x, o, r, v);
    }
  }

  lemma ConsiderSafe(x: Progress, o: Opening, r: Row, kind: Kind)
    requires SafeAt(x) && Coupled(x.st)
    ensures SafeAt(Consider(x, o, r, kind))
  {
    hide Safe, Coupled, Survey, Decide, Assess, SameUnsent;
    var s := SurveyOf(x, r, kind);
    SurveySafe(x.st.holds, r.live.survey, {}, r.id, kind == GiftKind, r.live.designated, {}, x.log);
    SurveySameUnsent(x.st.holds, r.live.survey, {}, r.id, kind == GiftKind, r.live.designated, {}, x.log);
    SameUnsentCouples(x.st, s.holds);
    var y := x.(st := x.st.(holds := s.holds), log := s.log);
    DecideSafe(y, o, r, Assess(o, r, kind, s));
  }

  lemma VisitSafe(x: Progress, o: Opening, r: Row)
    requires SafeAt(x) && Coupled(x.st)
    ensures SafeAt(Visit(x, o, r))
  {
    hide Safe, Coupled, Consider;
    if Tracked(r) {
      var y := Note(x, o, r);
      SameHoldsGrow(x.st.holds, x.log, TaskListed(r.id, r.finished, o.observed));
      ConsiderSafe(y, o, r, r.kind.value);
    }
  }

  lemma {:induction false} VisitAllSafe(x: Progress, o: Opening, rows: seq<Row>)
    requires SafeAt(x) && Good(x, o)
    ensures SafeAt(VisitAll(x, o, rows))
  {
    hide SafeAt, Coupled, InMode, Visit;
    if rows != [] {
      VisitAllSafe(x, o, rows[..|rows| - 1]);
      VisitAllGood(x, o, rows[..|rows| - 1]);
      VisitSafe(VisitAll(x, o, rows[..|rows| - 1]), o, rows[|rows| - 1]);
    }
  }

  // ---------- one scan, one run ----------

  lemma OpenSafe(st: State, log: seq<Event>, o: Opening)
    requires Safe(st.holds, log)
    ensures SafeAt(Open(st, log, o))
  {
    hide Safe, CancelAll, Cancel, StaleTasks;
    var h := CancelAll(st.holds, StaleTasks(st, o));
    CancelAllSafe(st.holds, log, StaleTasks(st, o));
    CancelSafe(h, log, st.batch.id);
    SameHoldsGrow(h, log, ScanOpened(o.settings.mode, o.observed));
    SameHoldsGrow(Cancel(h, st.batch.id), log, ScanOpened(o.settings.mode, o.observed));
  }

  lemma CloseSafe(x: Progress, o: Opening)
    requires SafeAt(x)
    ensures Safe(Close(x, o).0.holds, Close(x, o).1)
  {
    hide Safe, CancelAll, Reconcile;
    var ev := ScanClosed(o.observed, x.live, x.complete);
    if x.complete {
      ReconcileSafe(x.st.holds, x.log, x.live, o.observed);
      CancelAllSafe(Reconcile(x.st.holds, x.live, o.observed), x.log + [ev], Absent(x).selections.Keys - x.live);
    } else {
      SameHoldsGrow(x.st.holds, x.log, ev);
    }
  }

  lemma NextSafe(e: Engine, step: Step)
    requires Safe(e.st.holds, e.log) && Coupled(e.st)
    ensures Safe(Next(e, step).st.holds, Next(e, step).log)
  {
    hide Safe, Coupled, VisitAll, Open, Close, Fails, Polled;
    match step {
      case ScanStep(o, rows) =>
        var x := Open(e.st, e.log, o);
        OpenSafe(e.st, e.log, o);
        OpenCouples(e.st, e.log, o);
        VisitAllSafe(x, o, rows);
        CloseSafe(VisitAll(x, o, rows), o);
      case PollBatchStep(answer) => SameHoldsGrow(e.st.holds, e.log, Faulted(PollBatch(e.st, answer).1));
      case PollArmedStep(answers) => SameHoldsGrow(e.st.holds, e.log, Faulted(PollArmed(e.st, answers).1));
    }
  }

  lemma EmptySafe()
    ensures Safe(EMPTY.holds, [])
  {
  }

  lemma {:induction false} AlwaysSafe(steps: seq<Step>)
    ensures Safe(Run(steps).st.holds, Run(steps).log)
  {
    hide Safe, Next;
    if steps == [] {
      EmptySafe();
    } else {
      AlwaysSafe(steps[..|steps| - 1]);
      AlwaysCoupled(steps[..|steps| - 1]);
      NextSafe(Run(steps[..|steps| - 1]), steps[|steps| - 1]);
    }
  }

  /** Across every interleaving of scans, polls and mode changes, between two starts that share a Pikmin it was seen
      busy and then available, or a later complete list did not have the first task. */
  lemma NoPikminTwice(steps: seq<Step>, i: int, j: int, p: string)
    requires 0 <= i < j < |Run(steps).log|
    requires SendsOut(Run(steps).log[i], p) && SendsOut(Run(steps).log[j], p)
    ensures Freed(Run(steps).log, i, p, j)
  {
    hide Run, AllWatched, Freed;
    AlwaysSafe(steps);
    assert Again(Run(steps).log[j], Run(steps).log[i], p);
  }

  /** A task is not started again before every Pikmin of its earlier start was seen back, or the task was gone. */
  lemma NoTaskTwice(steps: seq<Step>, i: int, j: int, p: string)
    requires 0 <= i < j < |Run(steps).log|
    requires SendsOut(Run(steps).log[i], p)
    requires Run(steps).log[j].Started? && Run(steps).log[j].task == Run(steps).log[i].task
    ensures Freed(Run(steps).log, i, p, j)
  {
    hide Run, AllWatched, Freed;
    AlwaysSafe(steps);
    assert Again(Run(steps).log[j], Run(steps).log[i], p);
  }
}
