/** Selections, reservations and confirmation locks always fit together. */
module DispatchCoupling {
  import opened DispatchState
  import opened DispatchTeams
  import opened Options
  import opened Reservations

  /** The owner holds exactly this team, and none of it is sent. */
  ghost predicate OwnTeam(h: Holds, owner: string, team: seq<string>) {
    && (forall id :: id in h && h[id].owner == owner ==> !h[id].sent && id in team)
    && (forall id :: id in team ==> id in h && h[id].owner == owner)
  }

  ghost predicate Owners(h: Holds, selections: map<string, Selection>) {
    forall t :: t in selections ==> t != "" && OwnTeam(h, t, selections[t].team)
  }

  /** Every unsent hold belongs to a selection, to the batch selection, or to one more owner. */
  ghost predicate Homes(h: Holds, tasks: set<string>, batch: string, extra: string) {
    forall id :: id in h && !h[id].sent ==>
      h[id].owner in tasks || (batch != "" && h[id].owner == batch) || (extra != "" && h[id].owner == extra)
  }

  ghost predicate BatchAlone(st: State) {
    st.batch.id != "" ==> OwnTeam(st.holds, st.batch.id, st.batch.team) && st.lock == "" && st.selections == map[]
  }

  predicate Sized(armed: map<string, Flight>, selections: map<string, Selection>) {
    armed.Keys !! selections.Keys && |armed| + |selections| <= MAX_IN_FLIGHT
  }

  /** Every selection holds its team; every unsent hold belongs to a selection; batch excludes the others. */
  ghost predicate Coupled(st: State) {
    Owners(st.holds, st.selections) && BatchAlone(st) && Homes(st.holds, st.selections.Keys, st.batch.id, "") && Sized(st.armed, st.selections)
  }

  /** A mode that does not use a kind of selection has dropped it. */
  predicate InMode(st: State, o: Opening) {
    && (!IsNearby(o) ==> st.selections == map[])
    && (!IsBatch(o) ==> st.batch.id == "")
    && (!IsArmed(o) ==> st.armed == map[])
  }

  ghost predicate Good(x: Progress, o: Opening) {
    Coupled(x.st) && InMode(x.st, o)
  }

  // ---------- holds that were sent do not matter ----------

  /** The unsent holds are the same, and a sent one was sent before by the same owner. */
  ghost predicate SameUnsent(h: Holds, h': Holds) {
    && (forall id :: id in h && !h[id].sent ==> id in h' && h'[id] == h[id])
    && (forall id :: id in h' ==> id in h && h[id].owner == h'[id].owner && h[id].sent == h'[id].sent)
  }

  lemma SameUnsentCouples(st: State, h: Holds)
    requires Coupled(st) && SameUnsent(st.holds, h)
    ensures Coupled(st.(holds := h))
  {
  }

  lemma ObservedSameUnsent(h: Holds, id: string, status: int)
    ensures SameUnsent(h, Observed(h, id, status))
  {
  }

  lemma SameUnsentTransitive(a: Holds, b: Holds, c: Holds)
    requires SameUnsent(a, b) && SameUnsent(b, c)
    ensures SameUnsent(a, c)
  {
  }

  lemma {:induction false} SurveySameUnsent(h: Holds, sightings: seq<Sighting>, known: set<string>, owner: string,
                                            gift: bool, designated: string, eligible: set<string>, log: seq<Event>)
    ensures SameUnsent(h, Survey(h, sightings, known, owner, gift, designated, eligible, log).holds)
    decreases |sightings|
  {
    hide SameUnsent, Observed, Eligible;
    SameUnsentItself(h);
    if sightings != [] {
      var s := sightings[0];
      if s.id != "" && s.id !in known {
        var h' := Observed(h, s.id, s.status);
        var more := if Eligible(h', s, owner, gift, designated) then eligible + {s.id} else eligible;
        ObservedSameUnsent(h, s.id, s.status);
        SurveySameUnsent(h', sightings[1..], known + {s.id}, owner, gift, designated, more,
                         log + [StatusSeen(s.id, s.status)]);
        SameUnsentTransitive(h, h', Survey(h, sightings, known, owner, gift, designated, eligible, log).holds);
      }
    }
  }

  lemma SameUnsentItself(h: Holds)
    ensures SameUnsent(h, h)
  {
  }

  lemma ReconcileSameUnsent(h: Holds, live: set<string>, observed: int)
    ensures SameUnsent(h, Reconcile(h, live, observed))
  {
  }

  // ---------- changing the holds of one owner ----------

  /** The holds of everyone else are the same. */
  ghost predicate AgreeBut(h: Holds, h': Holds, owner: string) {
    forall id :: (id in h && h[id].owner != owner) || (id in h' && h'[id].owner != owner) ==>
      id in h && id in h' && h[id] == h'[id]
  }

  ghost predicate NothingUnsent(h: Holds, owner: string) {
    forall id :: id in h && h[id].owner == owner ==> h[id].sent
  }

  lemma OwnTeamKept(h: Holds, h': Holds, owner: string, t: string, team: seq<string>)
    requires AgreeBut(h, h', owner) && t != owner && OwnTeam(h, t, team)
    ensures OwnTeam(h', t, team)
  {
  }

  lemma OwnersKept(h: Holds, h': Holds, owner: string, selections: map<string, Selection>)
    requires AgreeBut(h, h', owner) && owner !in selections && Owners(h, selections)
    ensures Owners(h', selections)
  {
    hide OwnTeam, AgreeBut;
    forall t | t in selections ensures OwnTeam(h', t, selections[t].team) {
      OwnTeamKept(h, h', owner, t, selections[t].team);
    }
  }

  lemma HomesKept(h: Holds, h': Holds, owner: string, tasks: set<string>, batch: string, extra: string)
    requires AgreeBut(h, h', owner) && Homes(h, tasks, batch, extra) && (extra == "" || extra == owner)
    ensures Homes(h', tasks, batch, owner) || owner == ""
    ensures NothingUnsent(h', owner) ==> Homes(h', tasks - {owner}, if batch == owner then "" else batch, "")
  {
  }

  lemma CancelAgrees(h: Holds, owner: string)
    ensures AgreeBut(h, Cancel(h, owner), owner) && NothingUnsent(Cancel(h, owner), owner)
  {
  }

  lemma MarkSentAgrees(h: Holds, owner: string, now: int)
    ensures AgreeBut(h, MarkSent(h, owner, now), owner) && NothingUnsent(MarkSent(h, owner, now), owner)
  {
  }

  lemma CancelSentIsNothing(h: Holds, owner: string)
    requires NothingUnsent(h, owner)
    ensures Cancel(h, owner) == h
  {
  }

  lemma ReserveAgrees(h: Holds, owner: string, ids: seq<string>)
    requires CanReserve(h, owner, ids)
    ensures owner != "" && AgreeBut(h, Reserve(h, owner, ids), owner) && OwnTeam(Reserve(h, owner, ids), owner, ids)
    ensures forall id :: id in ids ==> id in Reserve(h, owner, ids) && Reserve(h, owner, ids)[id] == Hold(owner, false, false, 0)
  {
    hide CanReserve;
    assert !HasSent(h, owner) && owner != "" && (forall k :: 0 <= k < |ids| ==> Permits(h, ids[k], owner)) by {
      ReservePermits(h, owner, ids);
    }
    forall id | id in ids && id in h ensures h[id].owner == owner {
      var k :| 0 <= k < |ids| && ids[k] == id;
      assert Permits(h, ids[k], owner);
    }
  }

  lemma ReservePermits(h: Holds, owner: string, ids: seq<string>)
    requires CanReserve(h, owner, ids)
    ensures !HasSent(h, owner) && owner != "" && forall k :: 0 <= k < |ids| ==> Permits(h, ids[k], owner)
  {
  }

  // ---------- dropping selections ----------

  lemma CancelAllAgrees(h: Holds, owners: set<string>, t: string, team: seq<string>)
    requires OwnTeam(h, t, team) && t !in owners
    ensures OwnTeam(CancelAll(h, owners), t, team)
  {
  }

  lemma CancelAllHomes(h: Holds, owners: set<string>, tasks: set<string>, batch: string)
    requires Homes(h, tasks, batch, "")
    ensures Homes(CancelAll(h, owners), tasks - owners, batch, "")
  {
  }

  lemma MapShrinks<V>(m: map<string, V>, out: set<string>)
    ensures |m - out| <= |m| && (m - out).Keys == m.Keys - out
  {
    SubsetSize(m.Keys - out, m.Keys);
    assert |(m - out).Keys| == |m - out| && |m.Keys| == |m|;
  }

  lemma {:induction false} SubsetSize(a: set<string>, b: set<string>)
    requires a <= b
    ensures |a| <= |b|
  {
    if a != {} {
      var x :| x in a;
      SubsetSize(a - {x}, b - {x});
    }
  }

  lemma OwnersDropped(h: Holds, owners: set<string>, selections: map<string, Selection>)
    requires Owners(h, selections)
    ensures Owners(CancelAll(h, owners), selections - owners)
  {
    hide OwnTeam, CancelAll;
    var rest := selections - owners;
    forall t | t in rest ensures t != "" && OwnTeam(CancelAll(h, owners), t, rest[t].team) {
      CancelAllAgrees(h, owners, t, selections[t].team);
    }
  }

  lemma DropAllCouples(st: State, owners: set<string>)
    requires Coupled(st) && (st.batch.id == "" || st.batch.id !in owners)
    ensures Coupled(DropAll(st, owners))
  {
    hide OwnTeam, CancelAll, Homes, Owners;
    MapShrinks(st.selections, owners);
    CancelAllHomes(st.holds, owners, st.selections.Keys, st.batch.id);
    OwnersDropped(st.holds, owners, st.selections);
    if st.batch.id != "" { CancelAllAgrees(st.holds, owners, st.batch.id, st.batch.team); }
  }

  lemma ClearBatchCouples(st: State)
    requires Coupled(st)
    ensures Coupled(ClearBatch(st))
  {
    hide OwnTeam, Cancel, AgreeBut, NothingUnsent, Homes, Owners;
    var id := st.batch.id;
    CancelAgrees(st.holds, id);
    if id == "" { assert "" !in st.selections by { NoNameless(st); } }
    OwnersKept(st.holds, Cancel(st.holds, id), id, st.selections);
    HomesKept(st.holds, Cancel(st.holds, id), id, st.selections.Keys, id, "");
    assert st.selections.Keys - {id} == st.selections.Keys;
  }

  lemma NoNameless(st: State)
    requires Coupled(st)
    ensures "" !in st.selections
  {
    hide OwnTeam, Homes;
  }

  lemma UnlockCouples(st: State, o: Opening)
    requires Coupled(st)
    ensures Coupled(Unlock(st, o))
  {
    hide OwnTeam, Homes, Owners;
  }

  lemma OpenCouples(st: State, log: seq<Event>, o: Opening)
    requires Coupled(st)
    ensures Good(Open(st, log, o), o)
  {
    hide Coupled;
    var st1 := DropAll(st, StaleTasks(st, o));
    assert st.batch.id == "" || st.batch.id !in StaleTasks(st, o) by { BatchNotStale(st, o); }
    DropAllCouples(st, StaleTasks(st, o));
    UnlockCouples(st1, o);
    ClearBatchCouples(Unlock(st1, o));
    AllStale(st, o);
  }

  lemma BatchNotStale(st: State, o: Opening)
    requires Coupled(st)
    ensures st.batch.id == "" || st.batch.id !in StaleTasks(st, o)
  {
  }

  lemma AllStale(st: State, o: Opening)
    ensures !IsNearby(o) ==> DropAll(st, StaleTasks(st, o)).selections == map[]
  {
  }

  // ---------- starting ----------

  lemma AddFlightSize(armed: map<string, Flight>, id: string, tracked: bool)
    ensures |AddFlight(armed, id, tracked)| == if id in armed then |armed| else |armed| + 1
    ensures AddFlight(armed, id, tracked).Keys == armed.Keys + {id}
  {
  }

  lemma WithoutSize<V>(m: map<string, V>, id: string)
    requires id in m
    ensures |m - {id}| == |m| - 1 && (m - {id}).Keys == m.Keys - {id}
  {
    assert (m - {id}).Keys == m.Keys - {id};
    assert |(m - {id}).Keys| == |m - {id}| && |m.Keys| == |m|;
  }

  lemma DroppedSized(st: State, id: string, armed: map<string, Flight>)
    requires Sized(st.armed, st.selections) && id in st.selections
    requires armed.Keys <= st.armed.Keys + {id} && |armed| <= |st.armed| + 1
    ensures Sized(armed, st.selections - {id})
  {
    WithoutSize(st.selections, id);
  }

  /** Whether a settled selection was started or not, its owner has nothing unsent left. */
  lemma DroppedCouples(st: State, h: Holds, id: string, armed: map<string, Flight>)
    requires Coupled(st) && id in st.selections && AgreeBut(st.holds, h, id)
    requires armed.Keys <= st.armed.Keys + {id} && |armed| <= |st.armed| + 1
    ensures Coupled(Drop(st.(holds := h, armed := armed), id))
  {
    hide OwnTeam, Cancel, AgreeBut, NothingUnsent, Homes, Owners, Sized;
    var h' := Cancel(h, id);
    CancelAgrees(h, id);
    AgreeTransitive(st.holds, h, h', id);
    DroppedSized(st, id, armed);
    OwnersFewer(st.holds, st.selections, id);
    OwnersKept(st.holds, h', id, st.selections - {id});
    assert st.batch.id == "";
    HomesKept(st.holds, h', id, st.selections.Keys, "", "");
    assert (st.selections - {id}).Keys == st.selections.Keys - {id};
  }

  lemma OwnersFewer(h: Holds, selections: map<string, Selection>, id: string)
    requires Owners(h, selections)
    ensures Owners(h, selections - {id})
  {
    hide OwnTeam;
  }

  lemma AgreeTransitive(a: Holds, b: Holds, c: Holds, owner: string)
    requires AgreeBut(a, b, owner) && AgreeBut(b, c, owner)
    ensures AgreeBut(a, c, owner)
  {
  }

  lemma SettleNearbyGood(x: Progress, o: Opening, r: Row, v: Seen)
    requires Good(x, o) && IsNearby(o) && r.id in x.st.selections
    ensures Good(SettleNearby(x, o, r, v), o)
  {
    hide NearbySafe, MarkSent, Cancel, AddFlight, Coupled, AgreeBut, NothingUnsent;
    var st := x.st;
    AgreeItself(st.holds, r.id);
    MarkSentAgrees(st.holds, r.id, r.live.sentAt);
    AddFlightSize(st.armed, r.id, r.live.tracked);
    DroppedCouples(st, st.holds, r.id, st.armed);
    DroppedCouples(st, MarkSent(st.holds, r.id, r.live.sentAt), r.id, AddFlight(st.armed, r.id, r.live.tracked));
  }

  lemma AgreeItself(h: Holds, owner: string)
    ensures AgreeBut(h, h, owner)
  {
  }

  lemma BatchClearedCouples(st: State, st': State)
    requires Coupled(st) && st.batch.id != "" && AgreeBut(st.holds, st'.holds, st.batch.id)
    requires st'.selections == st.selections && st'.armed == st.armed && st'.batch == st.batch
    ensures Coupled(ClearBatch(st'))
  {
    hide OwnTeam, Cancel, AgreeBut, NothingUnsent, Homes;
    var id := st.batch.id;
    var h' := Cancel(st'.holds, id);
    CancelAgrees(st'.holds, id);
    AgreeTransitive(st.holds, st'.holds, h', id);
    OwnersKept(st.holds, h', id, st.selections);
    HomesKept(st.holds, h', id, st.selections.Keys, id, "");
    assert st.selections.Keys - {id} == st.selections.Keys;
  }

  lemma SettleBatchGood(x: Progress, o: Opening, r: Row, v: Seen)
    requires Good(x, o) && IsBatch(o) && x.st.batch.id != ""
    ensures Good(SettleBatch(x, o, r, v), o)
  {
    hide BatchSafe, MarkSent, Cancel, Coupled, AgreeBut, NothingUnsent;
    AgreeItself(x.st.holds, x.st.batch.id);
    MarkSentAgrees(x.st.holds, r.id, r.live.sentAt);
    BatchClearedCouples(x.st, x.st);
    if r.id == x.st.batch.id { BatchClearedCouples(x.st, StartBatch(x, o, r).st); }
  }

  // ---------- selecting ----------

  /** A team that is reserved, but not selected or started yet. */
  ghost predicate Between(st: State, owner: string, team: seq<string>) {
    && owner != "" && owner !in st.selections && st.batch.id == "" && OwnTeam(st.holds, owner, team)
    && Owners(st.holds, st.selections) && Homes(st.holds, st.selections.Keys, "", owner) && Sized(st.armed, st.selections)
  }

  lemma ReservedBetween(st: State, owner: string, team: seq<string>)
    requires Coupled(st) && CanReserve(st.holds, owner, team) && owner !in st.selections && st.batch.id == ""
    ensures Between(st.(holds := Reserve(st.holds, owner, team)), owner, team)
  {
    hide Reserve, CanReserve, OwnTeam, AgreeBut, Homes;
    ReserveAgrees(st.holds, owner, team);
    OwnersKept(st.holds, Reserve(st.holds, owner, team), owner, st.selections);
    HomesKept(st.holds, Reserve(st.holds, owner, team), owner, st.selections.Keys, "", "");
  }

  /** Once nothing unsent is left to the owner, all is coupled again. */
  lemma BetweenCouples(st: State, owner: string, team: seq<string>, h: Holds, armed: map<string, Flight>)
    requires Between(st, owner, team) && AgreeBut(st.holds, h, owner) && NothingUnsent(h, owner)
    requires Sized(armed, st.selections)
    ensures Coupled(st.(holds := h, armed := armed))
  {
    hide OwnTeam, AgreeBut, NothingUnsent, Homes;
    OwnersKept(st.holds, h, owner, st.selections);
    HomesKept(st.holds, h, owner, st.selections.Keys, "", owner);
    assert st.selections.Keys - {owner} == st.selections.Keys;
  }

  lemma ReleasedGood(x: Progress, o: Opening, id: string, team: seq<string>)
    requires Between(x.st, id, team) && InMode(x.st, o)
    ensures Good(Released(x, id), o)
  {
    hide Cancel, AgreeBut, NothingUnsent, OwnTeam, Owners, Homes, Coupled;
    CancelAgrees(x.st.holds, id);
    BetweenCouples(x.st, id, team, Cancel(x.st.holds, id), x.st.armed);
  }

  lemma SubmitGood(x: Progress, o: Opening, r: Row, flow: Flow, reading: TeamReading, at: int, g: Gate, team: seq<string>)
    requires Between(x.st, r.id, team) && InMode(x.st, o) && IsArmed(o) && !IsNearby(o) && |x.st.armed| < MAX_IN_FLIGHT
    ensures Good(Submit(x, o, r, flow, reading, at, g), o)
  {
    hide MarkSent, AddFlight, AgreeBut, NothingUnsent, OwnTeam, Owners, Homes, Coupled;
    MarkSentAgrees(x.st.holds, r.id, r.live.sentAt);
    AddFlightSize(x.st.armed, r.id, r.live.tracked);
    var armed := AddFlight(x.st.armed, r.id, r.live.tracked);
    BetweenCouples(x.st, r.id, team, MarkSent(x.st.holds, r.id, r.live.sentAt), armed);
  }

  lemma SubmittedReleased(x: Progress, o: Opening, r: Row, flow: Flow, reading: TeamReading, at: int, g: Gate)
    ensures Released(Submit(x, o, r, flow, reading, at, g), r.id) == Submit(x, o, r, flow, reading, at, g)
  {
    hide MarkSent, Cancel, NothingUnsent, AgreeBut;
    MarkSentAgrees(x.st.holds, r.id, r.live.sentAt);
    CancelSentIsNothing(MarkSent(x.st.holds, r.id, r.live.sentAt), r.id);
  }

  lemma SelectNearbyGood(x: Progress, o: Opening, r: Row, team: seq<string>)
    requires Between(x.st, r.id, team) && InMode(x.st, o) && IsNearby(o)
    requires |x.st.armed| + |x.st.selections| < MAX_IN_FLIGHT && r.id !in x.st.armed
    ensures Good(SelectNearby(x, o, r, team), o)
  {
    hide OwnTeam;
  }

  lemma SelectBatchGood(x: Progress, o: Opening, r: Row, team: seq<string>)
    requires Between(x.st, r.id, team) && InMode(x.st, o) && IsBatch(o) && x.st.lock == ""
    ensures Good(SelectBatch(x, o, r, team), o)
  {
    hide OwnTeam;
    assert x.st.selections == map[];
  }

  lemma ChooseGood(x: Progress, o: Opening, r: Row, team: seq<string>)
    requires Between(x.st, r.id, team) && InMode(x.st, o)
    requires if IsBatch(o) then x.st.lock == ""
             else IsArmed(o) && |x.st.armed| + |x.st.selections| < MAX_IN_FLIGHT && r.id !in x.st.armed
    ensures var y := Choose(x, o, r, team);
            Good(if Pending(y.st, o, r.id) then y else Released(y, r.id), o)
  {
    hide Between, InMode, Good, Matches, MarkSent, Cancel, AddFlight, Submit;
    var y := Choose(x, o, r, team);
    if y == x {
      assert !Pending(x.st, o, r.id) by { BetweenNotPending(x.st, o, r.id, team); }
      ReleasedGood(x, o, r.id, team);
    } else if IsBatch(o) {
      SelectBatchGood(x, o, r, team);
    } else if IsNearby(o) {
      SelectNearbyGood(x, o, r, team);
    } else {
      assert |x.st.armed| < MAX_IN_FLIGHT;
      SubmitGood(x, o, r, FarmFlow, r.live.after.team, o.observed, Gate(false, 0), team);
      SubmittedReleased(x, o, r, FarmFlow, r.live.after.team, o.observed, Gate(false, 0));
    }
  }

  lemma BetweenNotPending(st: State, o: Opening, id: string, team: seq<string>)
    requires Between(st, id, team)
    ensures !Pending(st, o, id)
  {
    hide OwnTeam, Owners, Homes;
  }

  lemma SelectGood(x: Progress, o: Opening, r: Row, v: Seen)
    requires Good(x, o) && Selectable(x, o, r, v) && x.st.batch.id == "" && r.id !in x.st.selections
    ensures Good(Select(x, o, r, v), o)
  {
    hide Coupled, CanReserve, Reserve, Choose, TeamOf, Between, HasSent;
    var team := TeamOf(r.live.proposal.ids);
    if CanReserve(x.st.holds, r.id, team) {
      ReservedBetween(x.st, r.id, team);
      NearbyRoom(x, o, r, v);
      ChooseGood(Reserved(x, r.id, team), o, r, team);
    }
  }

  lemma NearbyRoom(x: Progress, o: Opening, r: Row, v: Seen)
    requires InMode(x.st, o) && Selectable(x, o, r, v)
    ensures if IsBatch(o) then x.st.lock == ""
            else IsArmed(o) && |x.st.armed| + |x.st.selections| < MAX_IN_FLIGHT && r.id !in x.st.armed
  {
    hide HasSent;
  }

  // ---------- one row, one scan, one run ----------

  lemma DecideGood(x: Progress, o: Opening, r: Row, v: Seen)
    requires Good(x, o)
    ensures Good(Decide(x, o, r, v), o)
  {
    hide Coupled, SettleNearby, SettleBatch, Selectable, Select;
    if IsNearby(o) && r.id in x.st.selections {
      SettleNearbyGood(x, o, r, v);
    } else if IsBatch(o) && x.st.batch.id != "" {
      SettleBatchGood(x, o, r, v);
    } else if Selectable(x, o, r, v) {
      assert r.id !in x.st.selections;
      SelectGood(x, o, r, v);
    }
  }

  lemma ConsiderGood(x: Progress, o: Opening, r: Row, kind: Kind)
    requires Good(x, o)
    ensures Good(Consider(x, o, r, kind), o)
  {
    hide Coupled, Survey, Decide, Assess, SameUnsent;
    var s := SurveyOf(x, r, kind);
    SurveySameUnsent(x.st.holds, r.live.survey, {}, r.id, kind == GiftKind, r.live.designated, {}, x.log);
    SameUnsentCouples(x.st, s.holds);
    var y := x.(st := x.st.(holds := s.holds), log := s.log);
    DecideGood(y, o, r, Assess(o, r, kind, s));
  }

  lemma SettleGood(x: Progress, o: Opening, id: string)
    requires Good(x, o)
    ensures Good(Settle(x, id), o)
  {
    hide OwnTeam, Homes, Owners;
    MapShrinks(x.st.armed, {id});
  }

  lemma VisitGood(x: Progress, o: Opening, r: Row)
    requires Good(x, o)
    ensures Good(Visit(x, o, r), o)
  {
    hide Coupled, InMode, Consider, Settle;
    if Tracked(r) {
      var y := Note(x, o, r);
      SettleGood(y, o, r.id);
      ConsiderGood(y, o, r, r.kind.value);
    }
  }

  lemma {:induction false} VisitAllGood(x: Progress, o: Opening, rows: seq<Row>)
    requires Good(x, o)
    ensures Good(VisitAll(x, o, rows), o)
  {
    hide Good, Visit;
    if rows != [] {
      VisitAllGood(x, o, rows[..|rows| - 1]);
      VisitGood(VisitAll(x, o, rows[..|rows| - 1]), o, rows[|rows| - 1]);
    }
  }

  lemma AbsentCouples(x: Progress)
    requires Coupled(x.st)
    ensures Coupled(Absent(x))
  {
    hide OwnTeam, Homes, Owners;
    var armed := Absent(x).armed;
    assert armed.Keys <= x.st.armed.Keys;
    SubsetSize(armed.Keys, x.st.armed.Keys);
    assert |armed.Keys| == |armed| && |x.st.armed.Keys| == |x.st.armed|;
  }

  lemma CloseCouples(x: Progress, o: Opening)
    requires Coupled(x.st)
    ensures Coupled(Close(x, o).0)
  {
    hide Coupled, SameUnsent, Reconcile;
    AbsentCouples(x);
    var st := Absent(x);
    ReconcileSameUnsent(st.holds, x.live, o.observed);
    SameUnsentCouples(st, Reconcile(st.holds, x.live, o.observed));
    var st1 := st.(holds := Reconcile(st.holds, x.live, o.observed));
    assert st1.batch.id == "" || st1.batch.id !in st.selections.Keys - x.live by { BatchNotSelected(st1); }
    DropAllCouples(st1, st.selections.Keys - x.live);
  }

  lemma BatchNotSelected(st: State)
    requires Coupled(st)
    ensures st.batch.id == "" || st.batch.id !in st.selections
  {
    hide OwnTeam, Homes, Owners;
  }

  lemma PollBatchCouples(st: State, answer: Answer)
    requires Coupled(st)
    ensures Coupled(PollBatch(st, answer).0)
  {
    hide OwnTeam, Homes, Owners;
  }

  lemma PollArmedCouples(st: State, answers: map<string, Answer>)
    requires Coupled(st)
    ensures Coupled(PollArmed(st, answers).0)
  {
    hide OwnTeam, Homes, Owners, Polled, Fails;
    var armed := PollArmed(st, answers).0.armed;
    assert armed.Keys <= st.armed.Keys;
    SubsetSize(armed.Keys, st.armed.Keys);
    assert |armed.Keys| == |armed| && |st.armed.Keys| == |st.armed|;
  }

  lemma NextCouples(e: Engine, step: Step)
    requires Coupled(e.st)
    ensures Coupled(Next(e, step).st)
  {
    hide Coupled, VisitAll, Open, Close, PollBatch, PollArmed;
    match step {
      case ScanStep(o, rows) =>
        var x := Open(e.st, e.log, o);
        OpenCouples(e.st, e.log, o);
        VisitAllGood(x, o, rows);
        CloseCouples(VisitAll(x, o, rows), o);
      case PollBatchStep(answer) => PollBatchCouples(e.st, answer);
      case PollArmedStep(answers) => PollArmedCouples(e.st, answers);
    }
  }

  lemma EmptyCouples()
    ensures Coupled(EMPTY)
  {
  }

  /** In every reachable state, each pending selection's team is exactly what its task holds, unsent; nothing else is
      held unsent; a batch selection excludes a batch lock and every other selection; and at most three starts and
      nearby selections are under way. */
  lemma {:induction false} AlwaysCoupled(steps: seq<Step>)
    ensures Coupled(Run(steps).st)
  {
    hide Coupled, Next;
    if steps == [] {
      EmptyCouples();
    } else {
      AlwaysCoupled(steps[..|steps| - 1]);
      NextCouples(Run(steps[..|steps| - 1]), steps[|steps| - 1]);
    }
  }
}
