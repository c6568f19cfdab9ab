/** When the dispatcher selects a team for a task and when it starts one, told from the readings of the scan. */
module DispatchStarts {
  import opened DispatchState
  import opened DispatchSurvey
  import opened DispatchTeams
  import opened Options
  import opened Reservations

  // ---------- the settings ----------

  /** The farm flow is armed with the filter for flowers and fruits; every other armed flow goes by the location gate. */
  predicate NearbyOn(o: Opening) {
    o.settings.mode == Mode.Route || (o.settings.mode == Mode.Armed && o.settings.filter != "farm")
  }

  predicate FarmOn(o: Opening) {
    o.settings.mode == Mode.Armed && o.settings.filter == "farm"
  }

  predicate BatchOn(o: Opening) {
    o.settings.mode == Mode.Batch
  }

  /** The kinds that the user wants: no gifts on a route and in the farm flow, and otherwise those of the filter and of
      the selection. */
  predicate WantsKind(o: Opening, mask: set<Kind>, kind: Kind) {
    if o.settings.mode == Mode.Route || o.settings.filter == "farm" then kind != GiftKind
    else
      kind in mask
      && (o.settings.filter == "all" || (kind == SeedKind && o.settings.filter == "seed")
          || (kind == FruitKind && o.settings.filter == "fruit") || (kind == GiftKind && o.settings.filter == "gift"))
  }

  /** The task of the row is the target of the batch, and the target has been reached. */
  predicate IsTarget(o: Opening, r: Row) {
    o.target != "" && o.targetReady && r.id == o.target
  }

  /** An unfinished expedition of the list. */
  predicate Unfinished(r: Row) {
    r.task && r.proto && r.kind.Some? && !r.finished
  }

  // ---------- the readings of a row ----------

  ghost predicate FitsRow(x: Progress, r: Row, id: string)
    requires r.kind.Some?
  {
    Fits(x.st.holds, r.live.survey, {}, id, r.id, r.kind.value == GiftKind, r.live.designated)
  }

  /** The whole inventory was read. */
  predicate Inspected(r: Row) {
    r.live.surveyed && AllRead(r.live.survey, {})
  }

  /** For a gift, the game's picker proposes exactly the designated Pikmin, and that one is free. */
  ghost predicate GiftFits(x: Progress, r: Row)
    requires r.kind.Some?
  {
    var p := r.live.proposal;
    r.kind.value == GiftKind ==>
      && p.present && p.listed && p.idCount == 1 && p.ids == r.live.designated != ""
      && Inspected(r) && FitsRow(x, r, r.live.designated)
  }

  ghost predicate TeamFits(x: Progress, r: Row, team: seq<string>)
    requires r.kind.Some?
  {
    team != [] && forall id :: id in team ==> FitsRow(x, r, id)
  }

  /** The game shows these ids for the task, in any order. */
  ghost predicate Shows(reading: TeamReading, team: seq<string>) {
    && reading.readable && team != [] && reading.count == |team| && |TeamOf(reading.ids)| == |team|
    && forall id :: id in TeamOf(reading.ids) <==> id in team
  }

  /** A nearby or route selection is started now. */
  ghost predicate NearbyGo(x: Progress, o: Opening, r: Row, s: Selection)
    requires r.kind.Some?
  {
    var l, again := r.live, r.live.recheck;
    && WantsKind(o, o.settings.mask, r.kind.value) && WantsKind(o, again.settings.mask, r.kind.value)
    && l.data && l.canStart && l.startable && l.power == Some(true) && GiftFits(x, r)
    && TeamFits(x, r, s.team) && Shows(l.team, s.team)
    && l.duration.Some? && 1 <= l.duration.value <= 300000
    && again.gate.ready && again.gate.epoch == s.epoch && again.distance >= 0.0
    && again.settings.mode == o.settings.mode
    && (o.settings.mode == Mode.Route || again.settings.filter == o.settings.filter)
    && x.starts < 3 && |x.st.armed| < 3
  }

  /** The batch selection is started now. */
  ghost predicate BatchGo(x: Progress, o: Opening, r: Row)
    requires r.kind.Some?
  {
    var l := r.live;
    && IsTarget(o, r) && l.data && l.canStart && l.startable && l.power != Some(false) && GiftFits(x, r)
    && Inspected(r) && TeamFits(x, r, x.st.batch.team) && Shows(l.team, x.st.batch.team)
    && l.duration.Some? && 1 <= l.duration.value <= 2000
    && 0.0 <= l.distance <= if r.kind.value == GiftKind then 4.0 else 100.0
  }

  ghost predicate StartedIn(log: seq<Event>, longer: seq<Event>, id: string) {
    exists k :: |log| <= k < |longer| && longer[k].Started? && longer[k].task == id
  }

  ghost predicate SelectedIn(log: seq<Event>, longer: seq<Event>, id: string) {
    exists k :: |log| <= k < |longer| && longer[k].Selected? && longer[k].task == id
  }

  // ---------- the model's readings are these ----------

  lemma SettingsAre(o: Opening, mask: set<Kind>, kind: Kind)
    ensures IsNearby(o) <==> NearbyOn(o)
    ensures IsBatch(o) <==> BatchOn(o)
    ensures IsArmed(o) <==> NearbyOn(o) || FarmOn(o)
    ensures IsArmed(o) ==> (KindAllowed(FilterOf(o), mask, kind) <==> WantsKind(o, mask, kind))
    ensures IsArmed(o) ==> FilterOf(o) == if o.settings.mode == Mode.Route then "farm" else o.settings.filter
    ensures IsRoute(o) <==> o.settings.mode == Mode.Route
  {
  }

  lemma ShowsIs(reading: TeamReading, team: seq<string>)
    ensures Shows(reading, team) <==> Matches(reading, team)
  {
    hide TeamOf;
    assert (forall id :: id in TeamOf(reading.ids) <==> id in team) <==> Ids(team) == Ids(TeamOf(reading.ids)) by {
      SameIds(team, TeamOf(reading.ids));
    }
  }

  lemma SameIds(a: seq<string>, b: seq<string>)
    ensures (forall id :: id in b <==> id in a) <==> Ids(a) == Ids(b)
  {
    assert forall id :: id in Ids(a) <==> id in a;
    assert forall id :: id in Ids(b) <==> id in b;
  }

  /** What a visit establishes before it decides. */
  lemma AssessIs(x: Progress, o: Opening, r: Row, log: seq<Event>)
    requires r.kind.Some?
    ensures var kind := r.kind.value;
      var s := Survey(x.st.holds, r.live.survey, {}, r.id, kind == GiftKind, r.live.designated, {}, log);
      var v := Assess(o, r, kind, s);
      && v.kind == kind && (v.whole <==> Inspected(r)) && (v.giftOut <==> !GiftFits(x, r))
      && (v.canStart <==> r.live.data && r.live.canStart && GiftFits(x, r))
      && (forall id :: id in v.eligible <==> FitsRow(x, r, id))
      && (v.requested <==> ((NearbyOn(o) || FarmOn(o)) && WantsKind(o, o.settings.mask, kind)) || (BatchOn(o) && IsTarget(o, r)))
      && HoldsAfter(x.st.holds, r.live.survey, {}, s.holds) && s.log == log + Statuses(r.live.survey, {})
  {
    hide Survey, AllRead, Fits, WantsKind, KindAllowed, HoldsAfter, Statuses;
    var kind := r.kind.value;
    SettingsAre(o, o.settings.mask, kind);
    SurveyFinds(x.st.holds, r.live.survey, {}, r.id, kind == GiftKind, r.live.designated, {}, log);
  }

  lemma TeamFitsIs(x: Progress, r: Row, team: seq<string>, eligible: set<string>)
    requires r.kind.Some? && forall id :: id in eligible <==> FitsRow(x, r, id)
    ensures TeamFits(x, r, team) <==> TeamEligible(team, eligible)
  {
    hide Fits;
    assert (forall id :: id in team ==> FitsRow(x, r, id)) <==> (forall k :: 0 <= k < |team| ==> team[k] in eligible);
  }

  // ---------- a visit ----------

  /** What a visit notes and surveys before it decides. */
  ghost predicate Surveys(x: Progress, o: Opening, r: Row, y: Progress) {
    && y.st == x.st.(holds := y.st.holds) && HoldsAfter(x.st.holds, r.live.survey, {}, y.st.holds)
    && y.starts == x.starts && y.due == x.due
    && y.log == x.log + [TaskListed(r.id, false, o.observed)] + Statuses(r.live.survey, {})
    && y.live == (if r.id == "" then x.live else x.live + {r.id}) && y.complete == (x.complete && r.id != "")
    && y.seen == (if r.id in x.st.armed then x.seen + {r.id} else x.seen)
    && y.pendingSeen == (x.pendingSeen || (x.due && r.id == x.st.lock))
  }

  lemma {:induction false} OnlyStatuses(sightings: seq<Sighting>, known: set<string>, k: int)
    requires 0 <= k < |Statuses(sightings, known)|
    ensures Statuses(sightings, known)[k].StatusSeen?
  {
    if k > 0 { OnlyStatuses(sightings[1..], known + {sightings[0].id}, k - 1); }
  }

  /** Nothing is started or selected before the decision. */
  lemma NothingDecided(x: Progress, o: Opening, r: Row, y: Progress)
    requires Surveys(x, o, r, y)
    ensures x.log <= y.log
    ensures forall k :: |x.log| <= k < |y.log| ==> !y.log[k].Started? && !y.log[k].Selected?
  {
    hide Statuses, HoldsAfter;
    var n := |x.log|;
    forall k | n <= k < |y.log| ensures !y.log[k].Started? && !y.log[k].Selected? {
      if k > n {
        OnlyStatuses(r.live.survey, {}, k - n - 1);
        assert y.log[k] == Statuses(r.live.survey, {})[k - n - 1];
      }
    }
  }

  /** What a visit has established, told from the readings. */
  ghost predicate Established(x: Progress, o: Opening, r: Row, v: Seen)
    requires r.kind.Some?
  {
    && v.kind == r.kind.value && (v.whole <==> Inspected(r)) && (v.giftOut <==> !GiftFits(x, r))
    && (v.canStart <==> r.live.data && r.live.canStart && GiftFits(x, r))
    && (forall id :: id in v.eligible <==> FitsRow(x, r, id))
    && (v.requested <==>
          ((NearbyOn(o) || FarmOn(o)) && WantsKind(o, o.settings.mask, r.kind.value)) || (BatchOn(o) && IsTarget(o, r)))
  }

  /** The visit of an unfinished expedition decides with the readings. */
  lemma VisitDecides(x: Progress, o: Opening, r: Row) returns (y: Progress, v: Seen)
    requires Unfinished(r)
    ensures Visit(x, o, r) == Decide(y, o, r, v) && Surveys(x, o, r, y)
    ensures Established(x, o, r, v)
  {
    hide Survey, Statuses, HoldsAfter, Fits, GiftFits, Inspected, Assess, Decide, WantsKind, AllRead;
    var n := Note(x, o, r);
    AssessIs(n, o, r, n.log);
    GiftFitsNoted(x, n, r);
    var s := SurveyOf(n, r, r.kind.value);
    y, v := n.(st := n.st.(holds := s.holds), log := s.log), Assess(o, r, r.kind.value, s);
  }

  lemma GiftFitsNoted(x: Progress, n: Progress, r: Row)
    requires r.kind.Some? && n.st == x.st
    ensures GiftFits(n, r) <==> GiftFits(x, r)
    ensures forall id :: FitsRow(n, r, id) <==> FitsRow(x, r, id)
  {
    hide Fits, Inspected;
  }

  // ---------- a nearby or route selection ----------

  /** The start of the row's task with the team that the game shows. */
  predicate IsStart(o: Opening, r: Row, ev: Event, flow: Flow, text: string, at: int, epoch: int, ready: bool) {
    && ev.Started? && ev.task == r.id && ev.team == TeamOf(text) && ev.flow == flow && ev.sentAt == r.live.sentAt
    && ev.observed == o.observed && ev.at == at && ev.epoch == epoch && ev.ready == ready
    && ev.route == (flow != BatchFlow && o.settings.mode == Mode.Route)
  }

  /** All holds of the task are sent at the time, and the others are as they were. */
  ghost predicate AllSent(h: Holds, h': Holds, owner: string, at: int) {
    forall id ::
      (id in h' <==> id in h)
      && (id in h ==> h'[id] == if h[id].owner == owner then Hold(owner, true, h[id].sawBusy, at) else h[id])
  }

  /** The task's unsent holds are gone, and the others are as they were. */
  ghost predicate UnsentGone(h: Holds, h': Holds, owner: string) {
    forall id ::
      if id in h && h[id].owner == owner && !h[id].sent then id !in h'
      else (id in h' <==> id in h) && (id in h ==> h'[id] == h[id])
  }

  /** Tracking the start, if it is not tracked yet. */
  predicate Tracks(armed: map<string, Flight>, armed': map<string, Flight>, id: string, tracked: bool) {
    armed' == if id in armed then armed else armed[id := Flight(tracked, false)]
  }

  ghost predicate NearbySettled(y: Progress, o: Opening, r: Row, s: Selection, go: bool, z: Progress) {
    var again := r.live.recheck;
    if again.steady - s.since < 1000 then z == y
    else
      && z.st.selections == y.st.selections - {r.id} && z.st.batch == y.st.batch && z.st.lock == y.st.lock
      && z.st.lockSince == y.st.lockSince && z.st.watch == y.st.watch
      && z.live == y.live && z.complete == y.complete && z.pendingSeen == y.pendingSeen && z.due == y.due
      && if go then
           && z.starts == y.starts + 1 && z.seen == y.seen + {r.id} && AllSent(y.st.holds, z.st.holds, r.id, r.live.sentAt)
           && Tracks(y.st.armed, z.st.armed, r.id, r.live.tracked)
           && |z.log| == |y.log| + 1 && y.log < z.log
           && IsStart(o, r, z.log[|y.log|], NearbyFlow, r.live.team.ids, again.steady, again.gate.epoch, again.gate.ready)
         else
           && z.starts == y.starts && z.seen == y.seen && z.log == y.log && z.st.armed == y.st.armed
           && UnsentGone(y.st.holds, z.st.holds, r.id)
  }

  lemma NearbySafeIs(x: Progress, o: Opening, r: Row, y: Progress, v: Seen, s: Selection)
    requires r.kind.Some? && NearbyOn(o) && Established(x, o, r, v)
    requires y.starts == x.starts && y.st.armed == x.st.armed
    ensures NearbySafe(y, o, r, v, s) <==> NearbyGo(x, o, r, s)
  {
    hide GiftFits, Inspected, WantsKind, KindAllowed, TeamEligible, Matches, TeamFits, Shows, TeamOf, FitsRow;
    SettingsAre(o, o.settings.mask, v.kind);
    SettingsAre(o, r.live.recheck.settings.mask, v.kind);
    TeamFitsIs(x, r, s.team, v.eligible);
    ShowsIs(r.live.team, s.team);
  }

  lemma SettleNearbyIs(y: Progress, o: Opening, r: Row, v: Seen)
    requires r.id in y.st.selections
    ensures var s := y.st.selections[r.id]; NearbySettled(y, o, r, s, NearbySafe(y, o, r, v, s), SettleNearby(y, o, r, v))
  {
    hide NearbySafe, TeamOf;
  }

  /** A selection that is less than a second old stays. An older one is dropped, and started if and only if the readings
      allow it. */
  lemma NearbyRow(x: Progress, o: Opening, r: Row) returns (y: Progress)
    requires Unfinished(r) && NearbyOn(o) && r.id in x.st.selections
    ensures Surveys(x, o, r, y)
    ensures var s := x.st.selections[r.id]; NearbySettled(y, o, r, s, NearbyGo(x, o, r, s), Visit(x, o, r))
  {
    hide Visit, FitsRow, GiftFits, Inspected, WantsKind, HoldsAfter, Statuses, NearbySafe, NearbyGo, SettleNearby, NearbySettled;
    var v;
    y, v := VisitDecides(x, o, r);
    var s := x.st.selections[r.id];
    SettingsAre(o, o.settings.mask, v.kind);
    NearbySafeIs(x, o, r, y, v, s);
    SettleNearbyIs(y, o, r, v);
  }

  // ---------- the batch selection ----------

  ghost predicate BatchSettled(y: Progress, o: Opening, r: Row, go: bool, z: Progress) {
    if r.id != y.st.batch.id || o.observed - y.st.batch.started < 1500 then z == y
    else
      && z.st.batch == BatchSelection("", 0, []) && z.st.selections == y.st.selections && z.st.armed == y.st.armed
      && z.live == y.live && z.complete == y.complete && z.pendingSeen == y.pendingSeen && z.due == y.due && z.seen == y.seen
      && if go then
           && z.starts == y.starts + 1 && AllSent(y.st.holds, z.st.holds, r.id, r.live.sentAt)
           && z.st.lock == r.id && z.st.lockSince == o.observed
           && z.st.watch == (if r.live.tracked then Some(r.id) else y.st.watch)
           && |z.log| == |y.log| + 1 && y.log < z.log
           && IsStart(o, r, z.log[|y.log|], BatchFlow, r.live.team.ids, o.observed, 0, false)
         else
           && z.starts == y.starts && z.log == y.log && UnsentGone(y.st.holds, z.st.holds, r.id)
           && z.st.lock == y.st.lock && z.st.lockSince == y.st.lockSince && z.st.watch == y.st.watch
  }

  lemma BatchSafeIs(x: Progress, o: Opening, r: Row, y: Progress, v: Seen)
    requires r.kind.Some? && BatchOn(o) && Established(x, o, r, v) && y.st.batch == x.st.batch
    ensures BatchSafe(y, o, r, v) <==> BatchGo(x, o, r)
  {
    hide GiftFits, Inspected, TeamEligible, Matches, TeamFits, Shows, TeamOf, FitsRow, WantsKind;
    TeamFitsIs(x, r, x.st.batch.team, v.eligible);
    ShowsIs(r.live.team, x.st.batch.team);
  }

  lemma SettleBatchIs(y: Progress, o: Opening, r: Row, v: Seen)
    ensures BatchSettled(y, o, r, BatchSafe(y, o, r, v), SettleBatch(y, o, r, v))
  {
    hide BatchSafe, TeamOf;
  }

  /** A batch selection that is less than a second and a half old stays. An older one is dropped when its task is
      listed, and started if and only if the readings allow it. */
  lemma BatchRow(x: Progress, o: Opening, r: Row) returns (y: Progress)
    requires Unfinished(r) && BatchOn(o) && x.st.batch.id != ""
    ensures Surveys(x, o, r, y)
    ensures BatchSettled(y, o, r, BatchGo(x, o, r), Visit(x, o, r))
  {
    hide Visit, FitsRow, GiftFits, Inspected, WantsKind, HoldsAfter, Statuses, BatchSafe, BatchGo, SettleBatch, BatchSettled;
    var v;
    y, v := VisitDecides(x, o, r);
    BatchSafeIs(x, o, r, y, v);
    SettleBatchIs(y, o, r, v);
  }

  // ---------- selecting a team ----------

  /** No Pikmin is out for the task, fewer than three tasks are under way or were started in this scan, and the task is
      not one of them; a nearby or route selection also needs an open gate. In batch mode nothing may be unconfirmed. */
  ghost predicate HasRoom(y: Progress, o: Opening, id: string) {
    if BatchOn(o) then y.st.lock == ""
    else
      && (NearbyOn(o) || FarmOn(o)) && |y.st.armed| < 3 && y.starts < 3 && id !in y.st.armed && NoneSent(y.st.holds, id)
      && (NearbyOn(o) ==> o.gate.ready && |y.st.armed| + |y.st.selections| < 3)
  }

  ghost predicate NoneSent(h: Holds, owner: string) {
    forall id :: id in h && h[id].owner == owner ==> !h[id].sent
  }

  predicate InReach(o: Opening, r: Row)
    requires r.kind.Some?
  {
    && r.live.distance >= 0.0
    && (FarmOn(o) ==> r.live.distance <= 200.0)
    && (BatchOn(o) ==> r.live.distance <= if r.kind.value == GiftKind then 4.0 else 100.0)
  }

  /** A team is tried for the task: the game proposes one and can set it. */
  ghost predicate Tries(x: Progress, y: Progress, o: Opening, r: Row)
    requires r.kind.Some?
  {
    var p := r.live.proposal;
    && HasRoom(y, o, r.id)
    && (if BatchOn(o) then IsTarget(o, r) else WantsKind(o, o.settings.mask, r.kind.value))
    && r.live.data && r.live.settable && Inspected(r) && GiftFits(x, r) && InReach(o, r)
    && p.present && p.count > 0
  }

  /** The proposed team is a team, everyone in it is free for the task, and nobody else holds them. */
  ghost predicate Reserves(x: Progress, y: Progress, r: Row, team: seq<string>)
    requires r.kind.Some?
  {
    var p := r.live.proposal;
    && p.listed && p.rooted && p.idCount == p.count && r.id != "" && TeamFits(x, r, team) && NoneSent(y.st.holds, r.id)
    && forall id :: id in team && id in y.st.holds ==> y.st.holds[id].owner == r.id
  }

  /** With the team set, the game can start the task. */
  ghost predicate Confirms(r: Row, team: seq<string>) {
    var a := r.live.after;
    a.canStart && a.power != Some(false) && r.live.startable && Shows(a.team, team)
  }

  /** The team is held for the task, sent or not, nothing else is held unsent for it, and the others are as they were. */
  ghost predicate TeamHolds(h: Holds, h': Holds, owner: string, team: seq<string>, sent: bool, at: int) {
    forall id ::
      if id in team then id in h' && h'[id] == Hold(owner, sent, false, at)
      else if id in h && h[id].owner == owner && !h[id].sent then id !in h'
      else (id in h' <==> id in h) && (id in h ==> h'[id] == h[id])
  }

  predicate SameBut(y: Progress, z: Progress) {
    && z.st.lock == y.st.lock && z.st.lockSince == y.st.lockSince && z.st.watch == y.st.watch
    && z.live == y.live && z.complete == y.complete && z.pendingSeen == y.pendingSeen && z.due == y.due
  }

  ghost predicate Chosen(y: Progress, o: Opening, r: Row, team: seq<string>, z: Progress) {
    var a := r.live.after;
    && SameBut(y, z)
    && if Confirms(r, team) && BatchOn(o) then
         && z.st.batch == BatchSelection(r.id, o.observed, team) && TeamHolds(y.st.holds, z.st.holds, r.id, team, false, 0)
         && z.log == y.log + [Selected(r.id, team, BatchFlow, o.observed, false, 0)]
         && z.st.selections == y.st.selections && z.st.armed == y.st.armed && z.starts == y.starts && z.seen == y.seen
       else if Confirms(r, team) && NearbyOn(o) && a.power.Some? && a.duration.Some? && 1 <= a.duration.value <= 300000 then
         && z.st.selections == y.st.selections[r.id := Selection(team, a.steady, a.epoch)]
         && TeamHolds(y.st.holds, z.st.holds, r.id, team, false, 0)
         && z.log == y.log + [Selected(r.id, team, NearbyFlow, a.steady, o.settings.mode == Mode.Route, a.epoch)]
         && z.st.batch == y.st.batch && z.st.armed == y.st.armed && z.starts == y.starts && z.seen == y.seen
       else if Confirms(r, team) && FarmOn(o) then
         && TeamHolds(y.st.holds, z.st.holds, r.id, team, true, r.live.sentAt)
         && Tracks(y.st.armed, z.st.armed, r.id, r.live.tracked) && z.starts == y.starts + 1 && z.seen == y.seen + {r.id}
         && |z.log| == |y.log| + 1 && y.log < z.log
         && IsStart(o, r, z.log[|y.log|], FarmFlow, a.team.ids, o.observed, 0, false)
         && z.st.selections == y.st.selections && z.st.batch == y.st.batch
       else z == y.(st := y.st.(holds := z.st.holds)) && UnsentGone(y.st.holds, z.st.holds, r.id)
  }

  lemma HasRoomIs(y: Progress, o: Opening, id: string)
    ensures HasRoom(y, o, id) <==> ArmedCapacity(y, o, id) || BatchCapacity(y, o)
  {
    SettingsAre(o, {}, SeedKind);
  }

  lemma TriesIs(x: Progress, y: Progress, o: Opening, r: Row, v: Seen)
    requires r.kind.Some? && Established(x, o, r, v)
    ensures Tries(x, y, o, r) <==> Selectable(y, o, r, v)
  {
    hide HasRoom, ArmedCapacity, BatchCapacity, GiftFits, Inspected, WantsKind, FitsRow;
    HasRoomIs(y, o, r.id);
    RoomModes(y, o, r.id);
    SettingsAre(o, {}, SeedKind);
  }

  lemma RoomModes(y: Progress, o: Opening, id: string)
    ensures HasRoom(y, o, id) ==> BatchOn(o) || NearbyOn(o) || FarmOn(o)
    ensures !(BatchOn(o) && (NearbyOn(o) || FarmOn(o)))
  {
  }

  lemma TeamIsTeam(csv: string)
    ensures TeamOf(csv) != [] ==> Distinct(TeamOf(csv)) && "" !in TeamOf(csv)
  {
    hide Split;
  }

  lemma ReservesIs(x: Progress, y: Progress, o: Opening, r: Row, v: Seen)
    requires r.kind.Some? && Established(x, o, r, v)
    ensures var p := r.live.proposal; var team := TeamOf(p.ids);
      Reserves(x, y, r, team) <==>
        p.listed && p.rooted && p.idCount == p.count && TeamEligible(team, v.eligible) && CanReserve(y.st.holds, r.id, team)
  {
    hide FitsRow, GiftFits, Inspected, WantsKind, TeamOf, TeamEligible;
    var team := TeamOf(r.live.proposal.ids);
    TeamIsTeam(r.live.proposal.ids);
    TeamFitsIs(x, r, team, v.eligible);
    PermitsAll(y.st.holds, r.id, team);
  }

  lemma PermitsAll(h: Holds, owner: string, team: seq<string>)
    ensures NoneSent(h, owner) ==>
      ((forall k :: 0 <= k < |team| ==> Permits(h, team[k], owner)) <==>
         (forall id :: id in team && id in h ==> h[id].owner == owner))
  {
  }

  lemma ReserveHolds(h: Holds, owner: string, team: seq<string>)
    requires CanReserve(h, owner, team)
    ensures TeamHolds(h, Reserve(h, owner, team), owner, team, false, 0)
    ensures NoneSent(Reserve(h, owner, team), owner)
  {
    hide CanReserve;
    assert NoneSent(h, owner) by { NoneOut(h, owner, team); }
    assert forall id :: id in Ids(team) <==> id in team;
  }

  lemma NoneOut(h: Holds, owner: string, team: seq<string>)
    requires CanReserve(h, owner, team)
    ensures NoneSent(h, owner)
  {
  }

  lemma SentHolds(h: Holds, h1: Holds, owner: string, team: seq<string>, at: int)
    requires TeamHolds(h, h1, owner, team, false, 0) && NoneSent(h, owner)
    ensures TeamHolds(h, MarkSent(h1, owner, at), owner, team, true, at)
    ensures Cancel(MarkSent(h1, owner, at), owner) == MarkSent(h1, owner, at)
  {
  }

  lemma DroppedHolds(h: Holds, h1: Holds, owner: string, team: seq<string>)
    requires TeamHolds(h, h1, owner, team, false, 0) && NoneSent(h, owner)
    requires forall id :: id in team && id in h ==> h[id].owner == owner
    ensures UnsentGone(h, Cancel(h1, owner), owner)
  {
  }

  lemma OwnTeam(h: Holds, owner: string, team: seq<string>)
    requires CanReserve(h, owner, team)
    ensures forall id :: id in team && id in h ==> h[id].owner == owner
  {
    forall id | id in team && id in h ensures h[id].owner == owner {
      var k :| 0 <= k < |team| && team[k] == id;
      assert Permits(h, team[k], owner);
    }
  }

  /** The team was just reserved for the task: h1 is the table after that. */
  ghost predicate JustReserved(y: Progress, r: Row, team: seq<string>, h1: Holds) {
    && TeamHolds(y.st.holds, h1, r.id, team, false, 0) && NoneSent(y.st.holds, r.id)
    && UnsentGone(y.st.holds, Cancel(h1, r.id), r.id)
    && TeamHolds(y.st.holds, MarkSent(h1, r.id, r.live.sentAt), r.id, team, true, r.live.sentAt)
    && Cancel(MarkSent(h1, r.id, r.live.sentAt), r.id) == MarkSent(h1, r.id, r.live.sentAt)
  }

  lemma ReservedJust(y: Progress, r: Row, team: seq<string>)
    requires CanReserve(y.st.holds, r.id, team)
    ensures JustReserved(y, r, team, Reserve(y.st.holds, r.id, team))
  {
    hide CanReserve, Reserve, Cancel, MarkSent, TeamHolds, UnsentGone, NoneSent;
    var h := y.st.holds;
    var h1 := Reserve(h, r.id, team);
    ReserveHolds(h, r.id, team);
    NoneOut(h, r.id, team);
    OwnTeam(h, r.id, team);
    SentHolds(h, h1, r.id, team, r.live.sentAt);
    DroppedHolds(h, h1, r.id, team);
  }

  /** What follows on the reservation. */
  function Settled(y: Progress, o: Opening, r: Row, team: seq<string>, h1: Holds): Progress {
    var z := Choose(y.(st := y.st.(holds := h1)), o, r, team);
    if Pending(z.st, o, r.id) then z else Released(z, r.id)
  }

  /** A team is set aside in batch mode and in the nearby flows, and sent at once in the farm flow. */
  lemma ChooseIs(n: Progress, o: Opening, r: Row, team: seq<string>)
    requires NearbyOn(o) || FarmOn(o) || BatchOn(o)
    ensures var a := r.live.after;
      Choose(n, o, r, team) ==
        if !Confirms(r, team) then n
        else if BatchOn(o) then SelectBatch(n, o, r, team)
        else if FarmOn(o) then Submit(n, o, r, FarmFlow, a.team, o.observed, Gate(false, 0))
        else if a.power.Some? && a.duration.Some? && 1 <= a.duration.value <= 300000 then SelectNearby(n, o, r, team)
        else n
  {
    hide Submit, SelectBatch, SelectNearby, Shows, Matches;
    SettingsAre(o, {}, SeedKind);
    ShowsIs(r.live.after.team, team);
  }

  lemma ChosenBatch(y: Progress, o: Opening, r: Row, team: seq<string>, h1: Holds)
    requires BatchOn(o) && JustReserved(y, r, team, h1) && r.id !in y.st.selections && y.st.batch.id == "" && r.id != ""
    ensures Chosen(y, o, r, team, Settled(y, o, r, team, h1))
  {
    hide Choose, Confirms, Submit, IsStart, Tracks, TeamOf, Cancel, MarkSent, TeamHolds, UnsentGone, NoneSent;
    SettingsAre(o, {}, SeedKind);
    ChooseIs(y.(st := y.st.(holds := h1)), o, r, team);
  }

  lemma ChosenNearby(y: Progress, o: Opening, r: Row, team: seq<string>, h1: Holds)
    requires NearbyOn(o) && JustReserved(y, r, team, h1) && r.id !in y.st.selections
    ensures Chosen(y, o, r, team, Settled(y, o, r, team, h1))
  {
    hide Choose, Confirms, Submit, IsStart, Tracks, TeamOf, Cancel, MarkSent, TeamHolds, UnsentGone, NoneSent;
    SettingsAre(o, {}, SeedKind);
    ChooseIs(y.(st := y.st.(holds := h1)), o, r, team);
  }

  lemma ChosenFarm(y: Progress, o: Opening, r: Row, team: seq<string>, h1: Holds)
    requires FarmOn(o) && JustReserved(y, r, team, h1) && r.id !in y.st.selections
    ensures Chosen(y, o, r, team, Settled(y, o, r, team, h1))
  {
    hide Choose, Confirms, TeamOf, Cancel, MarkSent, TeamHolds, UnsentGone, NoneSent;
    SettingsAre(o, {}, SeedKind);
    ChooseIs(y.(st := y.st.(holds := h1)), o, r, team);
  }

  lemma ChosenIs(y: Progress, o: Opening, r: Row, v: Seen)
    requires NearbyOn(o) || FarmOn(o) || BatchOn(o)
    requires r.id !in y.st.selections && (BatchOn(o) ==> y.st.batch.id == "")
    requires var p := r.live.proposal; var team := TeamOf(p.ids);
      p.listed && p.rooted && p.idCount == p.count && TeamEligible(team, v.eligible) && CanReserve(y.st.holds, r.id, team)
    ensures Chosen(y, o, r, TeamOf(r.live.proposal.ids), Select(y, o, r, v))
  {
    hide TeamOf, TeamEligible, CanReserve, Reserve, Choose, Chosen, JustReserved, Pending;
    var team := TeamOf(r.live.proposal.ids);
    var h1 := Reserve(y.st.holds, r.id, team);
    ReservedJust(y, r, team);
    OwnerNamed(y.st.holds, r.id, team);
    assert Select(y, o, r, v) == Settled(y, o, r, team, h1);
    if BatchOn(o) {
      ChosenBatch(y, o, r, team, h1);
    } else if NearbyOn(o) {
      ChosenNearby(y, o, r, team, h1);
    } else {
      ChosenFarm(y, o, r, team, h1);
    }
  }

  lemma OwnerNamed(h: Holds, owner: string, team: seq<string>)
    requires CanReserve(h, owner, team)
    ensures owner != ""
  {
  }

  ghost predicate Selecting(x: Progress, y: Progress, o: Opening, r: Row, z: Progress)
    requires r.kind.Some?
  {
    var team := TeamOf(r.live.proposal.ids);
    if Tries(x, y, o, r) && Reserves(x, y, r, team) then Chosen(y, o, r, team, z) else z == y
  }

  /** A task that is not selected is, or is started at once in the farm flow, if and only if the readings allow it. */
  lemma SelectRow(x: Progress, o: Opening, r: Row) returns (y: Progress)
    requires Unfinished(r) && r.id !in x.st.selections && (BatchOn(o) ==> x.st.batch.id == "")
    ensures Surveys(x, o, r, y)
    ensures Selecting(x, y, o, r, Visit(x, o, r))
  {
    hide Visit, FitsRow, GiftFits, Inspected, WantsKind, HoldsAfter, Statuses, Tries, Reserves, Chosen, Select, TeamOf,
         Selectable, CanReserve, TeamEligible;
    var v;
    y, v := VisitDecides(x, o, r);
    SettingsAre(o, {}, SeedKind);
    TriesIs(x, y, o, r, v);
    ReservesIs(x, y, o, r, v);
    if Tries(x, y, o, r) && Reserves(x, y, r, TeamOf(r.live.proposal.ids)) {
      TriesOn(x, y, o, r);
      ChosenIs(y, o, r, v);
    } else {
      NotSelected(y, o, r, v);
    }
  }

  lemma TriesOn(x: Progress, y: Progress, o: Opening, r: Row)
    requires r.kind.Some? && Tries(x, y, o, r)
    ensures NearbyOn(o) || FarmOn(o) || BatchOn(o)
  {
    hide HasRoom, GiftFits, Inspected, WantsKind;
    RoomModes(y, o, r.id);
  }

  lemma NotSelected(y: Progress, o: Opening, r: Row, v: Seen)
    requires var p := r.live.proposal; var team := TeamOf(p.ids);
      !(p.listed && p.rooted && p.idCount == p.count && TeamEligible(team, v.eligible) && CanReserve(y.st.holds, r.id, team))
      || !Selectable(y, o, r, v)
    ensures Selectable(y, o, r, v) ==> Select(y, o, r, v) == y
  {
    hide TeamOf, TeamEligible, CanReserve, Choose;
  }
}
