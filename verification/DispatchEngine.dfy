/** The dispatcher as it runs: a table of holds and the maps and flags that scans and polls update. */
module DispatchEngine {
  import opened DispatchState
  import opened DispatchTeams
  import opened Options
  import opened Reservations

  class DispatchReservations {
    var holds: Holds

    constructor ()
      ensures holds == map[]
    {
      holds := map[];
    }

    method OwnsSent(owner: string) returns (found: bool)
      ensures found <==> HasSent(holds, owner)
    {
      found := false;
      var keys := holds.Keys;
      while keys != {} && !found
        invariant keys <= holds.Keys
        invariant found ==> HasSent(holds, owner)
        invariant !found ==> forall id :: id in holds && id !in keys ==> !(holds[id].owner == owner && holds[id].sent)
        decreases |keys|
      {
        var id :| id in keys;
        if holds[id].owner == owner && holds[id].sent { found := true; }
        keys := keys - {id};
      }
    }

    method Reserve(owner: string, ids: seq<string>) returns (ok: bool)
      modifies this
      ensures holds == Reservations.Reserve(old(holds), owner, ids)
      ensures ok <==> CanReserve(old(holds), owner, ids)
    {
      ok := false;
      if owner == "" || ids == [] { return; }
      var sent := OwnsSent(owner);
      if sent { return; }
      var unique := Ids(ids);
      DistinctSize(ids);
      if |unique| != |ids| || "" in unique { return; }
      var i := 0;
      while i < |ids|
        invariant 0 <= i <= |ids|
        invariant forall k :: 0 <= k < i ==> Permits(holds, ids[k], owner)
      {
        if !Permits(holds, ids[i], owner) { return; }
        i := i + 1;
      }
      Cancel(owner);
      ghost var cancelled := holds;
      i := 0;
      while i < |ids|
        invariant 0 <= i <= |ids|
        invariant holds == Taken(cancelled, owner, Ids(ids[..i]))
      {
        TakeOne(cancelled, owner, ids, i);
        holds := holds[ids[i] := Hold(owner, false, false, 0)];
        i := i + 1;
      }
      assert ids[..i] == ids;
      ok := true;
    }

    static lemma TakeOne(h: Holds, owner: string, ids: seq<string>, i: nat)
      requires i < |ids|
      ensures Taken(h, owner, Ids(ids[..i + 1])) == Taken(h, owner, Ids(ids[..i]))[ids[i] := Hold(owner, false, false, 0)]
    {
      assert ids[..i + 1] == ids[..i] + [ids[i]];
    }

    /** A list is free of repetitions exactly when it has as many members as entries. */
    static lemma {:induction false} DistinctSize(ids: seq<string>)
      ensures |Ids(ids)| <= |ids|
      ensures |Ids(ids)| == |ids| <==> Distinct(ids)
    {
      if ids != [] {
        var n := |ids| - 1;
        var before := ids[..n];
        DistinctSize(before);
        assert ids == before + [ids[n]];
        assert Ids(ids) == Ids(before) + {ids[n]};
        if ids[n] in before {
          assert Ids(ids) == Ids(before);
          var k :| 0 <= k < n && before[k] == ids[n];
          assert ids[k] == ids[n];
        } else {
          assert forall k :: 0 <= k < n ==> ids[k] == before[k];
        }
      }
    }

    method Sent(owner: string, now: int)
      modifies this
      ensures holds == MarkSent(old(holds), owner, now)
    {
      var keys := holds.Keys;
      while keys != {}
        invariant keys <= holds.Keys == old(holds).Keys
        invariant forall id :: id in holds ==>
          holds[id] == if id !in keys && old(holds)[id].owner == owner
                       then old(holds)[id].(sent := true, sentMs := now) else old(holds)[id]
        decreases |keys|
      {
        var id :| id in keys;
        if holds[id].owner == owner { holds := holds[id := holds[id].(sent := true, sentMs := now)]; }
        keys := keys - {id};
      }
    }

    method Cancel(owner: string)
      modifies this
      ensures holds == Reservations.Cancel(old(holds), owner)
    {
      var keys := holds.Keys;
      while keys != {}
        invariant keys <= holds.Keys <= old(holds).Keys
        invariant forall id :: id in old(holds) ==> (id in holds <==> id in keys || !Unsent(old(holds)[id], owner))
        invariant forall id :: id in holds ==> holds[id] == old(holds)[id]
        decreases |keys|
      {
        var id :| id in keys;
        if holds[id].owner == owner && !holds[id].sent { holds := holds - {id}; }
        keys := keys - {id};
      }
    }

    method Observe(id: string, status: int)
      modifies this
      ensures holds == Observed(old(holds), id, status)
    {
      if id !in holds || !holds[id].sent { return; }
      if status == BUSY {
        holds := holds[id := holds[id].(sawBusy := true)];
      } else if Available(status) && holds[id].sawBusy {
        holds := holds - {id};
      }
    }

    method ReconcileTasks(live: set<string>, observed: int)
      modifies this
      ensures holds == Reconcile(old(holds), live, observed)
    {
      var keys := holds.Keys;
      while keys != {}
        invariant keys <= holds.Keys <= old(holds).Keys
        invariant forall id :: id in old(holds) ==> (id in holds <==> id in keys || !Ended(old(holds)[id], live, observed))
        invariant forall id :: id in holds ==> holds[id] == old(holds)[id]
        decreases |keys|
      {
        var id :| id in keys;
        if holds[id].sent && observed > holds[id].sentMs && holds[id].owner !in live { holds := holds - {id}; }
        keys := keys - {id};
      }
    }
  }

  class Dispatcher {
    const table: DispatchReservations
    var selections: map<string, Selection>
    var armed: map<string, Flight>
    var batch: BatchSelection
    var lock: string
    var lockSince: int
    var watch: Option<string>

    // The variables of the scan under way.
    var starts: nat
    var due: bool
    var pendingSeen: bool
    var seen: set<string>
    var live: set<string>
    var complete: bool

    ghost var log: seq<Event>

    ghost function St(): State
      reads this, table
    {
      State(table.holds, selections, armed, batch, lock, lockSince, watch)
    }

    ghost function At(): Progress
      reads this, table
    {
      Progress(St(), starts, due, pendingSeen, seen, live, complete, log)
    }

    ghost function Now(): Engine
      reads this, table
    {
      Engine(St(), log)
    }

    constructor ()
      ensures Now() == Run([]) && fresh(table)
    {
      table := new DispatchReservations();
      selections, armed, batch, lock, lockSince, watch := map[], map[], NO_BATCH, "", 0, None;
      starts, due, pendingSeen, seen, live, complete := 0, false, false, {}, {}, true;
      log := [];
    }

    // ---------- the survey ----------

    method SurveyInventory(sightings: seq<Sighting>, owner: string, gift: bool, designated: string)
      returns (eligible: set<string>, whole: bool)
      modifies table, `log
      ensures var s := Survey(old(table.holds), sightings, {}, owner, gift, designated, {}, old(log));
              s == Surveyed(table.holds, eligible, whole, log)
    {
      hide Observed, Eligible;
      eligible, whole := {}, true;
      var statuses: set<string> := {};
      var i := 0;
      ghost var all := Survey(table.holds, sightings, {}, owner, gift, designated, {}, log);
      assert sightings[0..] == sightings;
      while i < |sightings|
        invariant 0 <= i <= |sightings|
        invariant all == Survey(table.holds, sightings[i..], statuses, owner, gift, designated, eligible, log)
        modifies table, `log
      {
        var s := sightings[i];
        assert sightings[i..][0] == s && sightings[i..][1..] == sightings[i + 1..];
        if s.id == "" || s.id in statuses { whole := false; return; }
        statuses := statuses + {s.id};
        table.Observe(s.id, s.status);
        log := log + [StatusSeen(s.id, s.status)];
        if Eligible(table.holds, s, owner, gift, designated) { eligible := eligible + {s.id}; }
        i := i + 1;
      }
      assert sightings[i..] == [];
    }

    // ---------- starting ----------

    method SubmitArmed(o: Opening, r: Row, flow: Flow, team: TeamReading, at: int, gate: Gate)
      modifies table, `armed, `starts, `seen, `log
      ensures At() == Submit(old(At()), o, r, flow, team, at, gate)
    {
      hide MarkSent, TeamOf;
      table.Sent(r.id, r.live.sentAt);
      if r.id !in armed { armed := armed[r.id := Flight(r.live.tracked, false)]; }
      starts, seen := starts + 1, seen + {r.id};
      log := log + [Started(r.id, TeamOf(team.ids), flow, r.live.sentAt, o.observed, at, IsRoute(o),
                            gate.epoch, gate.ready)];
    }

    method DropSelection(id: string)
      modifies table, `selections
      ensures At() == old(At()).(st := Drop(old(St()), id))
    {
      hide Cancel;
      table.Cancel(id);
      selections := selections - {id};
    }

    method SettleNearbySelection(o: Opening, r: Row, v: Seen)
      requires r.id in selections
      modifies table, `armed, `starts, `seen, `log, `selections
      ensures At() == SettleNearby(old(At()), o, r, v)
    {
      hide Submit, Drop, Matches, TeamEligible;
      var s := selections[r.id];
      var l, again := r.live, r.live.recheck;
      if again.steady - s.since < NEARBY_SETTLE_MS { return; }
      var sameTeam := l.data && TeamEligible(s.team, v.eligible) && Matches(l.team, s.team);
      var power := l.data && l.power == Some(true);
      var safe := v.requested && v.canStart && power && sameTeam && !v.giftOut
                  && NearbyDurationSafe(DurationOf(l)) && l.startable
                  && again.gate.ready && s.epoch == again.gate.epoch
                  && DistanceAllowed(true, false, again.distance) && again.settings.mode == o.settings.mode
                  && (IsRoute(o) || again.settings.filter == FilterOf(o))
                  && KindAllowed(FilterOf(o), again.settings.mask, v.kind)
                  && starts < MAX_STARTS_PER_SCAN && |armed| < MAX_IN_FLIGHT;
      if safe { SubmitArmed(o, r, NearbyFlow, l.team, again.steady, again.gate); }
      DropSelection(r.id);
    }

    method ClearBatchSelection()
      modifies table, `batch
      ensures At() == old(At()).(st := ClearBatch(old(St())))
    {
      hide Cancel;
      table.Cancel(batch.id);
      batch := NO_BATCH;
    }

    method SubmitBatch(o: Opening, r: Row)
      modifies table, `lock, `lockSince, `watch, `starts, `log
      ensures At() == StartBatch(old(At()), o, r)
    {
      hide MarkSent, TeamOf;
      table.Sent(r.id, r.live.sentAt);
      starts := starts + 1;
      lock, lockSince := r.id, o.observed;
      if r.live.tracked { watch := Some(r.id); }
      log := log + [Started(r.id, TeamOf(r.live.team.ids), BatchFlow, r.live.sentAt, o.observed, o.observed,
                            false, 0, false)];
    }

    method SettleBatchSelection(o: Opening, r: Row, v: Seen)
      modifies table, `lock, `lockSince, `watch, `starts, `log, `batch
      ensures At() == SettleBatch(old(At()), o, r, v)
    {
      hide StartBatch, ClearBatch, Matches, TeamEligible;
      if r.id != batch.id || o.observed - batch.started < BATCH_SETTLE_MS { return; }
      var l := r.live;
      var carrying := l.power.Some? ==> l.power.value;
      var sameTeam := v.whole && TeamEligible(batch.team, v.eligible) && Matches(l.team, batch.team);
      var gate := v.requested && l.data && v.canStart && carrying && sameTeam && !v.giftOut
                  && BatchDurationSafe(DurationOf(l)) && l.startable
                  && 0.0 <= l.distance <= AllowedDistance(true, v.kind);
      if gate { SubmitBatch(o, r); }
      ClearBatchSelection();
    }

    // ---------- selecting ----------

    method ChooseTeam(o: Opening, r: Row, team: seq<string>)
      modifies table, `armed, `starts, `seen, `log, `selections, `batch
      ensures At() == Choose(old(At()), o, r, team)
    {
      hide Submit, Matches;
      var a := r.live.after;
      var carrying := a.power.Some? ==> a.power.value;
      if !(a.canStart && carrying && r.live.startable && Matches(a.team, team)) { return; }
      if IsBatch(o) {
        batch := BatchSelection(r.id, o.observed, team);
        log := log + [Selected(r.id, team, BatchFlow, o.observed, false, 0)];
      } else if IsNearby(o) {
        if a.duration.Some? && NearbyDurationSafe(a.duration.value) && a.power.Some? {
          selections := selections[r.id := Selection(team, a.steady, a.epoch)];
          log := log + [Selected(r.id, team, NearbyFlow, a.steady, IsRoute(o), a.epoch)];
        }
      } else {
        SubmitArmed(o, r, FarmFlow, a.team, o.observed, Gate(false, 0));
      }
    }

    method SelectTeam(o: Opening, r: Row, v: Seen)
      modifies table, `armed, `starts, `seen, `log, `selections, `batch
      ensures At() == Select(old(At()), o, r, v)
    {
      hide Choose, CanReserve, Reservations.Reserve, Cancel, TeamEligible, TeamOf;
      var p := r.live.proposal;
      var team := DispatchIds(p.ids);
      if !(p.listed && p.rooted && p.idCount == p.count && TeamEligible(team, v.eligible)) { return; }
      var reserved := table.Reserve(r.id, team);
      if !reserved {
        NothingReserved(old(table.holds), r.id, team);
        return;
      }
      ChooseTeam(o, r, team);
      if (!IsBatch(o) || batch.id != r.id) && r.id !in selections { table.Cancel(r.id); }
    }

    static lemma NothingReserved(h: Holds, owner: string, ids: seq<string>)
      ensures !CanReserve(h, owner, ids) ==> Reservations.Reserve(h, owner, ids) == h
    {
    }

    method MaySelect(o: Opening, r: Row, v: Seen) returns (may: bool)
      ensures may == Selectable(At(), o, r, v)
    {
      hide HasSent;
      var p := r.live.proposal;
      var sent := table.OwnsSent(r.id);
      var armedCapacity := IsArmed(o) && !sent && |armed| < MAX_IN_FLIGHT && starts < MAX_STARTS_PER_SCAN
                           && r.id !in armed
                           && (!IsNearby(o) || (o.gate.ready && |armed| + |selections| < MAX_IN_FLIGHT));
      var batchCapacity := IsBatch(o) && lock == "";
      may := (armedCapacity || batchCapacity) && v.requested && r.live.data
             && p.present && v.whole && !v.giftOut && p.count > 0 && r.live.settable
             && DistanceAllowed(IsNearby(o), IsBatch(o), r.live.distance)
             && (!IsBatch(o) || r.live.distance <= AllowedDistance(true, v.kind));
    }

    // ---------- one row ----------

    method DecideRow(o: Opening, r: Row, v: Seen)
      modifies table, this
      ensures At() == Decide(old(At()), o, r, v)
    {
      hide SettleNearby, SettleBatch, Selectable, Select;
      if IsNearby(o) && r.id in selections {
        SettleNearbySelection(o, r, v);
      } else if IsBatch(o) && batch.id != "" {
        SettleBatchSelection(o, r, v);
      } else {
        var may := MaySelect(o, r, v);
        if may { SelectTeam(o, r, v); }
      }
    }

    static method AssessRow(o: Opening, r: Row, kind: Kind, s: Surveyed) returns (v: Seen)
      ensures v == Assess(o, r, kind, s)
    {
      var l, p := r.live, r.live.proposal;
      var whole := s.whole && l.surveyed;
      var identity := p.present && p.listed && l.designated != "" && p.idCount == 1 && p.ids == l.designated;
      var giftOut := kind == GiftKind && !(identity && whole && l.designated in s.eligible);
      var requested := (IsArmed(o) && KindAllowed(FilterOf(o), o.settings.mask, kind))
                       || (BatchReady(o) && r.id == o.target);
      v := Seen(kind, s.eligible, whole, giftOut, l.data && l.canStart && !giftOut, requested);
    }

    method ConsiderRow(o: Opening, r: Row, kind: Kind)
      modifies table, this
      ensures At() == Consider(old(At()), o, r, kind)
    {
      hide Survey, Decide, Assess;
      var eligible, whole := SurveyInventory(r.live.survey, r.id, kind == GiftKind, r.live.designated);
      var v := AssessRow(o, r, kind, Surveyed(table.holds, eligible, whole, []));
      AssessIgnores(o, r, kind, Surveyed(table.holds, eligible, whole, []), log);
      DecideRow(o, r, v);
    }

    static lemma AssessIgnores(o: Opening, r: Row, kind: Kind, s: Surveyed, events: seq<Event>)
      ensures Assess(o, r, kind, s.(log := events)) == Assess(o, r, kind, s)
    {
    }

    method NoteRow(o: Opening, r: Row)
      modifies `live, `complete, `pendingSeen, `seen, `log
      ensures At() == Note(old(At()), o, r)
    {
      if r.id != "" { live := live + {r.id}; } else { complete := false; }
      if due && r.id == lock { pendingSeen := true; }
      if r.id in armed { seen := seen + {r.id}; }
      log := log + [TaskListed(r.id, r.finished, o.observed)];
    }

    method SettleFinished(id: string)
      modifies `lock, `lockSince, `armed
      ensures At() == Settle(old(At()), id)
    {
      if due && id == lock { lock, lockSince := "", 0; }
      armed := armed - {id};
    }

    method VisitRow(o: Opening, r: Row)
      modifies table, this
      ensures At() == Visit(old(At()), o, r)
    {
      hide Consider, Settle, Note;
      if !r.task || !r.proto || r.kind.None? {
        if !r.task || !r.proto { complete := false; }
        return;
      }
      NoteRow(o, r);
      if r.finished { SettleFinished(r.id); } else { ConsiderRow(o, r, r.kind.value); }
    }

    // ---------- one scan ----------

    method DropSelections(tasks: set<string>)
      requires tasks <= selections.Keys
      modifies table, `selections
      ensures At() == old(At()).(st := DropAll(old(St()), tasks))
    {
      hide Cancel, CancelAll;
      ghost var h, s := table.holds, selections;
      var keys := tasks;
      DropNone(h, s);
      while keys != {}
        invariant keys <= tasks
        invariant table.holds == CancelAll(h, tasks - keys) && selections == s - (tasks - keys)
        decreases |keys|
        modifies table, `selections
      {
        var id :| id in keys;
        DropOneMore(h, s, tasks - keys, id);
        assert tasks - (keys - {id}) == tasks - keys + {id};
        table.Cancel(id);
        selections := selections - {id};
        keys := keys - {id};
      }
      assert tasks - keys == tasks;
    }

    static lemma DropNone(h: Holds, s: map<string, Selection>)
      ensures forall t: set<string> :: t == {} ==> CancelAll(h, t) == h && s - t == s
    {
    }

    static lemma DropOneMore(h: Holds, s: map<string, Selection>, done: set<string>, id: string)
      ensures CancelAll(h, done + {id}) == Cancel(CancelAll(h, done), id)
      ensures s - (done + {id}) == s - done - {id}
    {
    }

    method StaleSelections(o: Opening) returns (tasks: set<string>)
      ensures tasks == StaleTasks(St(), o)
    {
      hide Stale;
      tasks := {};
      var keys := selections.Keys;
      while keys != {}
        invariant keys <= selections.Keys
        invariant tasks == set id | id in selections && id !in keys && Stale(id, selections[id], o)
        decreases |keys|
      {
        var id :| id in keys;
        if Stale(id, selections[id], o) { tasks := tasks + {id}; }
        keys := keys - {id};
      }
    }

    method ReleaseLocks(o: Opening)
      modifies `lock, `lockSince, `armed
      ensures At() == old(At()).(st := Unlock(old(St()), o))
    {
      if !IsArmed(o) && !IsBatch(o) && lock != "" { lock, lockSince := "", 0; }
      if !IsArmed(o) && armed != map[] { armed := map[]; }
    }

    method DropStale(o: Opening)
      modifies table, `selections
      ensures At() == old(At()).(st := DropAll(old(St()), StaleTasks(old(St()), o)))
    {
      hide DropAll, StaleTasks;
      var tasks := StaleSelections(o);
      StaleAreSelected(St(), o);
      DropSelections(tasks);
    }

    /** Lets go of what the mode, the gate and the target no longer support. */
    method LetGo(o: Opening)
      modifies table, `selections, `lock, `lockSince, `armed, `batch
      ensures St() == ForgetBatch(Unlock(DropAll(old(St()), StaleTasks(old(St()), o)), o), o)
    {
      hide DropAll, Unlock, ClearBatch, StaleTasks;
      DropStale(o);
      ReleaseLocks(o);
      if !IsBatch(o) || batch.id != TargetOf(o) { ClearBatchSelection(); }
    }

    method OpenScan(o: Opening)
      modifies table, this
      ensures At() == Open(old(St()), old(log), o)
    {
      hide DropAll, Unlock, ForgetBatch, StaleTasks;
      LetGo(o);
      BeginScan(lock != "" && lockSince < o.observed);
      log := log + [ScanOpened(o.settings.mode, o.observed)];
    }

    static lemma StaleAreSelected(st: State, o: Opening)
      ensures StaleTasks(st, o) <= st.selections.Keys
    {
    }

    method BeginScan(confirmationDue: bool)
      modifies `starts, `due, `pendingSeen, `seen, `live, `complete
      ensures starts == 0 && due == confirmationDue && !pendingSeen && seen == {} && live == {} && complete
    {
      starts, due, pendingSeen, seen, live, complete := 0, confirmationDue, false, {}, {}, true;
    }

    method SettleAbsent()
      modifies `lock, `lockSince, `armed
      ensures At() == old(At()).(st := Absent(old(At())))
    {
      if due && lock != "" && !pendingSeen { lock, lockSince := "", 0; }
      armed := map id | id in armed && id in seen :: armed[id];
    }

    method CloseScan(o: Opening)
      modifies table, this
      ensures Now() == var r := Close(old(At()), o); Engine(r.0, r.1)
    {
      hide Absent, Reconcile, DropAll;
      SettleAbsent();
      if complete {
        table.ReconcileTasks(live, o.observed);
        DropSelections(selections.Keys - live);
      }
      log := log + [ScanClosed(o.observed, live, complete)];
    }

    /** One scan of the task list. */
    method Scan(o: Opening, rows: seq<Row>)
      modifies table, this
      ensures Now() == Next(old(Now()), ScanStep(o, rows))
    {
      hide Open, Close, Visit;
      OpenScan(o);
      ghost var x := At();
      var i := 0;
      while i < |rows|
        invariant 0 <= i <= |rows|
        invariant At() == VisitAll(x, o, rows[..i])
        modifies table, this
      {
        assert rows[..i + 1][..i] == rows[..i];
        VisitRow(o, rows[i]);
        i := i + 1;
      }
      assert rows[..i] == rows;
      CloseScan(o);
    }

    // ---------- polls ----------

    method PollPendingTask(answer: Answer)
      modifies `lock, `lockSince, `watch, `log
      ensures Now() == Next(old(Now()), PollBatchStep(answer))
    {
      ghost var failed: set<string> := {};
      if watch.Some? {
        match answer {
          case Running(late) => if late { watch := None; }
          case Done(faulted) =>
            if faulted {
              failed := {watch.value};
              if lock == watch.value { lock, lockSince := "", 0; }
            }
            watch := None;
        }
      }
      log := log + [Faulted(failed)];
    }

    method PollOne(id: string, answer: Answer)
      requires id in armed
      modifies `armed
      ensures armed == if Fault(old(armed[id]), answer) then old(armed) - {id}
                       else old(armed)[id := Polled(old(armed[id]), answer)]
    {
      var pending := armed[id];
      assert armed[id := pending] == armed;
      if !pending.watched || pending.recorded { return; }
      match answer {
        case Running(late) => if late { armed := armed[id := pending.(watched := false)]; }
        case Done(faulted) =>
          if faulted { armed := armed - {id}; } else { armed := armed[id := pending.(recorded := true)]; }
      }
    }

    method PollFlights(answers: map<string, Answer>)
      modifies `armed
      ensures armed == PollArmed(old(St()), answers).0.armed
    {
      hide Fault, Polled;
      var keys := armed.Keys;
      ghost var before := armed;
      while keys != {}
        invariant keys <= armed.Keys <= before.Keys
        invariant forall id :: id in before ==> (id in armed <==> id in keys || !Fault(before[id], AnswerTo(answers, id)))
        invariant forall id :: id in armed ==>
          armed[id] == if id in keys then before[id] else Polled(before[id], AnswerTo(answers, id))
        decreases |keys|
      {
        var id :| id in keys;
        PollOne(id, AnswerTo(answers, id));
        keys := keys - {id};
      }
    }

    method PollArmedTasks(answers: map<string, Answer>)
      modifies `armed, `log
      ensures Now() == Next(old(Now()), PollArmedStep(answers))
    {
      hide Fails, Polled;
      ghost var failed := PollArmed(St(), answers).1;
      PollFlights(answers);
      log := log + [Faulted(failed)];
    }
  }
}
