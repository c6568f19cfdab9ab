/** One scan of the task list and one poll, told from what they read: what stays of the selections, locks and holds, and
    exactly which due selections are started. */
module DispatchScans {
  import opened DispatchState
  import opened DispatchStarts
  import opened DispatchSurvey
  import opened DispatchTeams
  import opened Options
  import opened Reservations

  // ---------- the start of a scan ----------

  /** The location gate is open in the selection's epoch, and the selection is at most twenty seconds old. */
  predicate Stays(o: Opening, id: string, s: Selection) {
    NearbyOn(o) && o.gate.ready && s.epoch == o.gate.epoch && o.steady(id) - s.since <= 20000
  }

  predicate BatchStays(st: State, o: Opening) {
    BatchOn(o) && st.batch.id == o.target
  }

  /** The hold is that of a selection which does not stay. */
  predicate Abandoned(st: State, o: Opening, h: Hold) {
    && !h.sent
    && ((h.owner in st.selections && !Stays(o, h.owner, st.selections[h.owner]))
        || (!BatchStays(st, o) && h.owner == st.batch.id))
  }

  /** What a scan finds before its first row. */
  ghost predicate Opened(st: State, log: seq<Event>, o: Opening, x: Progress) {
    && (forall id ::
          (id in x.st.selections <==> id in st.selections && Stays(o, id, st.selections[id]))
          && (id in x.st.selections ==> x.st.selections[id] == st.selections[id]))
    && x.st.armed == (if NearbyOn(o) || FarmOn(o) then st.armed else map[])
    && (if o.settings.mode == Mode.Idle && st.lock != "" then x.st.lock == "" && x.st.lockSince == 0
        else x.st.lock == st.lock && x.st.lockSince == st.lockSince)
    && x.st.batch == (if BatchStays(st, o) then st.batch else BatchSelection("", 0, []))
    && x.st.watch == st.watch
    && (forall id ::
          (id in x.st.holds <==> id in st.holds && !Abandoned(st, o, st.holds[id]))
          && (id in x.st.holds ==> x.st.holds[id] == st.holds[id]))
    && x.starts == 0 && x.due == (x.st.lock != "" && x.st.lockSince < o.observed) && !x.pendingSeen
    && x.seen == {} && x.live == {} && x.complete && x.log == log + [ScanOpened(o.settings.mode, o.observed)]
  }

  lemma StaysIs(o: Opening, id: string, s: Selection)
    ensures Stays(o, id, s) <==> !Stale(id, s, o)
  {
    SettingsAre(o, {}, SeedKind);
  }

  lemma HoldsOpened(st: State, o: Opening)
    requires forall id :: id in st.selections ==> (Stays(o, id, st.selections[id]) <==> !Stale(id, st.selections[id], o))
    ensures var h := CancelAll(st.holds, StaleTasks(st, o));
      var h' := if BatchStays(st, o) then h else Cancel(h, st.batch.id);
      forall id ::
        (id in h' <==> id in st.holds && !Abandoned(st, o, st.holds[id])) && (id in h' ==> h'[id] == st.holds[id])
  {
    hide Stale, Stays, BatchStays;
  }

  lemma OpenIs(st: State, log: seq<Event>, o: Opening)
    ensures Opened(st, log, o, Open(st, log, o))
  {
    hide Stale, Stays, CancelAll, Cancel, Abandoned;
    SettingsAre(o, {}, SeedKind);
    forall id | id in st.selections
      ensures Stays(o, id, st.selections[id]) <==> !Stale(id, st.selections[id], o)
    {
      StaysIs(o, id, st.selections[id]);
    }
    HoldsOpened(st, o);
  }

  // ---------- the other rows ----------

  /** A row without a task, a proto or a kind only makes the list incomplete, if it has no task or no proto. */
  lemma UntrackedRow(x: Progress, o: Opening, r: Row)
    requires !r.task || !r.proto || r.kind.None?
    ensures Visit(x, o, r) == x.(complete := x.complete && r.task && r.proto)
  {
  }

  /** A finished task is no longer tracked, and settles the confirmation lock that is its own and due. */
  lemma FinishedRow(x: Progress, o: Opening, r: Row)
    requires r.task && r.proto && r.kind.Some? && r.finished
    ensures var y := Visit(x, o, r); var settles := x.due && r.id == x.st.lock;
      && y.st == x.st.(armed := x.st.armed - {r.id}, lock := if settles then "" else x.st.lock,
                       lockSince := if settles then 0 else x.st.lockSince)
      && y.starts == x.starts && y.due == x.due
      && y.log == x.log + [TaskListed(r.id, true, o.observed)]
      && y.live == (if r.id == "" then x.live else x.live + {r.id}) && y.complete == (x.complete && r.id != "")
      && y.seen == (if r.id in x.st.armed then x.seen + {r.id} else x.seen)
      && y.pendingSeen == (x.pendingSeen || settles)
  {
  }

  // ---------- the end of a scan ----------

  /** A due lock whose task was not listed is settled, a start whose task was not listed is no longer tracked, and a
      complete list ends the older sent holds and the selections of the tasks that it leaves out. */
  ghost predicate Closed(x: Progress, o: Opening, st: State, log: seq<Event>) {
    && (if x.due && x.st.lock != "" && !x.pendingSeen then st.lock == "" && st.lockSince == 0
        else st.lock == x.st.lock && st.lockSince == x.st.lockSince)
    && (forall id :: (id in st.armed <==> id in x.st.armed && id in x.seen) && (id in st.armed ==> st.armed[id] == x.st.armed[id]))
    && (forall id ::
          (id in st.selections <==> id in x.st.selections && (x.complete ==> id in x.live))
          && (id in st.selections ==> st.selections[id] == x.st.selections[id]))
    && (forall id ::
          (id in st.holds <==> id in x.st.holds && !(x.complete && LeftOut(x, o, x.st.holds[id])))
          && (id in st.holds ==> st.holds[id] == x.st.holds[id]))
    && st.batch == x.st.batch && st.watch == x.st.watch
    && log == x.log + [ScanClosed(o.observed, x.live, x.complete)]
  }

  predicate LeftOut(x: Progress, o: Opening, h: Hold) {
    h.owner !in x.live && (if h.sent then o.observed > h.sentMs else h.owner in x.st.selections)
  }

  lemma CloseIs(x: Progress, o: Opening)
    ensures Closed(x, o, Close(x, o).0, Close(x, o).1)
  {
  }

  // ---------- the polls ----------

  /** The watched batch start: given up when it is late, and settled with its lock when it has failed. */
  lemma BatchPoll(e: Engine, answer: Answer)
    ensures var r := Next(e, PollBatchStep(answer));
      match e.st.watch
      case None => r.st == e.st && r.log == e.log + [Faulted({})]
      case Some(task) =>
        match answer
        case Running(late) => r.st == e.st.(watch := if late then None else Some(task)) && r.log == e.log + [Faulted({})]
        case Done(faulted) =>
          if faulted then
            && r.log == e.log + [Faulted({task})]
            && r.st == e.st.(watch := None, lock := if e.st.lock == task then "" else e.st.lock,
                             lockSince := if e.st.lock == task then 0 else e.st.lockSince)
          else r.st == e.st.(watch := None) && r.log == e.log + [Faulted({})]
  {
  }

  predicate Failed(f: Flight, id: string, answers: map<string, Answer>) {
    f.watched && !f.recorded && id in answers && answers[id] == Done(true)
  }

  /** The tracked starts: one that has failed is no longer tracked, one that is late is no longer watched, and one that
      has succeeded is recorded. */
  lemma ArmedPoll(e: Engine, answers: map<string, Answer>)
    ensures var r := Next(e, PollArmedStep(answers));
      && r.st == e.st.(armed := r.st.armed)
      && (forall id :: id in r.st.armed <==> id in e.st.armed && !Failed(e.st.armed[id], id, answers))
      && (forall id :: id in r.st.armed ==>
            var f := e.st.armed[id];
            r.st.armed[id] ==
              if !f.watched || f.recorded || id !in answers || answers[id] == Running(false) then f
              else if answers[id] == Running(true) then f.(watched := false)
              else f.(recorded := true))
      && |r.log| == |e.log| + 1 && e.log < r.log && r.log[|e.log|].Faulted?
      && (forall id :: id in r.log[|e.log|].tasks <==> id in e.st.armed && Failed(e.st.armed[id], id, answers))
  {
  }

  // ---------- a whole scan ----------

  /** Selections belong to the nearby flows, and the batch selection to batch mode. */
  predicate InFlow(x: Progress, o: Opening) {
    && (!NearbyOn(o) ==> x.st.selections == map[])
    && (!BatchOn(o) ==> x.st.batch.id == "")
  }

  /** The visit of another task, or of a finished or untracked row, leaves the selection of the task as it is and
      neither selects nor starts it. */
  ghost predicate LeavesAlone(x: Progress, y: Progress, id: string) {
    && (id in y.st.selections <==> id in x.st.selections)
    && (id in x.st.selections ==> y.st.selections[id] == x.st.selections[id])
    && (x.st.batch.id == id && id != "" ==> y.st.batch == x.st.batch)
    && (y.st.batch.id == id && id != "" ==> x.st.batch.id == id)
    && x.log <= y.log && !StartedIn(x.log, y.log, id) && !SelectedIn(x.log, y.log, id)
  }

  lemma OtherNearby(x: Progress, y: Progress, z: Progress, o: Opening, r: Row, s: Selection, go: bool, id: string)
    requires Surveys(x, o, r, y) && r.id != id && NearbySettled(y, o, r, s, go, z)
    requires InFlow(x, o) && NearbyOn(o)
    ensures LeavesAlone(x, z, id) && InFlow(z, o)
  {
    hide AllSent, UnsentGone, HoldsAfter, Statuses, TeamOf;
    NothingDecided(x, o, r, y);
  }

  lemma OtherBatch(x: Progress, y: Progress, z: Progress, o: Opening, r: Row, go: bool, id: string)
    requires Surveys(x, o, r, y) && r.id != id && BatchSettled(y, o, r, go, z)
    requires InFlow(x, o) && BatchOn(o) && x.st.batch.id != ""
    ensures LeavesAlone(x, z, id) && InFlow(z, o)
  {
    hide AllSent, UnsentGone, HoldsAfter, Statuses, TeamOf;
    NothingDecided(x, o, r, y);
  }

  lemma OtherSelecting(x: Progress, y: Progress, z: Progress, o: Opening, r: Row, id: string)
    requires Unfinished(r) && Surveys(x, o, r, y) && r.id != id && Selecting(x, y, o, r, z)
    requires InFlow(x, o) && (BatchOn(o) ==> x.st.batch.id == "")
    ensures LeavesAlone(x, z, id) && InFlow(z, o)
  {
    hide TeamHolds, UnsentGone, HoldsAfter, Statuses, TeamOf, Confirms, Tries, Reserves;
    NothingDecided(x, o, r, y);
  }

  lemma OtherRow(x: Progress, o: Opening, r: Row, id: string)
    requires InFlow(x, o) && (Unfinished(r) ==> r.id != id)
    ensures LeavesAlone(x, Visit(x, o, r), id) && InFlow(Visit(x, o, r), o)
  {
    hide Visit, Surveys, NearbySettled, BatchSettled, Selecting, LeavesAlone, InFlow, NearbyGo, BatchGo;
    if !r.task || !r.proto || r.kind.None? {
      UntrackedRow(x, o, r);
      Alone(x, Visit(x, o, r), o, id);
    } else if r.finished {
      FinishedRow(x, o, r);
      Alone(x, Visit(x, o, r), o, id);
    } else if NearbyOn(o) && r.id in x.st.selections {
      var y := NearbyRow(x, o, r);
      OtherNearby(x, y, Visit(x, o, r), o, r, x.st.selections[r.id], NearbyGo(x, o, r, x.st.selections[r.id]), id);
    } else if BatchOn(o) && x.st.batch.id != "" {
      var y := BatchRow(x, o, r);
      OtherBatch(x, y, Visit(x, o, r), o, r, BatchGo(x, o, r), id);
    } else {
      NotSelectedYet(x, o, r.id);
      var y := SelectRow(x, o, r);
      OtherSelecting(x, y, Visit(x, o, r), o, r, id);
    }
  }

  lemma NotSelectedYet(x: Progress, o: Opening, id: string)
    requires InFlow(x, o) && !(NearbyOn(o) && id in x.st.selections)
    ensures id !in x.st.selections
  {
  }

  lemma Alone(x: Progress, y: Progress, o: Opening, id: string)
    requires y.st.selections == x.st.selections && y.st.batch == x.st.batch && InFlow(x, o)
    requires x.log <= y.log && forall k :: |x.log| <= k < |y.log| ==> y.log[k].TaskListed?
    ensures LeavesAlone(x, y, id) && InFlow(y, o)
  {
  }

  /** The task is that of one unfinished expedition of the list, at k. */
  predicate ListedOnce(rows: seq<Row>, k: int) {
    && 0 <= k < |rows| && Unfinished(rows[k])
    && forall j :: 0 <= j < |rows| && j != k && Unfinished(rows[j]) ==> rows[j].id != rows[k].id
  }

  lemma AloneOn(x: Progress, y: Progress, z: Progress, id: string)
    requires LeavesAlone(x, y, id) && LeavesAlone(y, z, id)
    ensures LeavesAlone(x, z, id)
  {
  }

  lemma {:induction false} OtherRows(x: Progress, o: Opening, rows: seq<Row>, id: string)
    requires InFlow(x, o) && forall j :: 0 <= j < |rows| && Unfinished(rows[j]) ==> rows[j].id != id
    ensures LeavesAlone(x, VisitAll(x, o, rows), id) && InFlow(VisitAll(x, o, rows), o)
  {
    hide Visit, LeavesAlone, InFlow;
    if rows == [] {
      StartsAlone(x, id);
    } else {
      var before := rows[..|rows| - 1];
      OtherRows(x, o, before, id);
      OtherRow(VisitAll(x, o, before), o, rows[|rows| - 1], id);
      AloneOn(x, VisitAll(x, o, before), VisitAll(x, o, rows), id);
    }
  }

  lemma StartsAlone(x: Progress, id: string)
    ensures LeavesAlone(x, x, id)
  {
  }

  lemma {:induction false} VisitSplit(x: Progress, o: Opening, a: seq<Row>, b: seq<Row>)
    ensures VisitAll(x, o, a + b) == VisitAll(VisitAll(x, o, a), o, b)
    decreases |b|
  {
    hide Visit;
    if b == [] {
      assert a + b == a;
    } else {
      VisitSplit(x, o, a, b[..|b| - 1]);
      assert (a + b)[..|a + b| - 1] == a + b[..|b| - 1];
    }
  }

  /** The scan as it comes to row k. */
  function Before(e: Engine, o: Opening, rows: seq<Row>, k: nat): Progress
    requires k <= |rows|
  {
    VisitAll(Open(e.st, e.log, o), o, rows[..k])
  }

  lemma OpensInFlow(st: State, log: seq<Event>, o: Opening)
    ensures InFlow(Open(st, log, o), o)
  {
    hide Stays, Open;
    OpenIs(st, log, o);
    var x := Open(st, log, o);
    if !NearbyOn(o) {
      assert forall id :: id !in x.st.selections by { StaysNearby(o); }
      assert x.st.selections == map[];
    }
  }

  lemma StaysNearby(o: Opening)
    requires !NearbyOn(o)
    ensures forall id, s :: !Stays(o, id, s)
  {
  }

  /** Up to row k and after it nothing happens to the task. */
  lemma AroundRow(e: Engine, o: Opening, rows: seq<Row>, k: nat)
    requires ListedOnce(rows, k)
    ensures var x := Before(e, o, rows, k); var id := rows[k].id;
      && InFlow(x, o) && LeavesAlone(Open(e.st, e.log, o), x, id)
      && LeavesAlone(Visit(x, o, rows[k]), Before(e, o, rows, |rows|), id)
  {
    hide Visit, LeavesAlone, InFlow, Open, Unfinished;
    var id, x0 := rows[k].id, Open(e.st, e.log, o);
    var x := Before(e, o, rows, k);
    OpensInFlow(e.st, e.log, o);
    OtherRows(x0, o, rows[..k], id);
    var y := Visit(x, o, rows[k]);
    AnyRow(x, o, rows[k]);
    assert rows == rows[..k + 1] + rows[k + 1..] && rows[..k + 1][..k] == rows[..k];
    assert rows[..|rows|] == rows;
    VisitSplit(x0, o, rows[..k + 1], rows[k + 1..]);
    OtherRows(y, o, rows[k + 1..], id);
  }

  lemma AnyRow(x: Progress, o: Opening, r: Row)
    requires InFlow(x, o)
    ensures InFlow(Visit(x, o, r), o)
  {
    hide InFlow, Visit;
    OtherRow(x, o, r, r.id + "x");
  }

  lemma ScanLog(e: Engine, o: Opening, rows: seq<Row>, id: string)
    ensures var x, z, r := Open(e.st, e.log, o), Before(e, o, rows, |rows|), Next(e, ScanStep(o, rows));
      && r.st == Close(z, o).0 && r.log == Close(z, o).1
      && (x.log <= z.log ==>
            && (StartedIn(e.log, r.log, id) <==> StartedIn(x.log, z.log, id))
            && (SelectedIn(e.log, r.log, id) <==> SelectedIn(x.log, z.log, id)))
  {
    hide Opened, Closed, Visit;
    var x, z, r := Open(e.st, e.log, o), Before(e, o, rows, |rows|), Next(e, ScanStep(o, rows));
    assert rows[..|rows|] == rows;
    assert x.log == e.log + [ScanOpened(o.settings.mode, o.observed)] by { OpenIs(e.st, e.log, o); OpenedLog(e.st, e.log, o, x); }
    assert r.log == z.log + [ScanClosed(o.observed, z.live, z.complete)] by { CloseIs(z, o); }
    if x.log <= z.log {
      SameStarts(e.log, x.log, z.log, r.log, id);
    }
  }

  lemma OpenedLog(st: State, log: seq<Event>, o: Opening, x: Progress)
    requires Opened(st, log, o, x)
    ensures x.log == log + [ScanOpened(o.settings.mode, o.observed)]
  {
  }

  lemma PartsOf(a: seq<Event>, b: seq<Event>, c: seq<Event>, id: string)
    requires a <= b <= c
    ensures StartedIn(a, c, id) <==> StartedIn(a, b, id) || StartedIn(b, c, id)
    ensures SelectedIn(a, c, id) <==> SelectedIn(a, b, id) || SelectedIn(b, c, id)
  {
    assert forall k :: 0 <= k < |b| ==> b[k] == c[k];
  }

  lemma SameStarts(a: seq<Event>, b: seq<Event>, c: seq<Event>, d: seq<Event>, id: string)
    requires a <= b <= c <= d && |b| == |a| + 1 && |d| == |c| + 1 && b[|a|].ScanOpened? && d[|c|].ScanClosed?
    ensures StartedIn(a, d, id) <==> StartedIn(b, c, id)
    ensures SelectedIn(a, d, id) <==> SelectedIn(b, c, id)
  {
    PartsOf(a, b, d, id);
    PartsOf(b, c, d, id);
  }

  /** What the visit of row k does for its task is all that the scan does for it. */
  lemma RowIsScan(e: Engine, o: Opening, rows: seq<Row>, k: nat)
    requires ListedOnce(rows, k)
    ensures var x, y, r := Before(e, o, rows, k), Visit(Before(e, o, rows, k), o, rows[k]), Next(e, ScanStep(o, rows));
      var id := rows[k].id;
      x.log <= y.log ==>
        && (StartedIn(e.log, r.log, id) <==> StartedIn(x.log, y.log, id))
        && (SelectedIn(e.log, r.log, id) <==> SelectedIn(x.log, y.log, id))
        && (id !in y.st.selections ==> id !in r.st.selections)
        && (y.st.batch.id != id && id != "" ==> r.st.batch.id != id)
  {
    hide Visit, Open, Unfinished, InFlow;
    AroundRow(e, o, rows, k);
    var x, y, z := Before(e, o, rows, k), Visit(Before(e, o, rows, k), o, rows[k]), Before(e, o, rows, |rows|);
    var x0 := Open(e.st, e.log, o);
    ScanLog(e, o, rows, rows[k].id);
    CloseIs(z, o);
    if x.log <= y.log {
      Between(x0.log, x.log, y.log, z.log, rows[k].id);
    }
  }

  lemma Between(a: seq<Event>, b: seq<Event>, c: seq<Event>, d: seq<Event>, id: string)
    requires a <= b <= c <= d
    requires !StartedIn(a, b, id) && !SelectedIn(a, b, id) && !StartedIn(c, d, id) && !SelectedIn(c, d, id)
    ensures StartedIn(a, d, id) <==> StartedIn(b, c, id)
    ensures SelectedIn(a, d, id) <==> SelectedIn(b, c, id)
  {
    hide StartedIn, SelectedIn;
    PartsOf(a, b, d, id);
    PartsOf(b, c, d, id);
  }

  /** A nearby or route selection that is at least a second old is started in the scan if and only if the readings of its
      task allow it, and is dropped in any case. A younger one is not started. */
  lemma DueSelectionStarts(e: Engine, o: Opening, rows: seq<Row>, k: nat)
    requires ListedOnce(rows, k) && rows[k].id in e.st.selections && Stays(o, rows[k].id, e.st.selections[rows[k].id])
    ensures var r, x, id := Next(e, ScanStep(o, rows)), Before(e, o, rows, k), rows[k].id;
      var s := e.st.selections[id];
      if rows[k].live.recheck.steady - s.since >= 1000 then
        (StartedIn(e.log, r.log, id) <==> NearbyGo(x, o, rows[k], s)) && id !in r.st.selections
      else !StartedIn(e.log, r.log, id)
  {
    hide Visit, Open, Surveys, NearbyGo, AllSent, UnsentGone, TeamOf, Next, NearbyOn;
    var x, id := Before(e, o, rows, k), rows[k].id;
    AroundRow(e, o, rows, k);
    OpenIs(e.st, e.log, o);
    assert x.st.selections[id] == e.st.selections[id];
    assert NearbyOn(o) && Unfinished(rows[k]) by { StaysNow(o, id, e.st.selections[id]); }
    var y := NearbyRow(x, o, rows[k]);
    NothingDecided(x, o, rows[k], y);
    NearbyStarted(x, y, o, rows[k], e.st.selections[id], NearbyGo(x, o, rows[k], e.st.selections[id]), Visit(x, o, rows[k]));
    RowIsScan(e, o, rows, k);
  }

  lemma StaysNow(o: Opening, id: string, s: Selection)
    requires Stays(o, id, s)
    ensures NearbyOn(o)
  {
  }

  lemma NearbyStarted(x: Progress, y: Progress, o: Opening, r: Row, s: Selection, go: bool, z: Progress)
    requires NearbySettled(y, o, r, s, go, z)
    requires x.log <= y.log && forall k :: |x.log| <= k < |y.log| ==> !y.log[k].Started? && !y.log[k].Selected?
    ensures x.log <= z.log
    ensures StartedIn(x.log, z.log, r.id) <==> go && r.live.recheck.steady - s.since >= 1000
    ensures r.live.recheck.steady - s.since >= 1000 ==> r.id !in z.st.selections
  {
    hide AllSent, UnsentGone, TeamOf;
    if go && r.live.recheck.steady - s.since >= 1000 {
      assert z.log[|y.log|].Started? && z.log[|y.log|].task == r.id;
    }
  }

  /** The batch selection that is at least a second and a half old is started in the scan if and only if the readings of
      its task allow it, and is dropped in any case. A younger one is not started. */
  lemma DueBatchStarts(e: Engine, o: Opening, rows: seq<Row>, k: nat)
    requires ListedOnce(rows, k) && rows[k].id == e.st.batch.id != "" && BatchStays(e.st, o)
    ensures var r, x, id := Next(e, ScanStep(o, rows)), Before(e, o, rows, k), rows[k].id;
      x.st.batch == e.st.batch &&
      if o.observed - e.st.batch.started >= 1500 then
        (StartedIn(e.log, r.log, id) <==> BatchGo(x, o, rows[k])) && r.st.batch.id != id
      else !StartedIn(e.log, r.log, id)
  {
    hide Visit, Open, Surveys, BatchGo, AllSent, UnsentGone, TeamOf, Next;
    var x, id := Before(e, o, rows, k), rows[k].id;
    AroundRow(e, o, rows, k);
    OpenIs(e.st, e.log, o);
    assert x.st.batch == e.st.batch;
    assert Unfinished(rows[k]);
    var y := BatchRow(x, o, rows[k]);
    NothingDecided(x, o, rows[k], y);
    assert y.st.batch == x.st.batch by { SurveysBatch(x, o, rows[k], y); }
    BatchStarted(x, y, o, rows[k], BatchGo(x, o, rows[k]), Visit(x, o, rows[k]));
    RowIsScan(e, o, rows, k);
  }

  lemma SurveysBatch(x: Progress, o: Opening, r: Row, y: Progress)
    requires Surveys(x, o, r, y)
    ensures y.st.batch == x.st.batch && y.st.selections == x.st.selections
  {
  }

  lemma BatchStarted(x: Progress, y: Progress, o: Opening, r: Row, go: bool, z: Progress)
    requires BatchSettled(y, o, r, go, z) && r.id == y.st.batch.id != ""
    requires x.log <= y.log && forall k :: |x.log| <= k < |y.log| ==> !y.log[k].Started? && !y.log[k].Selected?
    ensures x.log <= z.log
    ensures StartedIn(x.log, z.log, r.id) <==> go && o.observed - y.st.batch.started >= 1500
    ensures o.observed - y.st.batch.started >= 1500 ==> z.st.batch.id != r.id
  {
    hide AllSent, UnsentGone, TeamOf;
    if go && o.observed - y.st.batch.started >= 1500 {
      assert z.log[|y.log|].Started? && z.log[|y.log|].task == r.id;
    }
  }

  /** In the nearby flows a team is set aside for the task only if its carrying power is known and its expedition is short
      enough. */
  predicate SetsAside(o: Opening, r: Row) {
    var a := r.live.after;
    BatchOn(o) || (NearbyOn(o) && a.power.Some? && a.duration.Some? && 1 <= a.duration.value <= 300000)
  }

  /** A task without a selection is selected in the scan, or started in the farm flow, if and only if the readings allow
      it. */
  lemma FreeTaskSelected(e: Engine, o: Opening, rows: seq<Row>, k: nat) returns (y: Progress)
    requires ListedOnce(rows, k) && rows[k].id !in Before(e, o, rows, k).st.selections
    requires BatchOn(o) ==> Before(e, o, rows, k).st.batch.id == ""
    ensures Surveys(Before(e, o, rows, k), o, rows[k], y)
    ensures var r, x, id := Next(e, ScanStep(o, rows)), Before(e, o, rows, k), rows[k].id;
      var team := TeamOf(rows[k].live.proposal.ids);
      var goes := Tries(x, y, o, rows[k]) && Reserves(x, y, rows[k], team) && Confirms(rows[k], team);
      && (SelectedIn(e.log, r.log, id) <==> goes && SetsAside(o, rows[k]))
      && (StartedIn(e.log, r.log, id) <==> goes && FarmOn(o))
  {
    hide Visit, Open, Surveys, Tries, Reserves, Confirms, TeamHolds, UnsentGone, TeamOf, Next, Before, Selecting;
    var x, id := Before(e, o, rows, k), rows[k].id;
    y := SelectRow(x, o, rows[k]);
    NothingDecided(x, o, rows[k], y);
    SelectingLogs(x, y, o, rows[k], Visit(x, o, rows[k]));
    RowIsScan(e, o, rows, k);
  }

  lemma SelectingLogs(x: Progress, y: Progress, o: Opening, r: Row, z: Progress)
    requires r.kind.Some? && Selecting(x, y, o, r, z)
    requires x.log <= y.log && forall k :: |x.log| <= k < |y.log| ==> !y.log[k].Started? && !y.log[k].Selected?
    ensures x.log <= z.log
    ensures var team := TeamOf(r.live.proposal.ids);
      var goes := Tries(x, y, o, r) && Reserves(x, y, r, team) && Confirms(r, team);
      && (SelectedIn(x.log, z.log, r.id) <==> goes && SetsAside(o, r))
      && (StartedIn(x.log, z.log, r.id) <==> goes && FarmOn(o))
  {
    hide Tries, Reserves, Confirms, TeamHolds, UnsentGone, TeamOf;
    var n := |y.log|;
    if |z.log| > n {
      assert z.log[n].Started? || z.log[n].Selected?;
      assert z.log[n].task == r.id;
    }
  }
}
