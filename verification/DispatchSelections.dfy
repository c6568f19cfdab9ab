/** What is started later was selected before: the same team, long enough ago, within one epoch of the location gate. */
module DispatchSelections {
  import opened DispatchCoupling
  import opened DispatchState
  import opened DispatchTeams
  import opened Options
  import opened Reservations

  // ---------- a start and its selection ----------

  predicate IsSelection(ev: Event, task: string, team: seq<string>, flow: Flow, at: int, epoch: int) {
    ev.Selected? && ev.task == task && ev.team == team && ev.flow == flow && ev.at == at && ev.epoch == epoch
  }

  predicate StartOf(ev: Event, task: string) {
    ev.Started? && ev.task == task
  }

  /** The task was selected at i, and not started from there to n. */
  predicate SelectedAt(log: seq<Event>, i: int, n: int, task: string, team: seq<string>, flow: Flow, at: int, epoch: int) {
    && 0 <= i < n <= |log| && IsSelection(log[i], task, team, flow, at, epoch)
    && forall k :: i < k < n ==> !StartOf(log[k], task)
  }

  ghost predicate WasSelected(log: seq<Event>, n: int, task: string, team: seq<string>, flow: Flow, at: int, epoch: int) {
    exists i :: SelectedAt(log, i, n, task, team, flow, at, epoch)
  }

  function SettleTime(flow: Flow): int {
    if flow == BatchFlow then BATCH_SETTLE_MS else NEARBY_SETTLE_MS
  }

  predicate Follows(log: seq<Event>, i: int, j: int)
    requires 0 <= j < |log| && log[j].Started?
  {
    && 0 <= i < j && log[i].Selected? && log[i].task == log[j].task && log[i].flow == log[j].flow
    && SameTeam(log[i].team, log[j].team)
    && log[j].at - log[i].at >= SettleTime(log[j].flow)
    && log[i].epoch == log[j].epoch
    && forall k :: i < k < j ==> !StartOf(log[k], log[j].task)
  }

  /** The start at j carries out a selection that was made long enough before, and that no other start used. */
  ghost predicate Backed(log: seq<Event>, j: int)
    requires 0 <= j < |log| && log[j].Started?
  {
    exists i :: Follows(log, i, j)
  }

  predicate Later(ev: Event) {
    ev.Started? && ev.flow != FarmFlow
  }

  predicate GateOpen(ev: Event)
    requires ev.Started?
  {
    ev.flow == NearbyFlow ==> ev.ready
  }

  ghost predicate AllBacked(log: seq<Event>) {
    forall j :: 0 <= j < |log| && Later(log[j]) ==> Backed(log, j) && GateOpen(log[j])
  }

  ghost predicate Recorded(st: State, log: seq<Event>) {
    && (forall t :: t in st.selections ==>
          WasSelected(log, |log|, t, st.selections[t].team, NearbyFlow, st.selections[t].since, st.selections[t].epoch))
    && (st.batch.id != "" ==>
          WasSelected(log, |log|, st.batch.id, st.batch.team, BatchFlow, st.batch.started, 0))
  }

  ghost predicate Faithful(st: State, log: seq<Event>) {
    AllBacked(log) && Recorded(st, log)
  }

  // ---------- longer logs ----------

  lemma BackedGrows(log: seq<Event>, ev: Event, j: int)
    requires 0 <= j < |log| && log[j].Started? && Backed(log, j)
    ensures Backed(log + [ev], j)
  {
    hide SameTeam;
    var i :| Follows(log, i, j);
    var longer := log + [ev];
    assert longer[i] == log[i] && longer[j] == log[j];
    assert forall k :: i < k < j ==> longer[k] == log[k];
    assert Follows(longer, i, j);
  }

  lemma AllBackedGrows(log: seq<Event>, ev: Event)
    requires AllBacked(log) && (Later(ev) ==> Backed(log + [ev], |log|) && GateOpen(ev))
    ensures AllBacked(log + [ev])
  {
    hide Backed;
    var longer := log + [ev];
    forall j | 0 <= j < |longer| && Later(longer[j]) ensures Backed(longer, j) && GateOpen(longer[j]) {
      if j < |log| {
        assert longer[j] == log[j];
        BackedGrows(log, ev, j);
      }
    }
  }

  lemma SelectedGrows(log: seq<Event>, ev: Event, task: string, team: seq<string>, flow: Flow, at: int, epoch: int)
    requires WasSelected(log, |log|, task, team, flow, at, epoch) && !StartOf(ev, task)
    ensures WasSelected(log + [ev], |log| + 1, task, team, flow, at, epoch)
  {
    var i :| SelectedAt(log, i, |log|, task, team, flow, at, epoch);
    assert SelectedAt(log + [ev], i, |log| + 1, task, team, flow, at, epoch);
  }

  /** Selections stay recorded while nothing of theirs is started. */
  lemma RecordedGrows(st: State, log: seq<Event>, ev: Event)
    requires Recorded(st, log)
    requires ev.Started? ==> ev.task !in st.selections && (st.batch.id == "" || ev.task != st.batch.id)
    ensures Recorded(st, log + [ev])
  {
    hide WasSelected;
    forall t | t in st.selections
      ensures WasSelected(log + [ev], |log| + 1, t, st.selections[t].team, NearbyFlow,
                          st.selections[t].since, st.selections[t].epoch)
    {
      SelectedGrows(log, ev, t, st.selections[t].team, NearbyFlow, st.selections[t].since, st.selections[t].epoch);
    }
    if st.batch.id != "" {
      SelectedGrows(log, ev, st.batch.id, st.batch.team, BatchFlow, st.batch.started, 0);
    }
  }

  lemma QuietGrows(st: State, log: seq<Event>, ev: Event)
    requires Faithful(st, log) && !ev.Started?
    ensures Faithful(st, log + [ev])
  {
    hide AllBacked, Recorded;
    AllBackedGrows(log, ev);
    RecordedGrows(st, log, ev);
  }

  /** Fewer selections are recorded as well. */
  predicate Fewer(st: State, st': State) {
    && (forall t :: t in st'.selections ==> t in st.selections && st'.selections[t] == st.selections[t])
    && (st'.batch == st.batch || st'.batch.id == "")
  }

  lemma FewerRecorded(st: State, st': State, log: seq<Event>)
    requires Recorded(st, log) && Fewer(st, st')
    ensures Recorded(st', log)
  {
    hide WasSelected;
  }

  lemma FewerFaithful(st: State, st': State, log: seq<Event>)
    requires Faithful(st, log) && Fewer(st, st')
    ensures Faithful(st', log)
  {
    hide AllBacked, Recorded;
    FewerRecorded(st, st', log);
  }

  // ---------- starting and selecting ----------

  lemma SelectedNow(log: seq<Event>, ev: Event)
    requires ev.Selected?
    ensures WasSelected(log + [ev], |log| + 1, ev.task, ev.team, ev.flow, ev.at, ev.epoch)
  {
    assert SelectedAt(log + [ev], |log|, |log| + 1, ev.task, ev.team, ev.flow, ev.at, ev.epoch);
  }

  lemma StartBacked(log: seq<Event>, ev: Event, team: seq<string>, at: int)
    requires ev.Started? && WasSelected(log, |log|, ev.task, team, ev.flow, at, ev.epoch)
    requires SameTeam(team, ev.team) && ev.at - at >= SettleTime(ev.flow)
    ensures Backed(log + [ev], |log|)
  {
    hide SameTeam;
    var i :| SelectedAt(log, i, |log|, ev.task, team, ev.flow, at, ev.epoch);
    var longer := log + [ev];
    assert longer[i] == log[i] && longer[|log|] == ev;
    assert forall k :: i < k < |log| ==> longer[k] == log[k];
    assert Follows(longer, i, |log|);
  }

  ghost predicate FaithfulAt(x: Progress) {
    Faithful(x.st, x.log)
  }

  /** A backed start of a selected task, which is no longer selected afterwards. */
  lemma StartedFaithful(st: State, st': State, log: seq<Event>, ev: Event, team: seq<string>, at: int)
    requires Faithful(st, log) && Fewer(st, st') && ev.Started? && GateOpen(ev)
    requires WasSelected(log, |log|, ev.task, team, ev.flow, at, ev.epoch)
    requires SameTeam(team, ev.team) && ev.at - at >= SettleTime(ev.flow)
    requires ev.task !in st'.selections && (st'.batch.id == "" || ev.task != st'.batch.id)
    ensures Faithful(st', log + [ev])
  {
    hide AllBacked, Recorded, SameTeam, WasSelected, Fewer;
    StartBacked(log, ev, team, at);
    AllBackedGrows(log, ev);
    FewerRecorded(st, st', log);
    RecordedGrows(st', log, ev);
  }

  lemma SettleNearbyFaithful(x: Progress, o: Opening, r: Row, v: Seen)
    requires FaithfulAt(x) && InMode(x.st, o) && IsNearby(o) && r.id in x.st.selections
    ensures FaithfulAt(SettleNearby(x, o, r, v))
  {
    hide Faithful, MarkSent, Cancel, AddFlight, TeamOf, TeamEligible, SameTeam, WasSelected;
    var s := x.st.selections[r.id];
    var y := SettleNearby(x, o, r, v);
    if y.log == x.log {
      FewerFaithful(x.st, y.st, x.log);
    } else {
      assert WasSelected(x.log, |x.log|, r.id, s.team, NearbyFlow, s.since, s.epoch) by {
        SelectionRecorded(x.st, x.log, r.id);
      }
      StartedFaithful(x.st, y.st, x.log, y.log[|x.log|], s.team, s.since);
    }
  }

  lemma SelectionRecorded(st: State, log: seq<Event>, t: string)
    requires Faithful(st, log) && t in st.selections
    ensures WasSelected(log, |log|, t, st.selections[t].team, NearbyFlow, st.selections[t].since, st.selections[t].epoch)
  {
    hide WasSelected;
  }

  lemma BatchRecorded(st: State, log: seq<Event>)
    requires Faithful(st, log) && st.batch.id != ""
    ensures WasSelected(log, |log|, st.batch.id, st.batch.team, BatchFlow, st.batch.started, 0)
  {
    hide WasSelected;
  }

  lemma SettleBatchFaithful(x: Progress, o: Opening, r: Row, v: Seen)
    requires FaithfulAt(x) && InMode(x.st, o) && IsBatch(o) && x.st.batch.id != ""
    ensures FaithfulAt(SettleBatch(x, o, r, v))
  {
    hide Faithful, MarkSent, Cancel, TeamOf, TeamEligible, SameTeam, WasSelected;
    var b := x.st.batch;
    var y := SettleBatch(x, o, r, v);
    if y.log == x.log {
      FewerFaithful(x.st, y.st, x.log);
    } else {
      assert WasSelected(x.log, |x.log|, b.id, b.team, BatchFlow, b.started, 0) by { BatchRecorded(x.st, x.log); }
      assert x.st.selections == map[];
      StartedFaithful(x.st, y.st, x.log, y.log[|x.log|], b.team, b.started);
    }
  }

  lemma SubmitFarmFaithful(x: Progress, o: Opening, r: Row, reading: TeamReading, at: int, g: Gate)
    requires FaithfulAt(x) && r.id !in x.st.selections && x.st.batch.id == "" && r.id != ""
    ensures FaithfulAt(Submit(x, o, r, FarmFlow, reading, at, g))
  {
    hide AllBacked, Recorded, MarkSent, AddFlight, TeamOf;
    var y := Submit(x, o, r, FarmFlow, reading, at, g);
    var ev := y.log[|x.log|];
    AllBackedGrows(x.log, ev);
    RecordedGrows(x.st, x.log, ev);
    FewerRecorded(x.st, y.st, y.log);
  }

  lemma SelectBatchFaithful(x: Progress, o: Opening, r: Row, team: seq<string>)
    requires FaithfulAt(x)
    ensures FaithfulAt(SelectBatch(x, o, r, team))
  {
    hide AllBacked, WasSelected;
    var y := SelectBatch(x, o, r, team);
    var ev := y.log[|x.log|];
    AllBackedGrows(x.log, ev);
    RecordedGrows(x.st, x.log, ev);
    SelectedNow(x.log, ev);
  }

  lemma SelectNearbyFaithful(x: Progress, o: Opening, r: Row, team: seq<string>)
    requires FaithfulAt(x)
    ensures FaithfulAt(SelectNearby(x, o, r, team))
  {
    hide AllBacked, WasSelected;
    var y := SelectNearby(x, o, r, team);
    var ev := y.log[|x.log|];
    AllBackedGrows(x.log, ev);
    RecordedGrows(x.st, x.log, ev);
    SelectedNow(x.log, ev);
  }

  lemma ChooseFaithful(x: Progress, o: Opening, r: Row, team: seq<string>)
    requires FaithfulAt(x) && r.id !in x.st.selections && x.st.batch.id == "" && r.id != ""
    ensures FaithfulAt(Choose(x, o, r, team))
  {
    hide FaithfulAt, Submit, SelectBatch, SelectNearby, Matches;
    SelectBatchFaithful(x, o, r, team);
    SelectNearbyFaithful(x, o, r, team);
    SubmitFarmFaithful(x, o, r, r.live.after.team, o.observed, Gate(false, 0));
  }

  lemma SelectFaithful(x: Progress, o: Opening, r: Row, v: Seen)
    requires FaithfulAt(x) && r.id !in x.st.selections && x.st.batch.id == ""
    ensures FaithfulAt(Select(x, o, r, v))
  {
    hide Faithful, Choose, CanReserve, Reserve, Cancel, TeamOf, Pending, TeamEligible;
    var team := TeamOf(r.live.proposal.ids);
    if CanReserve(x.st.holds, r.id, team) {
      ReservePermits(x.st.holds, r.id, team);
      FewerFaithful(x.st, Reserved(x, r.id, team).st, x.log);
      ChooseFaithful(Reserved(x, r.id, team), o, r, team);
      var y := Choose(Reserved(x, r.id, team), o, r, team);
      FewerFaithful(y.st, Released(y, r.id).st, y.log);
    }
  }

  lemma DecideFaithful(x: Progress, o: Opening, r: Row, v: Seen)
    requires FaithfulAt(x) && InMode(x.st, o)
    ensures FaithfulAt(Decide(x, o, r, v))
  {
    hide FaithfulAt, SettleNearby, SettleBatch, Selectable, Select;
    if IsNearby(o) && r.id in x.st.selections {
      SettleNearbyFaithful(x, o, r, v);
    } else if IsBatch(o) && x.st.batch.id != "" {
      SettleBatchFaithful(x, o, r, v);
    } else if Selectable(x, o, r, v) {
      SelectFaithful(x, o, r, v);
    }
  }

  // ---------- one row, one scan, one run ----------

  lemma {:induction false} SurveyFaithful(st: State, h: Holds, sightings: seq<Sighting>, known: set<string>,
                                          owner: string, gift: bool, designated: string, eligible: set<string>,
                                          log: seq<Event>)
    requires Faithful(st, log)
    ensures Faithful(st, Survey(h, sightings, known, owner, gift, designated, eligible, log).log)
    decreases |sightings|
  {
    hide Faithful, Observed, Eligible;
    if sightings != [] {
      var s := sightings[0];
      if s.id != "" && s.id !in known {
        var h' := Observed(h, s.id, s.status);
        var more := if Eligible(h', s, owner, gift, designated) then eligible + {s.id} else eligible;
        QuietGrows(st, log, StatusSeen(s.id, s.status));
        SurveyFaithful(st, h', sightings[1..], known + {s.id}, owner, gift, designated, more,
                       log + [StatusSeen(s.id, s.status)]);
      }
    }
  }

  lemma ConsiderFaithful(x: Progress, o: Opening, r: Row, kind: Kind)
    requires FaithfulAt(x) && InMode(x.st, o)
    ensures FaithfulAt(Consider(x, o, r, kind))
  {
    hide Faithful, Survey, Decide, Assess;
    var s := SurveyOf(x, r, kind);
    SurveyFaithful(x.st, x.st.holds, r.live.survey, {}, r.id, kind == GiftKind, r.live.designated, {}, x.log);
    var y := x.(st := x.st.(holds := s.holds), log := s.log);
    FewerFaithful(x.st, y.st, y.log);
    DecideFaithful(y, o, r, Assess(o, r, kind, s));
  }

  lemma VisitFaithful(x: Progress, o: Opening, r: Row)
    requires FaithfulAt(x) && InMode(x.st, o)
    ensures FaithfulAt(Visit(x, o, r))
  {
    hide Faithful, Consider;
    if Tracked(r) {
      var y := Note(x, o, r);
      QuietGrows(x.st, x.log, TaskListed(r.id, r.finished, o.observed));
      FewerFaithful(y.st, Settle(y, r.id).st, y.log);
      ConsiderFaithful(y, o, r, r.kind.value);
    }
  }

  lemma {:induction false} VisitAllFaithful(x: Progress, o: Opening, rows: seq<Row>)
    requires FaithfulAt(x) && Good(x, o)
    ensures FaithfulAt(VisitAll(x, o, rows))
  {
    hide FaithfulAt, Coupled, InMode, Visit;
    if rows != [] {
      VisitAllFaithful(x, o, rows[..|rows| - 1]);
      VisitAllGood(x, o, rows[..|rows| - 1]);
      VisitFaithful(VisitAll(x, o, rows[..|rows| - 1]), o, rows[|rows| - 1]);
    }
  }

  lemma NextFaithful(e: Engine, step: Step)
    requires Faithful(e.st, e.log) && Coupled(e.st)
    ensures Faithful(Next(e, step).st, Next(e, step).log)
  {
    hide Faithful, Coupled, VisitAll, Open, Close, Fails, Polled, Fewer;
    match step {
      case ScanStep(o, rows) =>
        var x := Open(e.st, e.log, o);
        OpenFaithful(e.st, e.log, o);
        OpenCouples(e.st, e.log, o);
        VisitAllFaithful(x, o, rows);
        CloseFaithful(VisitAll(x, o, rows), o);
      case PollBatchStep(answer) =>
        var p := PollBatch(e.st, answer);
        QuietGrows(e.st, e.log, Faulted(p.1));
        assert Fewer(e.st, p.0) by { PollsFewer(e.st, answer, map[]); }
        FewerFaithful(e.st, p.0, e.log + [Faulted(p.1)]);
      case PollArmedStep(answers) =>
        var p := PollArmed(e.st, answers);
        QuietGrows(e.st, e.log, Faulted(p.1));
        assert Fewer(e.st, p.0) by { PollsFewer(e.st, Running(false), answers); }
        FewerFaithful(e.st, p.0, e.log + [Faulted(p.1)]);
    }
  }

  lemma PollsFewer(st: State, answer: Answer, answers: map<string, Answer>)
    ensures Fewer(st, PollBatch(st, answer).0) && Fewer(st, PollArmed(st, answers).0)
  {
    hide Fails, Polled;
  }

  lemma OpenFaithful(st: State, log: seq<Event>, o: Opening)
    requires Faithful(st, log)
    ensures FaithfulAt(Open(st, log, o))
  {
    hide Faithful, CancelAll, Cancel, Stale;
    QuietGrows(st, log, ScanOpened(o.settings.mode, o.observed));
    FewerFaithful(st, Open(st, log, o).st, log + [ScanOpened(o.settings.mode, o.observed)]);
  }

  lemma CloseFaithful(x: Progress, o: Opening)
    requires FaithfulAt(x)
    ensures Faithful(Close(x, o).0, Close(x, o).1)
  {
    hide Faithful, CancelAll, Reconcile;
    QuietGrows(x.st, x.log, ScanClosed(o.observed, x.live, x.complete));
    FewerFaithful(x.st, Close(x, o).0, Close(x, o).1);
  }

  lemma EmptyFaithful()
    ensures Faithful(EMPTY, [])
  {
  }

  /** Over every run, each batch, nearby or route start carries out a selection: of the same team, at least 1500 ms
      (batch) or 1000 ms (nearby, route) before, under the same epoch, and used by no other start; and the location
      gate was ready for it. */
  lemma {:induction false} StartsAreBacked(steps: seq<Step>)
    ensures Faithful(Run(steps).st, Run(steps).log)
    ensures AllBacked(Run(steps).log)
  {
    hide AllBacked, Recorded, Next;
    if steps == [] {
      assert Faithful(EMPTY, []) by { EmptyFaithful(); }
    } else {
      StartsAreBacked(steps[..|steps| - 1]);
      AlwaysCoupled(steps[..|steps| - 1]);
      NextFaithful(Run(steps[..|steps| - 1]), steps[|steps| - 1]);
    }
  }
}
