/** Batch is serial over whole runs, and no scan starts more than three tasks. */
module DispatchBatch {
  import opened DispatchCoupling
  import opened DispatchState
  import opened DispatchTeams
  import opened Options
  import opened Reservations

  // ---------- what releases a batch start ----------

  predicate BatchStart(ev: Event) {
    ev.Started? && ev.flow == BatchFlow
  }

  /** The task is listed as finished or left out of a later list, its RPC faulted, or dispatching was turned off. */
  predicate Unlocks(ev: Event, task: string, since: int) {
    || (ev.TaskListed? && ev.task == task && ev.finished && ev.observed > since)
    || (ev.ScanClosed? && ev.observed > since && task !in ev.live)
    || (ev.Faulted? && task in ev.tasks)
    || (ev.ScanOpened? && ev.mode == Mode.Idle)
  }

  ghost predicate Unlocked(log: seq<Event>, i: int, n: int)
    requires 0 <= i < |log| && log[i].Started? && n <= |log|
  {
    exists k :: i < k < n && Unlocks(log[k], log[i].task, log[i].observed)
  }

  /** Every batch start is released, or it is the one that the lock names; and each was released before the next. */
  ghost predicate Serial(lock: string, since: int, log: seq<Event>) {
    && (forall i :: 0 <= i < |log| && BatchStart(log[i]) ==>
          Unlocked(log, i, |log|) || (lock != "" && lock == log[i].task && since == log[i].observed))
    && OneByOne(log)
  }

  ghost predicate OneByOne(log: seq<Event>) {
    forall i, j :: 0 <= i < j < |log| && BatchStart(log[i]) && BatchStart(log[j]) ==> Unlocked(log, i, j)
  }

  lemma UnlockedGrows(log: seq<Event>, ev: Event, i: int, n: int)
    requires 0 <= i < |log| && log[i].Started? && n <= |log| && Unlocked(log, i, n)
    ensures Unlocked(log + [ev], i, n) && Unlocked(log + [ev], i, |log| + 1)
  {
    var k :| i < k < n && Unlocks(log[k], log[i].task, log[i].observed);
    assert (log + [ev])[k] == log[k];
  }

  lemma OneByOneGrows(log: seq<Event>, ev: Event)
    requires OneByOne(log)
    requires BatchStart(ev) ==> forall i :: 0 <= i < |log| && BatchStart(log[i]) ==> Unlocked(log, i, |log|)
    ensures OneByOne(log + [ev])
  {
    hide Unlocked;
    var longer := log + [ev];
    forall i, j | 0 <= i < j < |longer| && BatchStart(longer[i]) && BatchStart(longer[j]) ensures Unlocked(longer, i, j) {
      if j < |log| {
        assert Unlocked(log, i, j);
        UnlockedGrows(log, ev, i, j);
      } else {
        UnlockedGrows(log, ev, i, |log|);
      }
    }
  }

  lemma SerialGrows(lock: string, since: int, log: seq<Event>, ev: Event)
    requires Serial(lock, since, log) && !BatchStart(ev)
    ensures Serial(lock, since, log + [ev])
  {
    hide Unlocked, OneByOne;
    OneByOneGrows(log, ev);
    var longer := log + [ev];
    forall i | 0 <= i < |longer| && BatchStart(longer[i])
      ensures Unlocked(longer, i, |longer|) || (lock != "" && lock == longer[i].task && since == longer[i].observed)
    {
      assert longer[i] == log[i];
      if Unlocked(log, i, |log|) { UnlockedGrows(log, ev, i, |log|); }
    }
  }

  /** The last event releases the lock. */
  lemma LastUnlocks(lock: string, since: int, log: seq<Event>)
    requires Serial(lock, since, log) && log != [] && !log[|log| - 1].Started?
    requires lock != "" ==> Unlocks(log[|log| - 1], lock, since)
    ensures Serial("", 0, log)
  {
    hide OneByOne;
    forall i | 0 <= i < |log| && BatchStart(log[i]) ensures Unlocked(log, i, |log|) {
      if lock != "" && lock == log[i].task && since == log[i].observed {
        assert Unlocks(log[|log| - 1], log[i].task, log[i].observed);
      }
    }
  }

  lemma StartSerial(since: int, log: seq<Event>, ev: Event)
    requires Serial("", since, log) && BatchStart(ev) && ev.task != ""
    ensures Serial(ev.task, ev.observed, log + [ev])
  {
    hide Unlocked, OneByOne;
    OneByOneGrows(log, ev);
    var longer := log + [ev];
    forall i | 0 <= i < |log| && BatchStart(longer[i]) ensures Unlocked(longer, i, |longer|) {
      assert longer[i] == log[i];
      UnlockedGrows(log, ev, i, |log|);
    }
  }

  // ---------- one scan ----------

  /** Within a scan: a due lock is older than the list, and the counts of starts. */
  predicate Phase(x: Progress, o: Opening) {
    && x.starts <= MAX_STARTS_PER_SCAN
    && (x.due ==> (x.st.lock != "" ==> x.st.lockSince < o.observed)
                  && (x.st.batch.id == "" || x.st.batch.started == o.observed))
    && (IsBatch(o) && x.starts > 0 ==> x.starts == 1 && x.st.lock != "" && !x.due)
    && (x.due && x.st.lock != "" && x.st.lock in x.live ==> x.pendingSeen)
  }

  ghost predicate SerialAt(x: Progress, o: Opening) {
    Phase(x, o) && Serial(x.st.lock, x.st.lockSince, x.log)
  }

  /** Everything but holds, selections and armed starts is the same. */
  predicate SameLock(x: Progress, y: Progress) {
    && y.st.lock == x.st.lock && y.st.lockSince == x.st.lockSince && y.st.batch == x.st.batch
    && y.due == x.due && y.live == x.live && y.pendingSeen == x.pendingSeen
  }

  lemma SubmitSerial(x: Progress, o: Opening, r: Row, flow: Flow, reading: TeamReading, at: int, g: Gate)
    requires SerialAt(x, o) && flow != BatchFlow && !IsBatch(o) && x.starts < MAX_STARTS_PER_SCAN
    ensures SerialAt(Submit(x, o, r, flow, reading, at, g), o)
  {
    hide Serial, MarkSent, AddFlight, TeamOf;
    var y := Submit(x, o, r, flow, reading, at, g);
    SerialGrows(x.st.lock, x.st.lockSince, x.log, y.log[|x.log|]);
  }

  lemma SettleNearbySerial(x: Progress, o: Opening, r: Row, v: Seen)
    requires SerialAt(x, o) && IsNearby(o) && r.id in x.st.selections
    ensures SerialAt(SettleNearby(x, o, r, v), o)
  {
    hide Serial, Cancel, Submit, Matches, TeamEligible;
    if NearbySafe(x, o, r, v, x.st.selections[r.id]) {
      SubmitSerial(x, o, r, NearbyFlow, r.live.team, r.live.recheck.steady, r.live.recheck.gate);
    }
  }

  lemma StartBatchSerial(x: Progress, o: Opening, r: Row)
    requires SerialAt(x, o) && IsBatch(o) && r.id != "" && x.st.lock == "" && !x.due
    ensures SerialAt(StartBatch(x, o, r), o)
  {
    hide Serial, MarkSent, TeamOf;
    StartSerial(x.st.lockSince, x.log, StartBatch(x, o, r).log[|x.log|]);
  }

  lemma SettleBatchSerial(x: Progress, o: Opening, r: Row, v: Seen)
    requires SerialAt(x, o) && Coupled(x.st) && IsBatch(o) && x.st.batch.id != ""
    ensures SerialAt(SettleBatch(x, o, r, v), o)
  {
    hide Serial, Cancel, StartBatch, BatchSafe, OwnTeam, Homes, Owners, Sized;
    if r.id == x.st.batch.id && o.observed - x.st.batch.started >= BATCH_SETTLE_MS {
      assert !x.due && x.st.lock == "";
      StartBatchSerial(x, o, r);
    }
  }

  lemma ChooseSerial(x: Progress, o: Opening, r: Row, team: seq<string>)
    requires SerialAt(x, o)
    requires if IsBatch(o) then x.st.lock == "" && x.st.batch.id == "" else x.starts < MAX_STARTS_PER_SCAN
    ensures SerialAt(Choose(x, o, r, team), o)
  {
    hide Serial, Submit, Matches;
    var a := r.live.after;
    SerialGrows(x.st.lock, x.st.lockSince, x.log, Selected(r.id, team, BatchFlow, o.observed, false, 0));
    SerialGrows(x.st.lock, x.st.lockSince, x.log, Selected(r.id, team, NearbyFlow, a.steady, IsRoute(o), a.epoch));
    if !IsBatch(o) { SubmitSerial(x, o, r, FarmFlow, a.team, o.observed, Gate(false, 0)); }
  }

  lemma SelectSerial(x: Progress, o: Opening, r: Row, v: Seen)
    requires SerialAt(x, o) && Selectable(x, o, r, v) && (IsBatch(o) ==> x.st.batch.id == "")
    ensures SerialAt(Select(x, o, r, v), o)
  {
    hide Serial, Choose, CanReserve, Reserve, Cancel, TeamOf, Pending, TeamEligible, HasSent;
    ChooseSerial(Reserved(x, r.id, TeamOf(r.live.proposal.ids)), o, r, TeamOf(r.live.proposal.ids));
  }

  lemma DecideSerial(x: Progress, o: Opening, r: Row, v: Seen)
    requires SerialAt(x, o) && Coupled(x.st)
    ensures SerialAt(Decide(x, o, r, v), o)
  {
    hide SerialAt, Coupled, SettleNearby, SettleBatch, Selectable, Select;
    if IsNearby(o) && r.id in x.st.selections {
      SettleNearbySerial(x, o, r, v);
    } else if IsBatch(o) && x.st.batch.id != "" {
      SettleBatchSerial(x, o, r, v);
    } else if Selectable(x, o, r, v) {
      SelectSerial(x, o, r, v);
    }
  }

  lemma {:induction false} SurveySerial(h: Holds, sightings: seq<Sighting>, known: set<string>, owner: string,
                                        gift: bool, designated: string, eligible: set<string>, log: seq<Event>,
                                        lock: string, since: int)
    requires Serial(lock, since, log)
    ensures Serial(lock, since, Survey(h, sightings, known, owner, gift, designated, eligible, log).log)
    decreases |sightings|
  {
    hide Serial, Observed, Eligible;
    if sightings != [] {
      var s := sightings[0];
      if s.id != "" && s.id !in known {
        var h' := Observed(h, s.id, s.status);
        var more := if Eligible(h', s, owner, gift, designated) then eligible + {s.id} else eligible;
        SerialGrows(lock, since, log, StatusSeen(s.id, s.status));
        SurveySerial(h', sightings[1..], known + {s.id}, owner, gift, designated, more,
                     log + [StatusSeen(s.id, s.status)], lock, since);
      }
    }
  }

  lemma ConsiderSerial(x: Progress, o: Opening, r: Row, kind: Kind)
    requires SerialAt(x, o) && Coupled(x.st)
    ensures SerialAt(Consider(x, o, r, kind), o)
  {
    hide Serial, Coupled, Survey, Decide, Assess, SameUnsent;
    var s := SurveyOf(x, r, kind);
    SurveySerial(x.st.holds, r.live.survey, {}, r.id, kind == GiftKind, r.live.designated, {}, x.log,
                 x.st.lock, x.st.lockSince);
    SurveySameUnsent(x.st.holds, r.live.survey, {}, r.id, kind == GiftKind, r.live.designated, {}, x.log);
    SameUnsentCouples(x.st, s.holds);
    var y := x.(st := x.st.(holds := s.holds), log := s.log);
    DecideSerial(y, o, r, Assess(o, r, kind, s));
  }

  lemma SettleSerial(x: Progress, o: Opening, r: Row)
    requires SerialAt(x, o) && r.finished
    ensures SerialAt(Settle(Note(x, o, r), r.id), o)
  {
    hide Serial;
    var y := Note(x, o, r);
    SerialGrows(x.st.lock, x.st.lockSince, x.log, TaskListed(r.id, true, o.observed));
    if x.due && r.id == x.st.lock {
      LastUnlocks(x.st.lock, x.st.lockSince, y.log);
    }
  }

  lemma NoteSerial(x: Progress, o: Opening, r: Row)
    requires SerialAt(x, o)
    ensures SerialAt(Note(x, o, r), o)
  {
    hide Serial;
    SerialGrows(x.st.lock, x.st.lockSince, x.log, TaskListed(r.id, r.finished, o.observed));
  }

  lemma VisitSerial(x: Progress, o: Opening, r: Row)
    requires SerialAt(x, o) && Coupled(x.st)
    ensures SerialAt(Visit(x, o, r), o)
  {
    hide Serial, Coupled, Consider, Settle, Note;
    if Tracked(r) {
      if r.finished {
        SettleSerial(x, o, r);
      } else {
        NoteSerial(x, o, r);
        assert Note(x, o, r).st == x.st by { NoteKeepsState(x, o, r); }
        ConsiderSerial(Note(x, o, r), o, r, r.kind.value);
      }
    }
  }

  lemma NoteKeepsState(x: Progress, o: Opening, r: Row)
    ensures Note(x, o, r).st == x.st
  {
  }

  lemma {:induction false} VisitAllSerial(x: Progress, o: Opening, rows: seq<Row>)
    requires SerialAt(x, o) && Good(x, o)
    ensures SerialAt(VisitAll(x, o, rows), o)
  {
    hide SerialAt, Coupled, InMode, Visit;
    if rows != [] {
      VisitAllSerial(x, o, rows[..|rows| - 1]);
      VisitAllGood(x, o, rows[..|rows| - 1]);
      VisitSerial(VisitAll(x, o, rows[..|rows| - 1]), o, rows[|rows| - 1]);
    }
  }

  lemma OpenSerial(st: State, log: seq<Event>, o: Opening)
    requires Serial(st.lock, st.lockSince, log) && Coupled(st)
    ensures SerialAt(Open(st, log, o), o)
  {
    hide Serial, CancelAll, Cancel, StaleTasks, OwnTeam, Homes, Owners, Sized;
    SerialGrows(st.lock, st.lockSince, log, ScanOpened(o.settings.mode, o.observed));
    if o.settings.mode == Mode.Idle {
      LastUnlocks(st.lock, st.lockSince, log + [ScanOpened(o.settings.mode, o.observed)]);
    }
  }

  lemma CloseSerial(x: Progress, o: Opening)
    requires SerialAt(x, o)
    ensures Serial(Close(x, o).0.lock, Close(x, o).0.lockSince, Close(x, o).1)
  {
    hide Serial, CancelAll, Reconcile;
    var log := x.log + [ScanClosed(o.observed, x.live, x.complete)];
    SerialGrows(x.st.lock, x.st.lockSince, x.log, ScanClosed(o.observed, x.live, x.complete));
    if x.due && x.st.lock != "" && !x.pendingSeen {
      LastUnlocks(x.st.lock, x.st.lockSince, log);
    }
  }

  lemma PollBatchSerial(e: Engine, answer: Answer)
    requires Serial(e.st.lock, e.st.lockSince, e.log)
    ensures var n := Next(e, PollBatchStep(answer)); Serial(n.st.lock, n.st.lockSince, n.log)
  {
    hide Serial;
    var n := Next(e, PollBatchStep(answer));
    SerialGrows(e.st.lock, e.st.lockSince, e.log, n.log[|e.log|]);
    if n.st.lock != e.st.lock || n.st.lockSince != e.st.lockSince {
      LastUnlocks(e.st.lock, e.st.lockSince, n.log);
    }
  }

  lemma NextSerial(e: Engine, step: Step)
    requires Serial(e.st.lock, e.st.lockSince, e.log) && Coupled(e.st)
    ensures var n := Next(e, step); Serial(n.st.lock, n.st.lockSince, n.log)
  {
    hide Serial, Coupled, VisitAll, Open, Close, Fails, Polled;
    match step {
      case ScanStep(o, rows) =>
        var x := Open(e.st, e.log, o);
        OpenSerial(e.st, e.log, o);
        OpenCouples(e.st, e.log, o);
        VisitAllSerial(x, o, rows);
        CloseSerial(VisitAll(x, o, rows), o);
      case PollBatchStep(answer) => PollBatchSerial(e, answer);
      case PollArmedStep(answers) =>
        SerialGrows(e.st.lock, e.st.lockSince, e.log, Faulted(PollArmed(e.st, answers).1));
    }
  }

  lemma EmptySerial()
    ensures Serial("", 0, [])
  {
  }

  lemma {:induction false} AlwaysSerial(steps: seq<Step>)
    ensures Serial(Run(steps).st.lock, Run(steps).st.lockSince, Run(steps).log)
  {
    hide Serial, Next;
    if steps == [] {
      EmptySerial();
    } else {
      AlwaysSerial(steps[..|steps| - 1]);
      AlwaysCoupled(steps[..|steps| - 1]);
      NextSerial(Run(steps[..|steps| - 1]), steps[|steps| - 1]);
    }
  }

  /** Between two batch starts the first one's task is listed as finished or is left out of a later list, or its RPC
      faulted, or dispatching was turned off. */
  lemma BatchIsSerial(steps: seq<Step>, i: int, j: int)
    requires 0 <= i < j < |Run(steps).log| && BatchStart(Run(steps).log[i]) && BatchStart(Run(steps).log[j])
    ensures Unlocked(Run(steps).log, i, j)
  {
    hide Run, Unlocked;
    AlwaysSerial(steps);
  }

  /** A batch selection and a batch confirmation lock are never held together. */
  lemma SelectionExcludesLock(steps: seq<Step>)
    ensures Run(steps).st.batch.id == "" || Run(steps).st.lock == ""
  {
    hide Run, OwnTeam, Homes, Owners, Sized;
    AlwaysCoupled(steps);
  }

  // ---------- how many starts ----------

  function Starts(log: seq<Event>): nat {
    if log == [] then 0 else Starts(log[..|log| - 1]) + if log[|log| - 1].Started? then 1 else 0
  }

  lemma StartsGrow(log: seq<Event>, ev: Event)
    ensures Starts(log + [ev]) == Starts(log) + if ev.Started? then 1 else 0
  {
    assert (log + [ev])[..|log|] == log;
  }

  /** The log has one start for each that the scan counted. */
  predicate Counts(x: Progress, base: nat) {
    Starts(x.log) == base + x.starts
  }

  lemma {:induction false} SurveyCounts(h: Holds, sightings: seq<Sighting>, known: set<string>, owner: string,
                                        gift: bool, designated: string, eligible: set<string>, log: seq<Event>)
    ensures Starts(Survey(h, sightings, known, owner, gift, designated, eligible, log).log) == Starts(log)
    decreases |sightings|
  {
    hide Starts, Observed, Eligible;
    if sightings != [] {
      var s := sightings[0];
      if s.id != "" && s.id !in known {
        var h' := Observed(h, s.id, s.status);
        var more := if Eligible(h', s, owner, gift, designated) then eligible + {s.id} else eligible;
        StartsGrow(log, StatusSeen(s.id, s.status));
        SurveyCounts(h', sightings[1..], known + {s.id}, owner, gift, designated, more,
                     log + [StatusSeen(s.id, s.status)]);
      }
    }
  }

  lemma SubmitCounts(x: Progress, o: Opening, r: Row, flow: Flow, reading: TeamReading, at: int, g: Gate, base: nat)
    requires Counts(x, base)
    ensures Counts(Submit(x, o, r, flow, reading, at, g), base)
  {
    hide Starts, MarkSent, AddFlight, TeamOf;
    StartsGrow(x.log, Submit(x, o, r, flow, reading, at, g).log[|x.log|]);
  }

  lemma ChooseCounts(x: Progress, o: Opening, r: Row, team: seq<string>, base: nat)
    requires Counts(x, base)
    ensures Counts(Choose(x, o, r, team), base)
  {
    hide Starts, Submit, Matches;
    var a := r.live.after;
    SubmitCounts(x, o, r, FarmFlow, a.team, o.observed, Gate(false, 0), base);
    StartsGrow(x.log, Selected(r.id, team, BatchFlow, o.observed, false, 0));
    StartsGrow(x.log, Selected(r.id, team, NearbyFlow, a.steady, IsRoute(o), a.epoch));
  }

  lemma DecideCounts(x: Progress, o: Opening, r: Row, v: Seen, base: nat)
    requires Counts(x, base)
    ensures Counts(Decide(x, o, r, v), base)
  {
    hide Starts, Submit, Choose, NearbySafe, BatchSafe, Selectable, Cancel, Reserve, CanReserve, TeamOf, TeamEligible,
         Pending, MarkSent;
    SubmitCounts(x, o, r, NearbyFlow, r.live.team, r.live.recheck.steady, r.live.recheck.gate, base);
    StartsGrow(x.log, StartBatch(x, o, r).log[|x.log|]);
    ChooseCounts(Reserved(x, r.id, TeamOf(r.live.proposal.ids)), o, r, TeamOf(r.live.proposal.ids), base);
  }

  lemma VisitCounts(x: Progress, o: Opening, r: Row, base: nat)
    requires Counts(x, base)
    ensures Counts(Visit(x, o, r), base)
  {
    hide Starts, Survey, Decide, Assess;
    StartsGrow(x.log, TaskListed(r.id, r.finished, o.observed));
    if Tracked(r) && !r.finished {
      var kind := r.kind.value;
      var y := Note(x, o, r);
      var s := SurveyOf(y, r, kind);
      SurveyCounts(y.st.holds, r.live.survey, {}, r.id, kind == GiftKind, r.live.designated, {}, y.log);
      var z := y.(st := y.st.(holds := s.holds), log := s.log);
      DecideCounts(z, o, r, Assess(o, r, kind, s), base);
    }
  }

  lemma {:induction false} VisitAllCounts(x: Progress, o: Opening, rows: seq<Row>, base: nat)
    requires Counts(x, base)
    ensures Counts(VisitAll(x, o, rows), base)
  {
    hide Counts, Visit;
    if rows != [] {
      VisitAllCounts(x, o, rows[..|rows| - 1], base);
      VisitCounts(VisitAll(x, o, rows[..|rows| - 1]), o, rows[|rows| - 1], base);
    }
  }

  lemma ScanCounts(e: Engine, o: Opening, rows: seq<Row>)
    requires Serial(e.st.lock, e.st.lockSince, e.log) && Coupled(e.st)
    ensures Starts(Next(e, ScanStep(o, rows)).log) <= Starts(e.log) + MAX_STARTS_PER_SCAN
    ensures IsBatch(o) ==> Starts(Next(e, ScanStep(o, rows)).log) <= Starts(e.log) + 1
  {
    hide Serial, Coupled, VisitAll, Starts;
    var x := Open(e.st, e.log, o);
    StartsGrow(e.log, ScanOpened(o.settings.mode, o.observed));
    OpenSerial(e.st, e.log, o);
    OpenCouples(e.st, e.log, o);
    VisitAllSerial(x, o, rows);
    VisitAllCounts(x, o, rows, Starts(e.log));
    var y := VisitAll(x, o, rows);
    StartsGrow(y.log, ScanClosed(o.observed, y.live, y.complete));
  }

  /** No scan of any task list starts more than three tasks, and none more than one in batch mode. */
  lemma FewStartsPerScan(steps: seq<Step>, o: Opening, rows: seq<Row>)
    ensures Starts(Run(steps + [ScanStep(o, rows)]).log) <= Starts(Run(steps).log) + MAX_STARTS_PER_SCAN
    ensures IsBatch(o) ==> Starts(Run(steps + [ScanStep(o, rows)]).log) <= Starts(Run(steps).log) + 1
  {
    hide Serial, Coupled, Next, Starts;
    AlwaysSerial(steps);
    AlwaysCoupled(steps);
    ScanCounts(Run(steps), o, rows);
    assert (steps + [ScanStep(o, rows)])[..|steps|] == steps;
  }
}
