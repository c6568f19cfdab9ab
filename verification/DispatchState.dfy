/** The dispatcher on values: what one scan of the task list and one poll of the submitted starts do. */
module DispatchState {
  import opened DispatchTeams
  import opened Options
  import opened Reservations

  const MAX_IN_FLIGHT: nat := 3
  const MAX_STARTS_PER_SCAN: nat := 3
  const NEARBY_SETTLE_MS := 1000
  const BATCH_SETTLE_MS := 1500
  const SELECTION_LIFE_MS := 20000

  datatype Mode = Idle | Armed | Route | Batch

  datatype Kind = SeedKind | FruitKind | GiftKind

  // ---------- the state between scans ----------

  /** A team chosen for a nearby or route task, waiting for a later scan. */
  datatype Selection = Selection(team: seq<string>, since: int, epoch: int)

  /** The one team chosen in batch mode; an empty id stands for none. */
  datatype BatchSelection = BatchSelection(id: string, started: int, team: seq<string>)

  const NO_BATCH := BatchSelection("", 0, [])

  /** A submitted start: whether its managed task is still polled, and whether its result was recorded. */
  datatype Flight = Flight(watched: bool, recorded: bool)

  datatype State = State(holds: Holds, selections: map<string, Selection>, armed: map<string, Flight>,
                         batch: BatchSelection, lock: string, lockSince: int, watch: Option<string>)

  const EMPTY := State(map[], map[], map[], NO_BATCH, "", 0, None)

  // ---------- what a scan finds ----------

  datatype Settings = Settings(mode: Mode, filter: string, mask: set<Kind>)

  datatype Gate = Gate(ready: bool, epoch: int)

  /** The readings at the start of a scan; the monotonic clock is read for every selection. */
  datatype Opening = Opening(observed: int, settings: Settings, gate: Gate, steady: string -> int,
                             target: string, targetReady: bool)

  /** One Pikmin of the inventory, as the survey for a task reads it. */
  datatype Sighting = Sighting(id: string, status: int, restricted: bool, allowed: bool)

  /** What the game's own picker proposes. */
  datatype Proposal = Proposal(present: bool, count: int, listed: bool, rooted: bool, ids: string, idCount: int)

  /** The team that the game has selected for a task. */
  datatype TeamReading = TeamReading(readable: bool, ids: string, count: int)

  /** The readings made again just before a nearby start. */
  datatype Recheck = Recheck(steady: int, settings: Settings, gate: Gate, distance: real)

  /** The readings made just after a team is selected. */
  datatype After = After(canStart: bool, power: Option<bool>, duration: Option<int>, team: TeamReading,
                         steady: int, epoch: int)

  /** What the managed calls answer about an unfinished expedition. */
  datatype Live = Live(data: bool, survey: seq<Sighting>, surveyed: bool, designated: string,
                       proposal: Proposal, settable: bool, startable: bool, canStart: bool,
                       power: Option<bool>, duration: Option<int>, distance: real, team: TeamReading,
                       recheck: Recheck, after: After, sentAt: int, tracked: bool)

  /** One entry of the task list; only an expedition has a kind. */
  datatype Row = Row(task: bool, proto: bool, kind: Option<Kind>, id: string, finished: bool, live: Live)

  predicate IsRoute(o: Opening) {
    o.settings.mode == Route
  }

  predicate IsArmed(o: Opening) {
    o.settings.mode == Armed || o.settings.mode == Route
  }

  predicate IsBatch(o: Opening) {
    o.settings.mode == Batch
  }

  function FilterOf(o: Opening): string {
    if IsRoute(o) then "farm" else if IsArmed(o) then o.settings.filter else "all"
  }

  predicate IsNearby(o: Opening) {
    IsRoute(o) || (IsArmed(o) && FilterOf(o) != "farm")
  }

  function TargetOf(o: Opening): string {
    if IsBatch(o) then o.target else ""
  }

  predicate BatchReady(o: Opening) {
    IsBatch(o) && o.target != "" && o.targetReady
  }

  function KindName(kind: Kind): string {
    match kind
    case SeedKind => "seed"
    case FruitKind => "fruit"
    case GiftKind => "gift"
  }

  predicate KindAllowed(filter: string, mask: set<Kind>, kind: Kind) {
    if filter == "farm" then kind != GiftKind
    else (filter == "all" || filter == KindName(kind)) && kind in mask
  }

  predicate BatchDurationSafe(ms: int) {
    0 < ms <= 2000
  }

  predicate NearbyDurationSafe(ms: int) {
    0 < ms <= 300000
  }

  predicate DistanceAllowed(nearby: bool, batch: bool, metres: real) {
    metres >= 0.0 && (nearby || metres <= (if batch then 100.0 else 200.0))
  }

  function AllowedDistance(batch: bool, kind: Kind): real {
    if !batch then 200.0 else if kind == GiftKind then 4.0 else 100.0
  }

  // ---------- what happened ----------

  datatype Flow = BatchFlow | FarmFlow | NearbyFlow

  datatype Event =
    | ScanOpened(mode: Mode, observed: int)
    | TaskListed(task: string, finished: bool, observed: int)
    | StatusSeen(pikmin: string, status: int)
    | Selected(task: string, team: seq<string>, flow: Flow, at: int, route: bool, epoch: int)
    | Started(task: string, team: seq<string>, flow: Flow, sentAt: int, observed: int,
              at: int, route: bool, epoch: int, ready: bool)
    | ScanClosed(observed: int, live: set<string>, complete: bool)
    | Faulted(tasks: set<string>)

  /** The dispatcher in the middle of a scan. */
  datatype Progress = Progress(st: State, starts: nat, due: bool, pendingSeen: bool, seen: set<string>,
                               live: set<string>, complete: bool, log: seq<Event>)

  // ---------- the survey of the inventory ----------

  datatype Surveyed = Surveyed(holds: Holds, eligible: set<string>, whole: bool, log: seq<Event>)

  predicate Eligible(h: Holds, s: Sighting, owner: string, gift: bool, designated: string) {
    && Available(s.status) && !s.restricted && Permits(h, s.id, owner)
    && (gift ==> designated != "" && s.id == designated && s.allowed)
  }

  /** Every status that is read is shown to the table; an unreadable or repeated id ends the survey. */
  function Survey(h: Holds, sightings: seq<Sighting>, known: set<string>, owner: string, gift: bool,
                  designated: string, eligible: set<string>, log: seq<Event>): Surveyed
    decreases |sightings|
  {
    if sightings == [] then Surveyed(h, eligible, true, log)
    else
      var s := sightings[0];
      if s.id == "" || s.id in known then Surveyed(h, eligible, false, log)
      else
        var h' := Observed(h, s.id, s.status);
        Survey(h', sightings[1..], known + {s.id}, owner, gift, designated,
               if Eligible(h', s, owner, gift, designated) then eligible + {s.id} else eligible,
               log + [StatusSeen(s.id, s.status)])
  }

  predicate TeamEligible(team: seq<string>, eligible: set<string>) {
    team != [] && forall k :: 0 <= k < |team| ==> team[k] in eligible
  }

  /** The game's own selection is the expected team. */
  predicate Matches(reading: TeamReading, expected: seq<string>) {
    reading.readable && expected != [] && reading.count == |expected| && SameTeam(expected, TeamOf(reading.ids))
  }

  // ---------- starting ----------

  function AddFlight(armed: map<string, Flight>, id: string, tracked: bool): map<string, Flight> {
    if id in armed then armed else armed[id := Flight(tracked, false)]
  }

  /** Hands a farm, nearby or route task to the game. */
  function Submit(x: Progress, o: Opening, r: Row, flow: Flow, team: TeamReading, at: int, gate: Gate): Progress {
    var st := x.st.(holds := MarkSent(x.st.holds, r.id, r.live.sentAt),
                    armed := AddFlight(x.st.armed, r.id, r.live.tracked));
    x.(st := st, starts := x.starts + 1, seen := x.seen + {r.id},
       log := x.log + [Started(r.id, TeamOf(team.ids), flow, r.live.sentAt, o.observed, at, IsRoute(o),
                               gate.epoch, gate.ready)])
  }

  function Drop(st: State, id: string): State {
    st.(holds := Cancel(st.holds, id), selections := st.selections - {id})
  }

  function ClearBatch(st: State): State {
    st.(holds := Cancel(st.holds, st.batch.id), batch := NO_BATCH)
  }

  /** What a visit has established about a row before it decides. */
  datatype Seen = Seen(kind: Kind, eligible: set<string>, whole: bool, giftOut: bool, canStart: bool, requested: bool)

  predicate PowerOrNone(power: Option<bool>) {
    power.Some? ==> power.value
  }

  function DurationOf(l: Live): int {
    if l.data && l.duration.Some? then l.duration.value else 0
  }

  predicate NearbySafe(x: Progress, o: Opening, r: Row, v: Seen, s: Selection) {
    var l, again := r.live, r.live.recheck;
    && v.requested && v.canStart && l.data && l.power == Some(true)
    && TeamEligible(s.team, v.eligible) && Matches(l.team, s.team) && !v.giftOut
    && NearbyDurationSafe(DurationOf(l)) && l.startable
    && again.gate.ready && s.epoch == again.gate.epoch
    && DistanceAllowed(true, false, again.distance) && again.settings.mode == o.settings.mode
    && (IsRoute(o) || again.settings.filter == FilterOf(o))
    && KindAllowed(FilterOf(o), again.settings.mask, v.kind)
    && x.starts < MAX_STARTS_PER_SCAN && |x.st.armed| < MAX_IN_FLIGHT
  }

  /** A nearby selection is started or dropped once it is a second old. */
  function SettleNearby(x: Progress, o: Opening, r: Row, v: Seen): Progress
    requires r.id in x.st.selections
  {
    var s := x.st.selections[r.id];
    if r.live.recheck.steady - s.since < NEARBY_SETTLE_MS then x
    else
      var y := if NearbySafe(x, o, r, v, s)
               then Submit(x, o, r, NearbyFlow, r.live.team, r.live.recheck.steady, r.live.recheck.gate) else x;
      y.(st := Drop(y.st, r.id))
  }

  predicate BatchSafe(x: Progress, o: Opening, r: Row, v: Seen) {
    var l, team := r.live, x.st.batch.team;
    && v.requested && l.data && v.canStart && PowerOrNone(l.power)
    && v.whole && TeamEligible(team, v.eligible) && Matches(l.team, team)
    && !v.giftOut && BatchDurationSafe(DurationOf(l)) && l.startable
    && 0.0 <= l.distance <= AllowedDistance(true, v.kind)
  }

  function StartBatch(x: Progress, o: Opening, r: Row): Progress {
    var st := x.st.(holds := MarkSent(x.st.holds, r.id, r.live.sentAt), lock := r.id, lockSince := o.observed,
                    watch := if r.live.tracked then Some(r.id) else x.st.watch);
    x.(st := st, starts := x.starts + 1,
       log := x.log + [Started(r.id, TeamOf(r.live.team.ids), BatchFlow, r.live.sentAt, o.observed, o.observed,
                               false, 0, false)])
  }

  /** The batch selection is started or dropped once it is a second and a half old. */
  function SettleBatch(x: Progress, o: Opening, r: Row, v: Seen): Progress {
    if r.id != x.st.batch.id || o.observed - x.st.batch.started < BATCH_SETTLE_MS then x
    else
      var y := if BatchSafe(x, o, r, v) then StartBatch(x, o, r) else x;
      y.(st := ClearBatch(y.st))
  }

  // ---------- selecting ----------

  predicate ArmedCapacity(x: Progress, o: Opening, id: string) {
    && IsArmed(o) && !HasSent(x.st.holds, id) && |x.st.armed| < MAX_IN_FLIGHT
    && x.starts < MAX_STARTS_PER_SCAN && id !in x.st.armed
    && (IsNearby(o) ==> o.gate.ready && |x.st.armed| + |x.st.selections| < MAX_IN_FLIGHT)
  }

  predicate BatchCapacity(x: Progress, o: Opening) {
    IsBatch(o) && x.st.lock == ""
  }

  predicate Selectable(x: Progress, o: Opening, r: Row, v: Seen) {
    var p := r.live.proposal;
    && (ArmedCapacity(x, o, r.id) || BatchCapacity(x, o)) && v.requested && r.live.data
    && p.present && v.whole && !v.giftOut && p.count > 0 && r.live.settable
    && DistanceAllowed(IsNearby(o), IsBatch(o), r.live.distance)
    && (IsBatch(o) ==> r.live.distance <= AllowedDistance(true, v.kind))
  }

  function SelectBatch(x: Progress, o: Opening, r: Row, team: seq<string>): Progress {
    x.(st := x.st.(batch := BatchSelection(r.id, o.observed, team)),
       log := x.log + [Selected(r.id, team, BatchFlow, o.observed, false, 0)])
  }

  function SelectNearby(x: Progress, o: Opening, r: Row, team: seq<string>): Progress {
    var a := r.live.after;
    x.(st := x.st.(selections := x.st.selections[r.id := Selection(team, a.steady, a.epoch)]),
       log := x.log + [Selected(r.id, team, NearbyFlow, a.steady, IsRoute(o), a.epoch)])
  }

  function Choose(x: Progress, o: Opening, r: Row, team: seq<string>): Progress {
    var a := r.live.after;
    if !(a.canStart && PowerOrNone(a.power) && r.live.startable && Matches(a.team, team)) then x
    else if IsBatch(o) then SelectBatch(x, o, r, team)
    else if IsNearby(o) then
      if a.duration.Some? && NearbyDurationSafe(a.duration.value) && a.power.Some? then SelectNearby(x, o, r, team)
      else x
    else Submit(x, o, r, FarmFlow, a.team, o.observed, Gate(false, 0))
  }

  predicate Pending(st: State, o: Opening, id: string) {
    (IsBatch(o) && st.batch.id == id) || id in st.selections
  }

  function Reserved(x: Progress, id: string, team: seq<string>): Progress {
    x.(st := x.st.(holds := Reserve(x.st.holds, id, team)))
  }

  function Released(x: Progress, id: string): Progress {
    x.(st := x.st.(holds := Cancel(x.st.holds, id)))
  }

  /** Reserves the proposed team and sets it aside, or starts it at once, or lets it go. */
  function Select(x: Progress, o: Opening, r: Row, v: Seen): Progress {
    var p := r.live.proposal;
    var team := TeamOf(p.ids);
    if !(p.listed && p.rooted && p.idCount == p.count && TeamEligible(team, v.eligible) && CanReserve(x.st.holds, r.id, team))
    then x
    else
      var y := Choose(Reserved(x, r.id, team), o, r, team);
      if Pending(y.st, o, r.id) then y else Released(y, r.id)
  }

  // ---------- one row ----------

  function Assess(o: Opening, r: Row, kind: Kind, s: Surveyed): Seen {
    var l := r.live;
    var whole := s.whole && l.surveyed;
    var p := l.proposal;
    var identity := p.present && p.listed && l.designated != "" && p.idCount == 1 && p.ids == l.designated;
    var giftOut := kind == GiftKind && !(identity && whole && l.designated in s.eligible);
    Seen(kind, s.eligible, whole, giftOut, l.data && l.canStart && !giftOut,
         (IsArmed(o) && KindAllowed(FilterOf(o), o.settings.mask, kind)) || (BatchReady(o) && r.id == o.target))
  }

  function Decide(x: Progress, o: Opening, r: Row, v: Seen): Progress {
    if IsNearby(o) && r.id in x.st.selections then SettleNearby(x, o, r, v)
    else if IsBatch(o) && x.st.batch.id != "" then SettleBatch(x, o, r, v)
    else if Selectable(x, o, r, v) then Select(x, o, r, v)
    else x
  }

  function SurveyOf(x: Progress, r: Row, kind: Kind): Surveyed {
    Survey(x.st.holds, r.live.survey, {}, r.id, kind == GiftKind, r.live.designated, {}, x.log)
  }

  function Consider(x: Progress, o: Opening, r: Row, kind: Kind): Progress {
    var s := SurveyOf(x, r, kind);
    var y := x.(st := x.st.(holds := s.holds), log := s.log);
    Decide(y, o, r, Assess(o, r, kind, s))
  }

  /** A finished task settles its confirmation lock and its armed start. */
  function Settle(x: Progress, id: string): Progress {
    var st := if x.due && id == x.st.lock then x.st.(lock := "", lockSince := 0) else x.st;
    x.(st := st.(armed := st.armed - {id}))
  }

  predicate Tracked(r: Row) {
    r.task && r.proto && r.kind.Some?
  }

  function Note(x: Progress, o: Opening, r: Row): Progress {
    x.(live := if r.id != "" then x.live + {r.id} else x.live,
       complete := x.complete && r.id != "",
       pendingSeen := x.pendingSeen || (x.due && r.id == x.st.lock),
       seen := if r.id in x.st.armed then x.seen + {r.id} else x.seen,
       log := x.log + [TaskListed(r.id, r.finished, o.observed)])
  }

  function Visit(x: Progress, o: Opening, r: Row): Progress {
    if !Tracked(r) then x.(complete := x.complete && r.task && r.proto)
    else
      var y := Note(x, o, r);
      if r.finished then Settle(y, r.id) else Consider(y, o, r, r.kind.value)
  }

  function VisitAll(x: Progress, o: Opening, rows: seq<Row>): Progress {
    if rows == [] then x else Visit(VisitAll(x, o, rows[..|rows| - 1]), o, rows[|rows| - 1])
  }

  // ---------- one scan ----------

  predicate Stale(id: string, s: Selection, o: Opening) {
    !IsNearby(o) || !o.gate.ready || s.epoch != o.gate.epoch || o.steady(id) - s.since > SELECTION_LIFE_MS
  }

  function CancelAll(h: Holds, owners: set<string>): Holds {
    map id | id in h && !(h[id].owner in owners && !h[id].sent) :: h[id]
  }

  function StaleTasks(st: State, o: Opening): set<string> {
    set id | id in st.selections && Stale(id, st.selections[id], o)
  }

  function DropAll(st: State, owners: set<string>): State {
    st.(holds := CancelAll(st.holds, owners), selections := st.selections - owners)
  }

  function Unlock(st: State, o: Opening): State {
    var st1 := if !IsArmed(o) && !IsBatch(o) && st.lock != "" then st.(lock := "", lockSince := 0) else st;
    if !IsArmed(o) then st1.(armed := map[]) else st1
  }

  function ForgetBatch(st: State, o: Opening): State {
    if !IsBatch(o) || st.batch.id != TargetOf(o) then ClearBatch(st) else st
  }

  function Open(st: State, log: seq<Event>, o: Opening): Progress {
    var st1 := ForgetBatch(Unlock(DropAll(st, StaleTasks(st, o)), o), o);
    Progress(st1, 0, st1.lock != "" && st1.lockSince < o.observed, false, {}, {}, true,
             log + [ScanOpened(o.settings.mode, o.observed)])
  }

  /** A due lock whose task was not listed is settled, and so is every armed start that was not seen. */
  function Absent(x: Progress): State {
    var st := if x.due && x.st.lock != "" && !x.pendingSeen then x.st.(lock := "", lockSince := 0) else x.st;
    st.(armed := map id | id in st.armed && id in x.seen :: st.armed[id])
  }

  function Close(x: Progress, o: Opening): (State, seq<Event>) {
    var st := Absent(x);
    (if !x.complete then st
     else DropAll(st.(holds := Reconcile(st.holds, x.live, o.observed)), st.selections.Keys - x.live),
     x.log + [ScanClosed(o.observed, x.live, x.complete)])
  }

  // ---------- polls ----------

  datatype Answer = Running(late: bool) | Done(faulted: bool)

  function PollBatch(st: State, answer: Answer): (State, set<string>) {
    match st.watch
    case None => (st, {})
    case Some(task) =>
      if answer.Running? then (if answer.late then st.(watch := None) else st, {})
      else
        var st1 := if answer.faulted && st.lock == task then st.(lock := "", lockSince := 0) else st;
        (st1.(watch := None), if answer.faulted then {task} else {})
  }

  function AnswerTo(answers: map<string, Answer>, id: string): Answer {
    if id in answers then answers[id] else Running(false)
  }

  predicate Fault(f: Flight, answer: Answer) {
    f.watched && !f.recorded && answer == Done(true)
  }

  predicate Fails(st: State, answers: map<string, Answer>, id: string)
    requires id in st.armed
  {
    Fault(st.armed[id], AnswerTo(answers, id))
  }

  function Polled(f: Flight, answer: Answer): Flight {
    if !f.watched || f.recorded then f
    else if answer.Running? then (if answer.late then f.(watched := false) else f)
    else f.(recorded := true)
  }

  function PollArmed(st: State, answers: map<string, Answer>): (State, set<string>) {
    (st.(armed := map id | id in st.armed && !Fails(st, answers, id) :: Polled(st.armed[id], AnswerTo(answers, id))),
     set id | id in st.armed && Fails(st, answers, id))
  }

  // ---------- runs ----------

  datatype Step =
    | ScanStep(opening: Opening, rows: seq<Row>)
    | PollBatchStep(answer: Answer)
    | PollArmedStep(answers: map<string, Answer>)

  datatype Engine = Engine(st: State, log: seq<Event>)

  function Next(e: Engine, step: Step): Engine {
    match step
    case ScanStep(o, rows) =>
      var r := Close(VisitAll(Open(e.st, e.log, o), o, rows), o);
      Engine(r.0, r.1)
    case PollBatchStep(answer) =>
      var r := PollBatch(e.st, answer);
      Engine(r.0, e.log + [Faulted(r.1)])
    case PollArmedStep(answers) =>
      var r := PollArmed(e.st, answers);
      Engine(r.0, e.log + [Faulted(r.1)])
  }

  function Run(steps: seq<Step>): Engine {
    if steps == [] then Engine(EMPTY, []) else Next(Run(steps[..|steps| - 1]), steps[|steps| - 1])
  }
}
