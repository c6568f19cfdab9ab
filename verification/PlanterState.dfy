/** The planter engine on values: what one tick does to the ledger file, to the process and to the server. */
module PlanterState {
  import opened LedgerText
  import opened Options

  // ---------- the inventory ----------

  datatype SeedRow = SeedRow(id: string, steps: int, required: int, planted: int,
                             starred: bool, special: bool, point: bool, nativeReady: bool)

  datatype Seed = Seed(id: string, required: int, planted: int, ready: bool,
                       starred: bool, special: bool, point: bool)

  datatype Slot = Slot(index: int, kind: int, seed: string)

  /** What the managed calls of one capture answer; `readable` is false if any of them fails. */
  datatype View = View(readable: bool, seeds: seq<SeedRow>, slots: seq<Slot>, pikmins: seq<string>,
                       maxSlots: int, capacities: seq<Option<int>>)

  datatype Snapshot = Snapshot(seeds: seq<Seed>, pikmins: set<string>, slots: seq<Slot>,
                               maxSlots: int, capacity: int)

  predicate Mature(row: SeedRow) {
    row.planted > 0 && row.required > 0 && row.steps >= row.required && row.nativeReady
  }

  function Grown(row: SeedRow): Seed {
    Seed(row.id, row.required, row.planted, Mature(row), row.starred, row.special, row.point)
  }

  predicate SeedsSound(rows: seq<SeedRow>) {
    && (forall i :: 0 <= i < |rows| ==> rows[i].id != "")
    && (forall i, j :: 0 <= i < j < |rows| ==> rows[i].id != rows[j].id)
  }

  predicate Listed(rows: seq<SeedRow>, id: string) {
    exists j :: 0 <= j < |rows| && rows[j].id == id
  }

  predicate SlotsSound(slots: seq<Slot>, rows: seq<SeedRow>) {
    && (forall i, j :: 0 <= i < j < |slots| ==> slots[i].index != slots[j].index)
    && (forall i, j :: 0 <= i < j < |slots| && slots[i].seed != "" ==> slots[i].seed != slots[j].seed)
    && (forall i :: 0 <= i < |slots| && slots[i].seed != "" ==> Listed(rows, slots[i].seed))
  }

  predicate PikminsSound(ids: seq<string>) {
    && (forall i :: 0 <= i < |ids| ==> ids[i] != "")
    && (forall i, j :: 0 <= i < j < |ids| ==> ids[i] != ids[j])
  }

  function GrownSeeds(rows: seq<SeedRow>): seq<Seed> {
    seq(|rows|, i requires 0 <= i < |rows| => Grown(rows[i]))
  }

  /** Ids are present and distinct; planted seeds are listed once each; the slot count is sane. */
  predicate Consistent(view: View) {
    && view.readable
    && |view.seeds| <= 10000 && |view.slots| <= 8 && |view.pikmins| <= 10000 && |view.capacities| <= 16
    && SeedsSound(view.seeds) && SlotsSound(view.slots, view.seeds) && PikminsSound(view.pikmins)
    && |view.slots| > 0 && 0 < view.maxSlots <= 8
  }

  function CapacityOf(view: View): int {
    if |view.capacities| == 1 && view.capacities[0].Some? then view.capacities[0].value else -1
  }

  function SnapshotOf(view: View): Snapshot {
    Snapshot(GrownSeeds(view.seeds), (set id | id in view.pikmins), view.slots, view.maxSlots, CapacityOf(view))
  }

  /** A complete snapshot, or nothing. */
  function Reading(view: View): Option<Snapshot> {
    if Consistent(view) then Some(SnapshotOf(view)) else None
  }

  function Lookup(seeds: seq<Seed>, id: string): (r: Option<Seed>)
    ensures r.Some? ==> r.value in seeds && r.value.id == id
    ensures r.None? ==> forall k :: 0 <= k < |seeds| ==> seeds[k].id != id
  {
    if seeds == [] then None
    else if seeds[0].id == id then Some(seeds[0])
    else Lookup(seeds[1..], id)
  }

  /** The slot of an index: the last one listed, should there be several. */
  function SlotAt(slots: seq<Slot>, index: int): (r: Option<Slot>)
    ensures r.Some? ==> r.value in slots && r.value.index == index
  {
    if slots == [] then None
    else if slots[|slots| - 1].index == index then Some(slots[|slots| - 1])
    else SlotAt(slots[..|slots| - 1], index)
  }

  predicate Referenced(slots: seq<Slot>, seed: string) {
    exists k :: 0 <= k < |slots| && slots[k].seed == seed
  }

  predicate Permanent(slot: Slot, maxSlots: int) {
    slot.kind == 0 && 0 <= slot.index < maxSlots && maxSlots <= 8
  }

  predicate StorageRoom(count: int, capacity: int) {
    count >= 0 && 0 < capacity <= 100000 && count < capacity
  }

  // ---------- the choice of an action ----------

  datatype Pick = Pick(action: string, seed: Seed, slot: Slot)

  predicate Ripe(slot: Slot, s: Snapshot) {
    && Permanent(slot, s.maxSlots)
    && var seed := Lookup(s.seeds, slot.seed); seed.Some? && seed.value.ready && !seed.value.special
  }

  function FirstRipe(slots: seq<Slot>, s: Snapshot): (r: Option<Pick>) {
    if slots == [] then None
    else if Ripe(slots[0], s) then Some(Pick("pluck", Lookup(s.seeds, slots[0].seed).value, slots[0]))
    else FirstRipe(slots[1..], s)
  }

  function StepBit(required: int): nat {
    if required == 100 then 1
    else if required == 1000 then 2
    else if required == 3000 then 4
    else if required == 5000 then 8
    else if required == 10000 then 16
    else if required > 0 then 32
    else 0
  }

  predicate Plantable(seed: Seed, s: Snapshot, steps: set<nat>) {
    && StepBit(seed.required) in steps && StepBit(seed.required) != 0
    && seed.planted == 0 && !(seed.id != "" && Referenced(s.slots, seed.id)) && !seed.starred
    && seed.required > 0 && !seed.special && seed.point
  }

  /** The order of strings by their first difference. */
  predicate Less(a: string, b: string) {
    b != "" && (a == "" || a[0] < b[0] || (a[0] == b[0] && Less(a[1..], b[1..])))
  }

  predicate Better(a: Seed, b: Seed) {
    a.required < b.required || (a.required == b.required && Less(a.id, b.id))
  }

  /** The best seed to plant among those listed. */
  function Best(seeds: seq<Seed>, s: Snapshot, steps: set<nat>): (r: Option<Seed>) {
    if seeds == [] then None
    else
      var rest := Best(seeds[..|seeds| - 1], s, steps);
      var seed := seeds[|seeds| - 1];
      if Plantable(seed, s, steps) && (rest.None? || Better(seed, rest.value)) then Some(seed) else rest
  }

  function FirstFree(slots: seq<Slot>, s: Snapshot): (r: Option<Slot>) {
    if slots == [] then None
    else if slots[0].seed == "" && Permanent(slots[0], s.maxSlots) then Some(slots[0])
    else FirstFree(slots[1..], s)
  }

  function Choice(s: Snapshot, auto: bool, steps: set<nat>): (r: Option<Pick>) {
    var ripe := FirstRipe(s.slots, s);
    if ripe.Some? then ripe
    else if !auto then None
    else
      var slot, seed := FirstFree(s.slots, s), Best(s.seeds, s, steps);
      if slot.Some? && seed.Some? then Some(Pick("plant", seed.value, slot.value)) else None
  }

  // ---------- durable and volatile state ----------

  type Time = x: int | MIN_LONG <= x <= MAX_LONG witness 0

  /** The ledger file, and the file that a recovery moves it to. */
  datatype Disk = Disk(ledger: Option<string>, archive: Option<string>)

  datatype Pending = Pending(sent: int, action: string, seed: string, slot: int, pikmin: string,
                             before: set<string>, responded: bool)

  /** One process: its id, the pause flags, the RPC in flight, and the recovery under way. */
  datatype Volatile = Volatile(pid: int, initialized: bool, compatible: bool, restartBlocked: bool,
                               lastTick: int, nextAction: int, blocked: string, pending: Option<Pending>,
                               nonce: string, proofSeen: string, seenAt: int, waiting: bool)

  /** What happened, in order. A tick that captures is logged with its snapshot, if that was complete, and with the
      nonce and the proof key that a recovery request earned in it, if any. */
  datatype Event =
    | Looked(reading: Option<Snapshot>, nonce: string, proof: Option<string>, at: int)
    | Sent(action: string, seed: string, slot: int, at: int)
    | Released(nonce: string, key: string, at: int)
    | Restarted

  datatype Engine = Engine(disk: Disk, vol: Volatile, log: seq<Event>)

  /** A moment between two effects at which the process can die. */
  datatype Moment = AfterArchive | AfterRemove | AfterWrite | AfterCall

  datatype Mode = Off | Pluck | Auto

  datatype Answer = Waiting | Failed | Refused | Answered(ids: seq<string>)

  /** The readings of the clock during one tick, in the order in which they are made. */
  datatype Clock = Clock(guard: Time, stamp: Time, asked: Time, seen: Time, waited: Time, released: Time,
                         finished: Time, gate: Time, sent: Time)

  /** Everything one tick finds outside the engine. */
  datatype Env = Env(ready: bool, linked: bool, bound: bool, clock: Clock, view: View, request: string,
                     readable: bool, reread: bool, archived: bool, answer: Answer, removed: bool, mode: Mode,
                     steps: set<nat>, built: bool, wrote: bool, called: bool, rooted: bool,
                     dies: Option<Moment>, nextPid: int)

  function NewProcess(pid: int): Volatile {
    Volatile(pid, false, false, false, 0, 0, "", None, "none", "", 0, false)
  }

  function Restart(e: Engine, pid: int): Engine {
    Engine(e.disk, NewProcess(pid), e.log + [Restarted])
  }

  function Initialize(vol: Volatile, disk: Disk, env: Env): Volatile {
    if vol.initialized then vol
    else if !env.linked then vol.(initialized := true, compatible := false)
    else vol.(initialized := true, compatible := env.bound, restartBlocked := disk.ledger.Some?)
  }

  // ---------- recovery ----------

  predicate FreshRecovery(r: Request, pid: int, now: int) {
    r.pid == pid && now >= r.at && now - r.at <= 90000
  }

  function Proof(l: Ledger, s: Snapshot): string {
    var slot := SlotAt(s.slots, l.slot);
    var seed := Lookup(s.seeds, l.seed);
    if slot.None? || !Permanent(slot.value, s.maxSlots) then "slot-unavailable"
    else if l.action == "plant" && seed.Some? && seed.value.planted > 0 && slot.value.seed == l.seed then
      "plant-state-confirmed"
    else if l.action == "pluck" && seed.None? && !Referenced(s.slots, l.seed) then "pluck-target-retired"
    else "result-unknown"
  }

  predicate CanRecover(proof: string) {
    proof == "plant-state-confirmed" || proof == "pluck-target-retired" || proof == "no-request-created"
  }

  /** What a tick makes of the recovery request it finds. */
  datatype Verdict =
    | Unread
    | Idle
    | Rejected(nonce: string)
    | Unsure(nonce: string)
    | Proven(nonce: string, proof: string, raw: string)

  function RawLedger(text: string, readable: bool): string {
    if readable && |text| <= 512 then text else ""
  }

  function JudgeLedger(vol: Volatile, ledger: Option<string>, env: Env, r: Request, s: Snapshot): (v: Verdict)
    ensures (v.Rejected? || v.Proven?) && v.nonce == r.nonce
  {
    match ledger
    case Some(text) =>
      var raw := RawLedger(text, env.readable);
      var l := ParseLedger(raw);
      if l.None? || l.value != r.expected || !CanRecover(Proof(l.value, s)) then Rejected(r.nonce)
      else Proven(r.nonce, Proof(l.value, s), raw)
    case None =>
      if r.expected.sent != 0 || vol.restartBlocked then Rejected(r.nonce)
      else if vol.blocked == "request-build-failed" || vol.blocked == "audit-write-failed" then
        Proven(r.nonce, "no-request-created", "")
      else Rejected(r.nonce)
  }

  function Weigh(vol: Volatile, ledger: Option<string>, env: Env, r: Request, s: Option<Snapshot>): (v: Verdict)
    ensures (v.Rejected? || v.Unsure? || v.Proven?) && v.nonce == r.nonce
  {
    if !FreshRecovery(r, vol.pid, env.clock.asked) || vol.pending.Some? || !vol.compatible then Rejected(r.nonce)
    else if s.None? || s.value.capacity <= 0 || s.value.pikmins == {} then Unsure(r.nonce)
    else JudgeLedger(vol, ledger, env, r, s.value)
  }

  function Judge(vol: Volatile, ledger: Option<string>, env: Env, s: Option<Snapshot>): Verdict {
    match ParseRecovery(env.request)
    case None => Unread
    case Some(r) => if r.nonce == vol.nonce && !vol.waiting then Idle else Weigh(vol, ledger, env, r, s)
  }

  /** The process after it has taken note of a request: another nonce forgets what an earlier one saw. */
  function Noted(vol: Volatile, nonce: string): Volatile {
    if nonce == vol.nonce then vol.(waiting := false)
    else vol.(nonce := nonce, seenAt := 0, proofSeen := "", waiting := false)
  }

  predicate FirstSight(vol: Volatile, key: string) {
    vol.proofSeen != key || vol.seenAt == 0
  }

  function Release(e: Engine, env: Env, key: string): Engine {
    var disk := if e.disk.ledger.Some? then Disk(None, e.disk.ledger) else e.disk;
    if e.disk.ledger.Some? && env.dies == Some(AfterArchive) then Restart(e.(disk := disk), env.nextPid)
    else Engine(disk, e.vol.(restartBlocked := false, blocked := "", nextAction := env.clock.released + 5000),
                e.log + [Released(e.vol.nonce, key, env.clock.waited)])
  }

  function Prove(e: Engine, env: Env, key: string): Engine {
    if FirstSight(e.vol, key) then
      e.(vol := e.vol.(proofSeen := key, seenAt := env.clock.seen, waiting := true))
    else if env.clock.waited - e.vol.seenAt < 5000 then e.(vol := e.vol.(waiting := true))
    else if e.disk.ledger.Some? && !(env.reread && env.archived) then e.(vol := e.vol.(seenAt := 0))
    else Release(e, env, key)
  }

  function Follow(e: Engine, env: Env, v: Verdict): Engine {
    match v
    case Rejected(n) => e.(vol := e.vol.(seenAt := 0))
    case Unsure(n) => e.(vol := e.vol.(seenAt := 0, waiting := true))
    case Proven(n, proof, raw) => Prove(e, env, proof + raw)
    case _ => e
  }

  function Pursue(e: Engine, env: Env, v: Verdict): Engine {
    match v
    case Unread => if e.vol.waiting then e.(vol := e.vol.(waiting := false, seenAt := 0)) else e
    case Idle => e
    case _ => Follow(e.(vol := Noted(e.vol, v.nonce)), env, v)
  }

  function KeyOf(v: Verdict): Option<string> {
    if v.Proven? then Some(v.proof + v.raw) else None
  }

  function NonceOf(vol: Volatile, v: Verdict): string {
    if v.Unread? || v.Idle? then vol.nonce else v.nonce
  }

  /** How a tick that captures is logged. */
  function LookOf(e: Engine, env: Env, s: Option<Snapshot>): Event {
    var v := Judge(e.vol, e.disk.ledger, env, s);
    Looked(s, NonceOf(e.vol, v), KeyOf(v), env.clock.seen)
  }

  function Recover(e: Engine, env: Env, s: Option<Snapshot>): Engine {
    Pursue(e.(log := e.log + [LookOf(e, env, s)]), env, Judge(e.vol, e.disk.ledger, env, s))
  }

  lemma RecoverCompatible(e: Engine, env: Env, s: Option<Snapshot>)
    requires e.vol.initialized && e.vol.compatible
    ensures Recover(e, env, s).vol.initialized ==> Recover(e, env, s).vol.compatible
  {
    hide Judge, FirstSight;
  }

  // ---------- the RPC in flight ----------

  function Finish(e: Engine, env: Env, event: string, confirmed: bool): Engine {
    var vol := e.vol.(pending := None, nextAction := env.clock.finished + 5000,
                      blocked := if confirmed then e.vol.blocked else event);
    var disk := if confirmed && env.removed then e.disk.(ledger := None) else e.disk;
    if confirmed && env.dies == Some(AfterRemove) then Restart(e.(disk := disk), env.nextPid)
    else Engine(disk, vol, e.log)
  }

  /** The inventory shows what the RPC was to do. */
  predicate Confirmed(p: Pending, s: Snapshot) {
    var slot := SlotAt(s.slots, p.slot);
    var seed := Lookup(s.seeds, p.seed);
    if p.action == "pluck" then
      slot.Some? && slot.value.seed != p.seed && seed.None? && p.pikmin in s.pikmins
    else
      slot.Some? && slot.value.seed == p.seed && seed.Some? && seed.value.planted > 0
  }

  function Confirm(e: Engine, env: Env, s: Option<Snapshot>, p: Pending): Engine {
    if s.Some? && Confirmed(p, s.value) then Finish(e, env, p.action + "-confirmed", true)
    else e.(vol := e.vol.(pending := Some(p)))
  }

  /** What the task in flight says: nothing yet, a failure, or a success that the inventory should show. */
  datatype Reply = Silent | Bad(event: string) | Good(p: Pending)

  function ReplyOf(answer: Answer, p: Pending): (r: Reply)
    ensures r.Bad? ==> r.event != ""
    ensures r.Good? ==> r.p.action == p.action && r.p.seed == p.seed && r.p.slot == p.slot
  {
    match answer
    case Waiting => Silent
    case Failed => Bad("rpc-failed-review-required")
    case Refused => Bad("server-rejected-review-required")
    case Answered(ids) =>
      if p.action != "pluck" then Good(p.(responded := true))
      else if |ids| != 1 then Bad("unexpected-response-review-required")
      else if ids[0] == "" || ids[0] in p.before then Bad("missing-new-pikmin-review-required")
      else Good(p.(responded := true, pikmin := ids[0]))
  }

  function Observe(e: Engine, env: Env, s: Option<Snapshot>, p: Pending): Engine {
    if p.responded then Confirm(e, env, s, p)
    else
      match ReplyOf(env.answer, p)
      case Silent => e
      case Bad(event) => Finish(e, env, event, false)
      case Good(q) => Confirm(e, env, s, q)
  }

  // ---------- one tick ----------

  function Block(e: Engine, reason: string): Engine {
    e.(vol := e.vol.(blocked := reason))
  }

  function LedgerOf(pick: Pick, at: int): Ledger {
    Ledger(at, pick.action, pick.seed.id, pick.slot.index)
  }

  function Submit(e: Engine, env: Env, pick: Pick, s: Snapshot): Engine {
    var sent := e.(log := e.log + [Sent(pick.action, pick.seed.id, pick.slot.index, env.clock.sent)]);
    if env.dies == Some(AfterCall) then Restart(sent, env.nextPid)
    else if !env.called then Block(sent, "rpc-start-uncertain-review-required")
    else if !env.rooted then Block(sent, "task-root-failed")
    else
      sent.(vol := e.vol.(pending := Some(Pending(env.clock.sent, pick.action, pick.seed.id, pick.slot.index, "",
                                                  s.pikmins, false))))
  }

  function Start(e: Engine, env: Env, pick: Pick, s: Snapshot): Engine {
    if !env.built then Block(e, "request-build-failed")
    else if !env.wrote then Block(e, "audit-write-failed")
    else
      var written := e.(disk := e.disk.(ledger := Some(Render(LedgerOf(pick, env.clock.sent)))));
      if env.dies == Some(AfterWrite) then Restart(written, env.nextPid)
      else Submit(written, env, pick, s)
  }

  predicate Paused(vol: Volatile) {
    vol.waiting || vol.restartBlocked || vol.blocked != ""
  }

  function Decide(e: Engine, env: Env, s: Snapshot): Engine {
    if env.mode == Off || env.clock.gate < e.vol.nextAction || !StorageRoom(|s.pikmins|, s.capacity) then e
    else
      var pick := Choice(s, env.mode == Auto, env.steps);
      if pick.None? then e else Start(e, env, pick.value, s)
  }

  function Act(e: Engine, env: Env, s: Option<Snapshot>): Engine {
    if Paused(e.vol) then e
    else if e.vol.pending.Some? then Observe(e, env, s, e.vol.pending.value)
    else if s.None? then e
    else Decide(e, env, s.value)
  }

  predicate Captures(e: Engine, env: Env) {
    && env.ready && env.clock.guard - e.vol.lastTick >= 5000
    && Initialize(e.vol, e.disk, env).compatible
  }

  function Begin(e: Engine, env: Env): Engine {
    if !env.ready || env.clock.guard - e.vol.lastTick < 5000 then e
    else e.(vol := Initialize(e.vol.(lastTick := env.clock.stamp), e.disk, env))
  }

  function Tick(e: Engine, env: Env): Engine {
    if !Captures(e, env) then Begin(e, env)
    else
      var s := Reading(env.view);
      var r := Recover(Begin(e, env), env, s);
      if r.vol.initialized then Act(r, env, s) else r
  }

  // ---------- runs ----------

  datatype Step = TickStep(env: Env) | DieStep(pid: int)

  function Next(e: Engine, step: Step): Engine {
    match step
    case TickStep(env) => Tick(e, env)
    case DieStep(pid) => Restart(e, pid)
  }

  function Run(e: Engine, steps: seq<Step>): Engine {
    if steps == [] then e else Next(Run(e, steps[..|steps| - 1]), steps[|steps| - 1])
  }

  /** A first process over whatever files an earlier one left. */
  function Boot(disk: Disk, pid: int): Engine {
    Engine(disk, NewProcess(pid), [])
  }

  // ---------- events that are added ----------

  predicate NoSends(tail: seq<Event>) {
    forall k :: 0 <= k < |tail| ==> !tail[k].Sent?
  }

  lemma SentBefore(log: seq<Event>, tail: seq<Event>, i: int)
    requires 0 <= i < |log + tail| && NoSends(tail)
    ensures (log + tail)[i].Sent? ==> i < |log|
  {
  }
}
