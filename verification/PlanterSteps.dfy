/** What a tick of the planter leaves behind, told from what it reads: after an RPC is sent, while one is in flight, and
    while a recovery is asked for. */
module PlanterSteps {
  import opened LedgerText
  import opened Options
  import opened PlanterState
  import opened PlanterSends
  import R = PlanterRelease

  // ---------- after an RPC is sent ----------

  /** A process that starts over knows nothing but its own id. */
  predicate Reborn(vol: Volatile, pid: int) {
    && vol.pid == pid && !vol.initialized && !vol.compatible && !vol.restartBlocked && vol.lastTick == 0
    && vol.nextAction == 0 && vol.blocked == "" && vol.pending.None? && vol.nonce == "none" && vol.proofSeen == ""
    && vol.seenAt == 0 && !vol.waiting
  }

  /** The ledger of the RPC is on disk. The process awaits its answer, or is blocked because the call threw or its task
      could not be kept, or has died. */
  ghost predicate LeftBySend(env: Env, ev: Event, r: Engine)
    requires ev.Sent?
  {
    && r.disk.ledger == Some(Render(Ledger(ev.at, ev.action, ev.seed, ev.slot)))
    && if env.dies == Some(AfterCall) then Reborn(r.vol, env.nextPid)
       else if !env.called then r.vol.pending.None? && r.vol.blocked == "rpc-start-uncertain-review-required"
       else if !env.rooted then r.vol.pending.None? && r.vol.blocked == "task-root-failed"
       else
         && r.vol.blocked == "" && r.vol.pending.Some?
         && var p := r.vol.pending.value;
            && p.sent == ev.at && p.action == ev.action && p.seed == ev.seed && p.slot == ev.slot
            && p.pikmin == "" && !p.responded && forall id :: id in p.before <==> id in env.view.pikmins
  }

  lemma DecideLeaves(e: Engine, env: Env)
    requires Consistent(env.view) && e.vol.blocked == "" && e.vol.pending.None?
    ensures var r := Decide(e, env, SnapshotOf(env.view));
            forall k :: NewSent(e, r, k) ==> LeftBySend(env, r.log[k], r)
  {
    hide Choice, StorageRoom, Line, Consistent, Grown;
  }

  lemma NothingNew(e: Engine, env: Env, s: Option<Snapshot>)
    requires Paused(e.vol) || e.vol.pending.Some? || s.None?
    ensures forall k :: !NewSent(e, Act(e, env, s), k)
  {
    hide Confirmed, ReplyOf, Paused;
  }

  /** An RPC leaves its ledger and a process that will not forget it. */
  lemma SendLeaves(e: Engine, env: Env, k: int)
    requires NewSent(e, Tick(e, env), k)
    ensures LeftBySend(env, Tick(e, env).log[k], Tick(e, env))
  {
    hide Decide, Recover, Reading, LeftBySend, Act, RightSend, PluckDue, PlantDue, Paused;
    if Captures(e, env) {
      var b, s := Begin(e, env), Reading(env.view);
      var r := Recover(b, env, s);
      RecoverAdds(b, env, s);
      if r.vol.initialized {
        ActSends(r, env);
        assert NewSent(r, Act(r, env, s), k);
        if Paused(r.vol) || r.vol.pending.Some? || s.None? {
          NothingNew(r, env, s);
        } else {
          ReadingIs(env.view);
          ActDecides(r, env, s.value);
          DecideLeaves(r, env);
        }
      }
    }
  }

  lemma ReadingIs(view: View)
    ensures Reading(view).Some? <==> Consistent(view)
    ensures Reading(view).Some? ==> Reading(view).value == SnapshotOf(view)
  {
  }

  lemma ActDecides(e: Engine, env: Env, s: Snapshot)
    requires !Paused(e.vol) && e.vol.pending.None?
    ensures Act(e, env, Some(s)) == Decide(e, env, s) && e.vol.blocked == ""
  {
  }

  // ---------- before an RPC can be sent ----------

  /** An RPC was due, but the request could not be built, its ledger could not be written, or the process died between. */
  ghost predicate AllButSent(e: Engine, env: Env) {
    && Unhindered(e, env) && Sensible(env.view) && Room(env.view)
    && ((env.mode == Pluck && SomeRipe(env.view))
        || (env.mode == Auto && (SomeRipe(env.view) || (SomeEmpty(env.view) && SomePlants(env.view, env.steps)))))
  }

  lemma DecideFails(e: Engine, env: Env)
    requires Consistent(env.view) && e.vol.blocked == "" && e.vol.pending.None?
    requires env.clock.gate >= e.vol.nextAction && Room(env.view)
    requires (env.mode == Pluck && SomeRipe(env.view))
          || (env.mode == Auto && (SomeRipe(env.view) || (SomeEmpty(env.view) && SomePlants(env.view, env.steps))))
    ensures var r := Decide(e, env, SnapshotOf(env.view));
      && (!env.built ==> r == e.(vol := e.vol.(blocked := "request-build-failed")))
      && (env.built && !env.wrote ==> r == e.(vol := e.vol.(blocked := "audit-write-failed")))
      && (env.built && env.wrote && env.dies == Some(AfterWrite) ==> Reborn(r.vol, env.nextPid) && r.disk.ledger.Some?)
  {
    hide FirstRipe, FirstFree, Best, StorageRoom, Render, SomeRipe, SomeEmpty, SomePlants, Room, Consistent;
    RoomIs(env.view);
    RipeChoice(env.view);
    EmptyChoice(env.view);
    BestChoice(env.view, env.steps);
  }

  /** Then the process is blocked and no ledger is written, or the ledger is there for the next process. */
  lemma FailureLeaves(e: Engine, env: Env)
    requires NoNewRequest(e, env) && AllButSent(e, env)
    ensures var r := Tick(e, env);
      && (!env.built ==> r.vol.blocked == "request-build-failed" && r.disk == e.disk)
      && (env.built && !env.wrote ==> r.vol.blocked == "audit-write-failed" && r.disk == e.disk)
      && (env.built && env.wrote && env.dies == Some(AfterWrite) ==> Reborn(r.vol, env.nextPid) && r.disk.ledger.Some?)
  {
    hide Decide, Recover, Act, Room, Sensible, SomeRipe, SomeEmpty, SomePlants, ParseRecovery, Reborn;
    var b, s := Begin(e, env), Reading(env.view);
    SensibleIsConsistent(env.view);
    ReadingIs(env.view);
    QuietRecovers(b, env, s);
    var r := Recover(b, env, s);
    ActDecides(r, env, s.value);
    DecideFails(r, env);
  }

  // ---------- while an RPC is in flight ----------

  /** What the answer makes of the RPC in flight: it goes on as it is, it is to be looked for in the inventory, or it
      ends with a reason. */
  datatype Outcome = GoesOn | Look(q: Pending) | Ends(reason: string)

  function OutcomeOf(answer: Answer, p: Pending): Outcome {
    if p.responded then Look(p)
    else if answer.Waiting? then GoesOn
    else if answer.Failed? then Ends("rpc-failed-review-required")
    else if answer.Refused? then Ends("server-rejected-review-required")
    else if p.action == "pluck" then
      if |answer.ids| != 1 then Ends("unexpected-response-review-required")
      else if answer.ids[0] == "" || answer.ids[0] in p.before then Ends("missing-new-pikmin-review-required")
      else Look(Pending(p.sent, p.action, p.seed, p.slot, answer.ids[0], p.before, true))
    else Look(Pending(p.sent, p.action, p.seed, p.slot, p.pikmin, p.before, true))
  }

  /** A pluck shows when the slot no longer has the seed, the seed is gone and the new Pikmin is there; a plant when the
      slot has the seed and the seed is planted. */
  ghost predicate Shown(view: View, q: Pending) {
    && Sensible(view)
    && exists k :: 0 <= k < |view.slots| && view.slots[k].index == q.slot && ShownAt(view, q, k)
  }

  ghost predicate ShownAt(view: View, q: Pending, k: int)
    requires 0 <= k < |view.slots|
  {
    if q.action == "pluck" then view.slots[k].seed != q.seed && !SeedListed(view, q.seed) && q.pikmin in view.pikmins
    else view.slots[k].seed == q.seed
         && exists i :: 0 <= i < |view.seeds| && view.seeds[i].id == q.seed && view.seeds[i].planted > 0
  }

  lemma {:induction false} SlotFound(slots: seq<Slot>, index: int, k: int)
    requires forall i, j :: 0 <= i < j < |slots| ==> slots[i].index != slots[j].index
    requires 0 <= k < |slots| && slots[k].index == index
    ensures SlotAt(slots, index) == Some(slots[k])
  {
    if slots[|slots| - 1].index != index {
      SlotFound(slots[..|slots| - 1], index, k);
    }
  }

  lemma ConfirmedShown(view: View, q: Pending)
    requires Consistent(view)
    ensures Confirmed(q, SnapshotOf(view)) <==> Shown(view, q)
  {
    hide Lookup, SlotAt, Consistent, Sensible, Mature;
    SensibleIsConsistent(view);
    var s := SnapshotOf(view);
    SlotIs(view, q.slot);
    SeedIs(view, q.seed);
  }

  lemma SlotIs(view: View, index: int)
    requires Consistent(view)
    ensures var r := SlotAt(view.slots, index);
      && (r.Some? <==> exists k :: 0 <= k < |view.slots| && view.slots[k].index == index)
      && forall k :: 0 <= k < |view.slots| && view.slots[k].index == index ==> r == Some(view.slots[k])
  {
    hide SlotAt;
    forall k | 0 <= k < |view.slots| && view.slots[k].index == index
      ensures SlotAt(view.slots, index) == Some(view.slots[k])
    {
      SlotFound(view.slots, index, k);
    }
  }

  lemma SeedIs(view: View, id: string)
    requires Consistent(view)
    ensures var r := Lookup(SnapshotOf(view).seeds, id);
      && (r.Some? <==> SeedListed(view, id))
      && forall i :: 0 <= i < |view.seeds| && view.seeds[i].id == id ==> r == Some(Grown(view.seeds[i]))
  {
    hide Lookup, Mature;
    var s := SnapshotOf(view);
    forall i | 0 <= i < |view.seeds| && view.seeds[i].id == id
      ensures Lookup(s.seeds, id) == Some(Grown(view.seeds[i]))
    {
      RowFound(view, id, i);
    }
    var r := Lookup(s.seeds, id);
    if r.Some? {
      var i :| 0 <= i < |s.seeds| && s.seeds[i] == r.value;
      assert view.seeds[i].id == id;
    }
  }

  /** The process that awaits the RPC p, when a tick of it looks. */
  predicate AwaitsNow(e: Engine, env: Env, p: Pending) {
    && env.ready && env.clock.guard - e.vol.lastTick >= 5000
    && e.vol.initialized && e.vol.compatible && !e.vol.restartBlocked && e.vol.blocked == ""
    && e.vol.pending == Some(p)
  }

  /** The RPC is over: another one may follow five seconds later, unless it ended badly. */
  predicate Over(e: Engine, env: Env, r: Engine, reason: string) {
    && r.vol.pending.None? && r.vol.nextAction == env.clock.finished + 5000 && r.vol.blocked == reason
    && r.vol.initialized && r.vol.compatible && !r.vol.restartBlocked
  }

  ghost predicate LeftByAnswer(e: Engine, env: Env, p: Pending, r: Engine) {
    match OutcomeOf(env.answer, p)
    case GoesOn => r.vol.pending == Some(p) && r.vol.blocked == "" && r.disk == e.disk
    case Ends(reason) => Over(e, env, r, reason) && r.disk == e.disk
    case Look(q) =>
      if !Shown(env.view, q) then r.vol.pending == Some(q) && r.vol.blocked == "" && r.disk == e.disk
      else
        && r.disk == Disk(if env.removed then None else e.disk.ledger, e.disk.archive)
        && if env.dies == Some(AfterRemove) then Reborn(r.vol, env.nextPid) else Over(e, env, r, "")
  }

  lemma ObserveLeaves(e: Engine, env: Env, p: Pending)
    requires e.vol.initialized && e.vol.compatible && !e.vol.restartBlocked && e.vol.blocked == "" && e.vol.pending == Some(p)
    ensures LeftByAnswer(e, env, p, Observe(e, env, Reading(env.view), p))
  {
    hide Confirmed, Shown, Consistent, Sensible;
    SensibleIsConsistent(env.view);
    ReadingIs(env.view);
    if Consistent(env.view) {
      if OutcomeOf(env.answer, p).Look? { ConfirmedShown(env.view, OutcomeOf(env.answer, p).q); }
    } else {
      NotShown(env.view);
    }
  }

  lemma NotShown(view: View)
    requires !Sensible(view)
    ensures forall q :: !Shown(view, q)
  {
  }

  /** A tick that finds an RPC in flight leaves it as its answer and the inventory say. */
  lemma AnswerLeaves(e: Engine, env: Env, p: Pending)
    requires NoNewRequest(e, env) && AwaitsNow(e, env, p)
    ensures LeftByAnswer(e, env, p, Tick(e, env))
  {
    hide Observe, Recover, Reading, ParseRecovery, LeftByAnswer;
    var b, s := Begin(e, env), Reading(env.view);
    QuietRecovers(b, env, s);
    var r := Recover(b, env, s);
    ObserveLeaves(r, env, p);
    assert LeftByAnswer(r, env, p, Tick(e, env));
    SameDisk(e, r, env, p, Tick(e, env));
  }

  lemma SameDisk(e: Engine, e': Engine, env: Env, p: Pending, r: Engine)
    requires e.disk == e'.disk && LeftByAnswer(e', env, p, r)
    ensures LeftByAnswer(e, env, p, r)
  {
    hide Shown;
  }

  // ---------- while a recovery is asked for ----------

  /** What a process remembers of a recovery: the request, the proof it saw last, since when, and whether it waits. */
  datatype Memory = Memory(nonce: string, proof: string, since: int, waiting: bool)

  function MemoryOf(vol: Volatile): Memory {
    Memory(vol.nonce, vol.proofSeen, vol.seenAt, vol.waiting)
  }

  /** The request is for this process, at most 90 seconds old, and nothing is in flight. */
  predicate Asked(vol: Volatile, env: Env, r: Request) {
    r.pid == vol.pid && r.at <= env.clock.asked <= r.at + 90000 && vol.pending.None? && vol.compatible
  }

  /** The inventory is complete, with a capacity and some Pikmin. */
  ghost predicate Informed(view: View) {
    && Sensible(view) && view.pikmins != []
    && |view.capacities| == 1 && view.capacities[0].Some? && view.capacities[0].value > 0
  }

  /** The proof and the bytes of the ledger, if there is one. */
  function ProofKey(ledger: Option<string>, r: Request): string {
    if ledger.None? then "no-request-created"
    else (if r.expected.action == "plant" then "plant-state-confirmed" else "pluck-target-retired") + ledger.value
  }

  /** The proof was seen before, five seconds ago or more, and the ledger, if there is one, was still the same and could
      be moved. */
  predicate Seasoned(m: Memory, ledger: Option<string>, env: Env, key: string) {
    && m.proof == key && m.since != 0 && env.clock.waited - m.since >= 5000
    && (ledger.Some? ==> env.reread && env.archived)
  }

  /** What a capture makes of the memory, for a process that would go on. */
  ghost predicate Remembers(vol: Volatile, ledger: Option<string>, env: Env, s: Option<Snapshot>, m: Memory) {
    var was, request := MemoryOf(vol), ParseRecovery(env.request);
    if request.None? then m == was.(waiting := false, since := if was.waiting then 0 else was.since)
    else if request.value.nonce == was.nonce && !was.waiting then m == was
    else
      var r := request.value;
      var base := if r.nonce == was.nonce then was.(waiting := false) else Memory(r.nonce, "", 0, false);
      if R.Deserved(vol, ledger, env, s, r) then
        var key := ProofKey(ledger, r);
        if base.proof != key || base.since == 0 then m == Memory(r.nonce, key, env.clock.seen, true)
        else if env.clock.waited - base.since < 5000 then m == base.(waiting := true)
        else if Seasoned(base, ledger, env, key) then m == base
        else m == base.(since := 0)
      else if Asked(vol, env, r) && !Informed(env.view) then m == base.(since := 0, waiting := true)
      else m == base.(since := 0)
  }

  /** The capture lifts the pause. */
  ghost predicate Lifts(vol: Volatile, ledger: Option<string>, env: Env, s: Option<Snapshot>) {
    var was, request := MemoryOf(vol), ParseRecovery(env.request);
    && request.Some? && R.Deserved(vol, ledger, env, s, request.value) && request.value.nonce == was.nonce
    && Seasoned(was, ledger, env, ProofKey(ledger, request.value))
  }

  lemma InformedIs(env: Env)
    ensures var s := Reading(env.view); Informed(env.view) <==> s.Some? && s.value.capacity > 0 && s.value.pikmins != {}
  {
    hide Sensible, Consistent, Grown;
    SensibleIsConsistent(env.view);
    ReadingIs(env.view);
    if env.view.pikmins != [] { assert env.view.pikmins[0] in SnapshotOf(env.view).pikmins; }
  }

  /** The verdict, told from the request and the inventory. */
  lemma VerdictIs(vol: Volatile, ledger: Option<string>, env: Env)
    ensures var s := Reading(env.view); var v := Judge(vol, ledger, env, s); var request := ParseRecovery(env.request);
      if request.None? then v == Unread
      else if request.value.nonce == vol.nonce && !vol.waiting then v == Verdict.Idle
      else
        var r := request.value;
        if R.Deserved(vol, ledger, env, s, r) then v.Proven? && v.nonce == r.nonce && v.proof + v.raw == ProofKey(ledger, r)
        else if Asked(vol, env, r) && !Informed(env.view) then v == Unsure(r.nonce)
        else v == Rejected(r.nonce)
  {
    hide ParseRecovery, Reading, Informed, JudgeLedger, R.UsableSlot, R.Planted, R.Gone;
    var s := Reading(env.view);
    R.ProvenIffDeserved(vol, ledger, env, s);
    InformedIs(env);
    var request := ParseRecovery(env.request);
    if request.Some? && s.Some? { KeyOfVerdict(vol, ledger, env, request.value, s.value); }
  }

  lemma KeyOfVerdict(vol: Volatile, ledger: Option<string>, env: Env, r: Request, s: Snapshot)
    ensures var v := JudgeLedger(vol, ledger, env, r, s); v.Proven? ==> v.proof + v.raw == ProofKey(ledger, r)
  {
    hide ParseLedger, Proof, CanRecover, R.UsableSlot, R.Planted, R.Gone;
    if ledger.Some? {
      R.LedgerDeserved(vol, ledger.value, env, r, s);
      if JudgeLedger(vol, ledger, env, r, s).Proven? {
        assert r.expected.action == "plant" || r.expected.action == "pluck" by { ParsedAction(ledger.value); }
        R.ProofDeserved(r.expected, s);
      }
    }
  }

  lemma ParsedAction(text: string)
    ensures var l := ParseLedger(text); l.Some? ==> l.value.action == "plant" || l.value.action == "pluck"
  {
    hide ReadLedger, SafeToken;
  }

  /** The new memory and the release of one capture. */
  ghost predicate Recovered(e: Engine, env: Env, s: Option<Snapshot>, r: Engine) {
    var lifts := Lifts(e.vol, e.disk.ledger, env, s);
    && (if lifts && e.disk.ledger.Some? && env.dies == Some(AfterArchive) then
          Reborn(r.vol, env.nextPid) && r.disk == Disk(None, e.disk.ledger)
        else Remembers(e.vol, e.disk.ledger, env, s, MemoryOf(r.vol)) && r.vol.initialized == e.vol.initialized)
    && (ReleasedIn(e, r) <==> lifts && !(e.disk.ledger.Some? && env.dies == Some(AfterArchive)))
  }

  ghost predicate ReleasedIn(e: Engine, r: Engine) {
    exists k :: |e.log| <= k < |r.log| && r.log[k].Released?
  }

  lemma RecoverProves(e: Engine, env: Env, s: Option<Snapshot>, v: Verdict)
    requires v == Judge(e.vol, e.disk.ledger, env, s) && v.Proven?
    ensures Recover(e, env, s) == Prove(e.(log := e.log + [LookOf(e, env, s)], vol := Noted(e.vol, v.nonce)), env, v.proof + v.raw)
  {
    hide Judge, Prove;
  }

  /** The request is new or waited for, and the capture proves it. */
  ghost predicate Proves(e: Engine, env: Env, s: Option<Snapshot>, r: Request, v: Verdict) {
    && v == Judge(e.vol, e.disk.ledger, env, s) && ParseRecovery(env.request) == Some(r)
    && (r.nonce != e.vol.nonce || e.vol.waiting)
    && R.Deserved(e.vol, e.disk.ledger, env, s, r) && v.Proven? && v.nonce == r.nonce
    && v.proof + v.raw == ProofKey(e.disk.ledger, r)
  }

  lemma ProvenReleases(e: Engine, env: Env, s: Option<Snapshot>, r: Request, v: Verdict)
    requires Proves(e, env, s, r, v)
    ensures ReleasedIn(e, Recover(e, env, s))
      <==> Lifts(e.vol, e.disk.ledger, env, s) && !(e.disk.ledger.Some? && env.dies == Some(AfterArchive))
  {
    hide Judge, R.Deserved, ProofKey, ParseRecovery;
    RecoverProves(e, env, s, v);
    var n := e.(log := e.log + [LookOf(e, env, s)], vol := Noted(e.vol, v.nonce));
    var x := Prove(n, env, ProofKey(e.disk.ledger, r));
    if Lifts(e.vol, e.disk.ledger, env, s) && !(e.disk.ledger.Some? && env.dies == Some(AfterArchive)) {
      assert x.log[|e.log| + 1].Released?;
    }
  }

  lemma ProvenRecovered(e: Engine, env: Env, s: Option<Snapshot>, r: Request, v: Verdict)
    requires Proves(e, env, s, r, v)
    ensures Recovered(e, env, s, Recover(e, env, s))
  {
    hide Judge, R.Deserved, ProofKey, ParseRecovery, Asked, Informed, ReleasedIn;
    ProvenReleases(e, env, s, r, v);
    RecoverProves(e, env, s, v);
  }

  lemma RecoverRemembers(e: Engine, env: Env)
    ensures Recovered(e, env, Reading(env.view), Recover(e, env, Reading(env.view)))
  {
    hide Judge, Reading, R.Deserved, ParseRecovery, Asked, Informed, ProofKey, Seasoned;
    var s := Reading(env.view);
    VerdictIs(e.vol, e.disk.ledger, env);
    var v, request := Judge(e.vol, e.disk.ledger, env, s), ParseRecovery(env.request);
    if request.Some? && v.Proven? {
      ProvenRecovered(e, env, s, request.value, v);
    } else if request.Some? {
      DeservedIsNew(e.vol, e.disk.ledger, env, s, request.value);
    }
  }

  lemma DeservedIsNew(vol: Volatile, ledger: Option<string>, env: Env, s: Option<Snapshot>, r: Request)
    ensures R.Deserved(vol, ledger, env, s, r) ==> r.nonce != vol.nonce || vol.waiting
  {
    hide ParseLedger, R.UsableSlot, R.Planted, R.Gone;
  }

  /** Nothing is released and nothing forgotten, unless the process has died. */
  ghost predicate Keeps(e: Engine, r: Engine) {
    && e.log <= r.log && (forall k :: |e.log| <= k < |r.log| ==> !r.log[k].Released?)
    && (r.vol.initialized && e.vol.initialized ==> MemoryOf(r.vol) == MemoryOf(e.vol))
  }

  lemma DecideForgetsNothing(e: Engine, env: Env, s: Snapshot)
    ensures Keeps(e, Decide(e, env, s))
  {
    hide Choice, StorageRoom, Render;
  }

  lemma ObserveForgetsNothing(e: Engine, env: Env, s: Option<Snapshot>, p: Pending)
    ensures Keeps(e, Observe(e, env, s, p))
  {
    hide Confirmed, ReplyOf;
  }

  lemma ActForgetsNothing(e: Engine, env: Env, s: Option<Snapshot>)
    ensures Keeps(e, Act(e, env, s))
  {
    hide Keeps, Observe, Decide, Paused;
    assert Keeps(e, e) by { KeepsItself(e); }
    if e.vol.pending.Some? { ObserveForgetsNothing(e, env, s, e.vol.pending.value); }
    if s.Some? { DecideForgetsNothing(e, env, s.value); }
  }

  lemma KeepsItself(e: Engine)
    ensures Keeps(e, e)
  {
  }

  /** What a tick remembers of a recovery, and exactly when it lifts the pause. */
  lemma RecoveryLeaves(e: Engine, env: Env)
    requires env.ready && env.clock.guard - e.vol.lastTick >= 5000 && e.vol.initialized && e.vol.compatible
    ensures var s := Reading(env.view); var r := Tick(e, env); var lifts := Lifts(e.vol, e.disk.ledger, env, s);
      && (ReleasedIn(e, r) <==> lifts && !(e.disk.ledger.Some? && env.dies == Some(AfterArchive)))
      && (if lifts && e.disk.ledger.Some? && env.dies == Some(AfterArchive) then
            Reborn(r.vol, env.nextPid) && r.disk == Disk(None, e.disk.ledger)
          else r.vol.initialized ==> Remembers(e.vol, e.disk.ledger, env, s, MemoryOf(r.vol)))
  {
    hide Act, Recover, Reading, Remembers, Lifts;
    var b, s := Begin(e, env), Reading(env.view);
    assert b == e.(vol := e.vol.(lastTick := env.clock.stamp));
    RecoverRemembers(b, env);
    LastTickApart(e, env, s);
    var n := Recover(b, env, s);
    RecoverAdds(b, env, s);
    ActForgetsNothing(n, env, s);
    var r := Tick(e, env);
    assert n.log <= r.log;
    if ReleasedIn(e, n) {
      var k :| |e.log| <= k < |n.log| && n.log[k].Released?;
      assert r.log[k].Released?;
    }
    if ReleasedIn(e, r) {
      var k :| |e.log| <= k < |r.log| && r.log[k].Released?;
      assert n.log[k].Released?;
    }
  }

  lemma LastTickApart(e: Engine, env: Env, s: Option<Snapshot>)
    ensures var vol := e.vol.(lastTick := env.clock.stamp);
      && (Lifts(vol, e.disk.ledger, env, s) <==> Lifts(e.vol, e.disk.ledger, env, s))
      && forall m :: Remembers(vol, e.disk.ledger, env, s, m) <==> Remembers(e.vol, e.disk.ledger, env, s, m)
  {
    hide ParseRecovery, Informed, ParseLedger, R.UsableSlot, R.Planted, R.Gone;
  }
}
