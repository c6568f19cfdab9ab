/** The planter engine as it runs: fields that each tick updates, and the file that outlives them. */
module PlanterEngine {
  import opened LedgerText
  import opened Options
  import opened PlanterState

  class Planter {
    var ledger: Option<string>
    var archive: Option<string>

    var pid: int
    var initialized: bool
    var compatible: bool
    var restartBlocked: bool
    var lastTick: int
    var nextAction: int
    var blocked: string
    var pending: Option<Pending>
    var recoveryNonce: string
    var recoveryProofSeen: string
    var recoverySeenAt: int
    var recoveryWaiting: bool

    ghost var log: seq<Event>

    ghost function Vol(): Volatile
      reads this
    {
      Volatile(pid, initialized, compatible, restartBlocked, lastTick, nextAction, blocked, pending,
               recoveryNonce, recoveryProofSeen, recoverySeenAt, recoveryWaiting)
    }

    ghost function State(): Engine
      reads this
    {
      Engine(Disk(ledger, archive), Vol(), log)
    }

    constructor (disk: Disk, id: int)
      ensures State() == Boot(disk, id)
    {
      ledger, archive := disk.ledger, disk.archive;
      pid, initialized, compatible, restartBlocked := id, false, false, false;
      lastTick, nextAction, blocked, pending := 0, 0, "", None;
      recoveryNonce, recoveryProofSeen, recoverySeenAt, recoveryWaiting := "none", "", 0, false;
      log := [];
    }

    method ForgetRecovery()
      modifies `recoveryNonce, `recoveryProofSeen, `recoverySeenAt, `recoveryWaiting
      ensures recoveryNonce == "none" && recoveryProofSeen == "" && recoverySeenAt == 0 && !recoveryWaiting
    {
      recoveryNonce, recoveryProofSeen, recoverySeenAt, recoveryWaiting := "none", "", 0, false;
    }

    method ForgetProgress()
      modifies `lastTick, `nextAction, `blocked, `pending
      ensures lastTick == 0 && nextAction == 0 && blocked == "" && pending.None?
    {
      lastTick, nextAction, blocked, pending := 0, 0, "", None;
    }

    /** The process dies and another one starts over the same files. */
    method Die(id: int)
      modifies this
      ensures State() == Restart(old(State()), id)
    {
      ForgetRecovery();
      ForgetProgress();
      pid, initialized, compatible, restartBlocked := id, false, false, false;
      log := log + [Restarted];
    }

    method Init(env: Env)
      modifies this
      ensures State() == old(State()).(vol := Initialize(old(Vol()), old(State()).disk, env))
    {
      if initialized { return; }
      initialized := true;
      if !env.linked { compatible := false; return; }
      compatible := env.bound;
      restartBlocked := ledger.Some?;
    }

    // ---------- capture ----------

    static method CaptureSeeds(rows: seq<SeedRow>) returns (ok: bool, seeds: seq<Seed>)
      ensures ok <==> SeedsSound(rows)
      ensures ok ==> seeds == GrownSeeds(rows)
    {
      ok, seeds := true, [];
      var ids: set<string> := {};
      var i := 0;
      while i < |rows| && ok
        invariant 0 <= i <= |rows|
        invariant ok ==> ids == set k | 0 <= k < i :: rows[k].id
        invariant ok ==> seeds == GrownSeeds(rows[..i])
        invariant ok <==> SeedsSound(rows[..i])
      {
        var row := rows[i];
        assert rows[..i + 1][i] == row && rows[..i] == rows[..i + 1][..i];
        SeedAppends(rows, i);
        if row.id == "" || row.id in ids {
          ok := false;
        } else {
          seeds := seeds + [Grown(row)];
          ids := ids + {row.id};
        }
        i := i + 1;
      }
      assert i == |rows| ==> rows[..i] == rows;
      SoundSeeds(rows, i);
    }

    static lemma SeedAppends(rows: seq<SeedRow>, i: nat)
      requires i < |rows|
      ensures SeedsSound(rows[..i + 1]) <==>
                SeedsSound(rows[..i]) && rows[i].id != "" && rows[i].id !in set k | 0 <= k < i :: rows[k].id
    {
      var a, b := rows[..i], rows[..i + 1];
      assert b == a + [rows[i]];
      assert forall k :: 0 <= k < i ==> a[k] == rows[k] && b[k] == rows[k];
      assert b[i] == rows[i];
    }

    static lemma SoundSeeds(rows: seq<SeedRow>, i: nat)
      requires i <= |rows|
      ensures SeedsSound(rows) ==> SeedsSound(rows[..i])
    {
      assert forall k :: 0 <= k < i ==> rows[..i][k] == rows[k];
    }

    static method CaptureSlots(slots: seq<Slot>, rows: seq<SeedRow>) returns (ok: bool)
      ensures ok <==> SlotsSound(slots, rows)
    {
      ok := true;
      var ids := set k | 0 <= k < |rows| :: rows[k].id;
      var indices: set<int> := {};
      var planted: set<string> := {};
      var i := 0;
      while i < |slots| && ok
        invariant 0 <= i <= |slots|
        invariant ok ==> indices == set k | 0 <= k < i :: slots[k].index
        invariant ok ==> planted == set k | 0 <= k < i && slots[k].seed != "" :: slots[k].seed
        invariant ok <==> SlotsSound(slots[..i], rows)
      {
        var slot := slots[i];
        SlotAppends(slots, i, rows);
        assert slot.seed in ids <==> Listed(rows, slot.seed);
        if slot.index in indices || (slot.seed != "" && (slot.seed !in ids || slot.seed in planted)) {
          ok := false;
        }
        indices := indices + {slot.index};
        planted := if slot.seed != "" then planted + {slot.seed} else planted;
        i := i + 1;
      }
      assert i == |slots| ==> slots[..i] == slots;
      SoundSlots(slots, i, rows);
    }

    static predicate SlotFits(slots: seq<Slot>, i: nat, rows: seq<SeedRow>)
      requires i < |slots|
    {
      && (forall k :: 0 <= k < i ==> slots[k].index != slots[i].index)
      && (slots[i].seed != "" ==> Listed(rows, slots[i].seed))
      && (forall k :: 0 <= k < i && slots[k].seed != "" ==> slots[k].seed != slots[i].seed)
    }

    static lemma SlotAppends(slots: seq<Slot>, i: nat, rows: seq<SeedRow>)
      requires i < |slots|
      ensures SlotsSound(slots[..i + 1], rows) <==> SlotsSound(slots[..i], rows) && SlotFits(slots, i, rows)
    {
      hide Listed;
      var a, b := slots[..i], slots[..i + 1];
      assert b == a + [slots[i]];
      assert forall k :: 0 <= k < i ==> a[k] == slots[k] && b[k] == slots[k];
      assert b[i] == slots[i];
    }

    static lemma SoundSlots(slots: seq<Slot>, i: nat, rows: seq<SeedRow>)
      requires i <= |slots|
      ensures SlotsSound(slots, rows) ==> SlotsSound(slots[..i], rows)
    {
      assert forall k :: 0 <= k < i ==> slots[..i][k] == slots[k];
    }

    static method CapturePikmins(ids: seq<string>) returns (ok: bool, pikmins: set<string>)
      ensures ok <==> PikminsSound(ids)
      ensures ok ==> pikmins == set id | id in ids
    {
      ok, pikmins := true, {};
      var i := 0;
      while i < |ids| && ok
        invariant 0 <= i <= |ids|
        invariant ok ==> pikmins == set id | id in ids[..i]
        invariant ok <==> PikminsSound(ids[..i])
      {
        PikminAppends(ids, i);
        if ids[i] == "" || ids[i] in pikmins { ok := false; }
        pikmins := pikmins + {ids[i]};
        i := i + 1;
      }
      assert i == |ids| ==> ids[..i] == ids;
      SoundPikmins(ids, i);
    }

    static lemma PikminAppends(ids: seq<string>, i: nat)
      requires i < |ids|
      ensures PikminsSound(ids[..i + 1]) <==> PikminsSound(ids[..i]) && ids[i] != "" && ids[i] !in ids[..i]
    {
      var a, b := ids[..i], ids[..i + 1];
      assert b == a + [ids[i]];
      assert b[i] == ids[i];
      assert forall k :: 0 <= k < i ==> b[k] == a[k];
    }

    static lemma SoundPikmins(ids: seq<string>, i: nat)
      requires i <= |ids|
      ensures PikminsSound(ids) ==> PikminsSound(ids[..i])
    {
      assert forall k :: 0 <= k < i ==> ids[..i][k] == ids[k];
    }

    /** A snapshot, if everything in it was read and is consistent. */
    static method Capture(view: View) returns (s: Option<Snapshot>)
      ensures s == Reading(view)
    {
      hide SeedsSound, SlotsSound, PikminsSound;
      var ok := view.readable && |view.seeds| <= 10000 && |view.slots| <= 8
                && |view.pikmins| <= 10000 && |view.capacities| <= 16;
      var seedsOk, seeds := CaptureSeeds(view.seeds);
      var slotsOk := CaptureSlots(view.slots, view.seeds);
      var pikminsOk, pikmins := CapturePikmins(view.pikmins);
      var capacity := -1;
      if |view.capacities| == 1 && view.capacities[0].Some? { capacity := view.capacities[0].value; }
      var complete := ok && seedsOk && slotsOk && pikminsOk
                      && |view.slots| > 0 && view.maxSlots > 0 && view.maxSlots <= 8;
      s := if complete then Some(Snapshot(seeds, pikmins, view.slots, view.maxSlots, capacity)) else None;
    }

    // ---------- recovery ----------

    /** The last slot with the index of the ledger, and whether any slot holds its seed. */
    static method FindSlot(slots: seq<Slot>, index: int, seed: string)
      returns (slot: Option<Slot>, referenced: bool)
      ensures slot == SlotAt(slots, index)
      ensures referenced <==> Referenced(slots, seed)
    {
      slot, referenced := None, false;
      var i := 0;
      while i < |slots|
        invariant 0 <= i <= |slots|
        invariant slot == SlotAt(slots[..i], index)
        invariant referenced <==> Referenced(slots[..i], seed)
      {
        assert slots[..i + 1][..i] == slots[..i] && slots[..i + 1] == slots[..i] + [slots[i]];
        ReferencedAppends(slots, i, seed);
        if slots[i].seed == seed { referenced := true; }
        if slots[i].index == index { slot := Some(slots[i]); }
        i := i + 1;
      }
      assert slots[..i] == slots;
    }

    static lemma ReferencedAppends(slots: seq<Slot>, i: nat, seed: string)
      requires i < |slots|
      ensures Referenced(slots[..i + 1], seed) <==> Referenced(slots[..i], seed) || slots[i].seed == seed
    {
      var a, b := slots[..i], slots[..i + 1];
      assert b[i] == slots[i];
      assert forall k :: 0 <= k < i ==> b[k] == a[k];
    }

    /** The proof that the inventory gives for the ledger on disk, or for the want of one. */
    method Prove(env: Env, request: Request, s: Snapshot) returns (proof: Option<string>, raw: string)
      ensures var v := JudgeLedger(Vol(), ledger, env, request, s);
              if v.Proven? then proof == Some(v.proof) && raw == v.raw else proof.None?
    {
      hide ParseLedger, Lookup, SlotAt, Referenced, Permanent;
      proof, raw := None, "";
      if ledger.Some? {
        raw := RawLedger(ledger.value, env.readable);
        var l := ParseLedger(raw);
        if l.None? || l.value != request.expected { return; }
        var slot, referenced := FindSlot(s.slots, l.value.slot, l.value.seed);
        var seed := Lookup(s.seeds, l.value.seed);
        if slot.None? || !Permanent(slot.value, s.maxSlots) { return; }
        if l.value.action == "plant" && seed.Some? && seed.value.planted > 0 && slot.value.seed == l.value.seed {
          proof := Some("plant-state-confirmed");
        } else if l.value.action == "pluck" && seed.None? && !referenced {
          proof := Some("pluck-target-retired");
        }
      } else if request.expected.sent == 0 && !restartBlocked {
        if blocked == "request-build-failed" || blocked == "audit-write-failed" {
          proof := Some("no-request-created");
        }
      }
    }

    /** Moves the ledger aside and lifts the pause. */
    method LiftPause(env: Env, key: string)
      modifies this
      ensures State() == Release(old(State()), env, key)
    {
      if ledger.Some? {
        ledger, archive := None, ledger;
        if env.dies == Some(AfterArchive) { Die(env.nextPid); return; }
      }
      LiftFlags(env.clock.released);
      log := log + [Released(recoveryNonce, key, env.clock.waited)];
    }

    method LiftFlags(now: int)
      modifies `restartBlocked, `blocked, `nextAction
      ensures !restartBlocked && blocked == "" && nextAction == now + 5000
    {
      restartBlocked, blocked, nextAction := false, "", now + 5000;
    }

    /** Waits for the same proof again, and acts on it the second time. */
    method FollowProof(env: Env, key: string)
      modifies this
      ensures State() == PlanterState.Prove(old(State()), env, key)
    {
      hide Release;
      if recoveryProofSeen != key || recoverySeenAt == 0 {
        recoveryProofSeen, recoverySeenAt, recoveryWaiting := key, env.clock.seen, true;
        return;
      }
      if env.clock.waited - recoverySeenAt < 5000 { recoveryWaiting := true; return; }
      if ledger.Some? {
        if !env.reread { recoverySeenAt := 0; return; }
        if !env.archived { recoverySeenAt := 0; return; }
      }
      LiftPause(env, key);
    }

    /** Goes on with a request that was just noted. */
    method FollowRequest(env: Env, request: Request, s: Option<Snapshot>)
      modifies this
      ensures State() == Follow(old(State()), env, Weigh(old(Vol()), old(ledger), env, request, s))
    {
      hide JudgeLedger, PlanterState.Prove;
      if !FreshRecovery(request, pid, env.clock.asked) { recoverySeenAt := 0; return; }
      if pending.Some? { recoverySeenAt := 0; return; }
      if !compatible { recoverySeenAt := 0; return; }
      if s.None? || s.value.capacity <= 0 || s.value.pikmins == {} {
        recoverySeenAt, recoveryWaiting := 0, true;
        return;
      }
      var proof, raw := Prove(env, request, s.value);
      if proof.None? { recoverySeenAt := 0; return; }
      FollowProof(env, proof.value + raw);
    }

    method Note(nonce: string)
      modifies `recoveryNonce, `recoverySeenAt, `recoveryProofSeen, `recoveryWaiting
      ensures Vol() == Noted(old(Vol()), nonce)
    {
      if nonce != recoveryNonce {
        recoveryNonce, recoverySeenAt, recoveryProofSeen := nonce, 0, "";
      }
      recoveryWaiting := false;
    }

    static lemma WeighsTheSame(vol: Volatile, nonce: string, file: Option<string>, env: Env, r: Request,
                               s: Option<Snapshot>)
      ensures Weigh(Noted(vol, nonce), file, env, r, s) == Weigh(vol, file, env, r, s)
    {
    }

    method Handle(env: Env, request: Request, s: Option<Snapshot>)
      modifies this
      ensures var v := Weigh(old(Vol()), old(ledger), env, request, s);
              State() == Follow(old(State()).(vol := Noted(old(Vol()), request.nonce)), env, v)
    {
      hide Weigh, Follow, Noted;
      WeighsTheSame(Vol(), request.nonce, ledger, env, request, s);
      Note(request.nonce);
      FollowRequest(env, request, s);
    }

    /** Without a request, one that was waiting is forgotten. */
    method Forget()
      modifies `recoveryWaiting, `recoverySeenAt
      ensures State() == old(State()).(vol := if old(Vol()).waiting then old(Vol()).(waiting := false, seenAt := 0) else old(Vol()))
    {
      if recoveryWaiting { recoveryWaiting, recoverySeenAt := false, 0; }
    }

    static lemma RecoverCases(e: Engine, env: Env, s: Option<Snapshot>)
      ensures var r := ParseRecovery(env.request);
              var n := e.(log := e.log + [LookOf(e, env, s)]);
              Recover(e, env, s) ==
                if r.None? then n.(vol := if e.vol.waiting then e.vol.(waiting := false, seenAt := 0) else e.vol)
                else if r.value.nonce == e.vol.nonce && !e.vol.waiting then n
                else Follow(n.(vol := Noted(e.vol, r.value.nonce)), env, Weigh(e.vol, e.disk.ledger, env, r.value, s))
    {
      hide ParseRecovery, Weigh, Follow, Noted;
    }

    method Recovery(env: Env, s: Option<Snapshot>)
      modifies this
      ensures State() == Recover(old(State()), env, s)
    {
      hide ParseRecovery, Weigh, Follow, Noted, Recover, LookOf;
      RecoverCases(State(), env, s);
      var request := ParseRecovery(env.request);
      log := log + [LookOf(State(), env, s)];
      if request.None? {
        Forget();
      } else if request.value.nonce != recoveryNonce || recoveryWaiting {
        Handle(env, request.value, s);
      }
    }

    // ---------- the RPC in flight ----------

    method Finish(env: Env, event: string, confirmed: bool)
      modifies this
      ensures State() == PlanterState.Finish(old(State()), env, event, confirmed)
    {
      pending := None;
      if confirmed {
        if env.removed { ledger := None; }
        if env.dies == Some(AfterRemove) { Die(env.nextPid); return; }
      } else {
        blocked := event;
      }
      nextAction := env.clock.finished + 5000;
    }

    method ConfirmPending(env: Env, s: Option<Snapshot>)
      requires pending.Some?
      modifies this
      ensures State() == Confirm(old(State()), env, s, old(pending.value))
    {
      hide Lookup, SlotAt;
      if s.None? { return; }
      var p := pending.value;
      var slot, _ := FindSlot(s.value.slots, p.slot, p.seed);
      var matched := slot.Some? && if p.action == "pluck" then slot.value.seed != p.seed else slot.value.seed == p.seed;
      var found := Lookup(s.value.seeds, p.seed);
      var confirmed := if p.action == "pluck" then found.None? && p.pikmin in s.value.pikmins && matched
                       else found.Some? && found.value.planted > 0 && matched;
      if confirmed { Finish(env, p.action + "-confirmed", true); }
    }

    /** Reads the answer of the task: an event if the RPC failed, or the pending RPC with what it brought. */
    static method ReadAnswer(answer: Answer, before: Pending) returns (reply: Reply)
      ensures reply == ReplyOf(answer, before)
    {
      var p := before;
      match answer {
        case Waiting => return Silent;
        case Failed => return Bad("rpc-failed-review-required");
        case Refused => return Bad("server-rejected-review-required");
        case Answered(ids) =>
          if p.action == "pluck" {
            if |ids| != 1 { return Bad("unexpected-response-review-required"); }
            p := p.(pikmin := ids[0]);
            if p.pikmin == "" || p.pikmin in p.before { return Bad("missing-new-pikmin-review-required"); }
          }
          p := p.(responded := true);
          return Good(p);
      }
    }

    method ObservePending(env: Env, s: Option<Snapshot>)
      requires pending.Some?
      modifies this
      ensures State() == Observe(old(State()), env, s, old(pending.value))
    {
      hide Confirm, PlanterState.Finish, ReplyOf;
      if !pending.value.responded {
        var reply := ReadAnswer(env.answer, pending.value);
        if reply.Silent? { return; }
        if reply.Bad? { Finish(env, reply.event, false); return; }
        pending := Some(reply.p);
      }
      ConfirmForgets(old(State()), State(), env, s, pending.value);
      ConfirmPending(env, s);
    }

    static lemma ConfirmForgets(e: Engine, e': Engine, env: Env, s: Option<Snapshot>, p: Pending)
      requires e' == e.(vol := e.vol.(pending := Some(p)))
      ensures Confirm(e', env, s, p) == Confirm(e, env, s, p)
    {
    }

    // ---------- the choice ----------

    static method ChooseSeed(s: Snapshot, steps: set<nat>) returns (best: Option<Seed>)
      ensures best == Best(s.seeds, s, steps)
    {
      hide Plantable, Better;
      best := None;
      var i := 0;
      while i < |s.seeds|
        invariant 0 <= i <= |s.seeds|
        invariant best == Best(s.seeds[..i], s, steps)
      {
        assert s.seeds[..i + 1][..i] == s.seeds[..i];
        var seed := s.seeds[i];
        if Plantable(seed, s, steps) && (best.None? || Better(seed, best.value)) { best := Some(seed); }
        i := i + 1;
      }
      assert s.seeds[..i] == s.seeds;
    }

    static method ChoosePluck(s: Snapshot) returns (pick: Option<Pick>)
      ensures pick == FirstRipe(s.slots, s)
    {
      var i := 0;
      while i < |s.slots|
        invariant 0 <= i <= |s.slots|
        invariant FirstRipe(s.slots, s) == FirstRipe(s.slots[i..], s)
      {
        var slot := s.slots[i];
        assert s.slots[i..][1..] == s.slots[i + 1..];
        if Permanent(slot, s.maxSlots) {
          var found := Lookup(s.seeds, slot.seed);
          if found.Some? && found.value.ready && !found.value.special {
            return Some(Pick("pluck", found.value, slot));
          }
        }
        i := i + 1;
      }
      return None;
    }

    static method ChoosePlant(s: Snapshot, steps: set<nat>) returns (pick: Option<Pick>)
      ensures var slot, seed := FirstFree(s.slots, s), Best(s.seeds, s, steps);
              pick == if slot.Some? && seed.Some? then Some(Pick("plant", seed.value, slot.value)) else None
    {
      hide Best;
      var i := 0;
      ghost var best := Best(s.seeds, s, steps);
      while i < |s.slots|
        invariant 0 <= i <= |s.slots|
        invariant i > 0 && best.Some? ==> FirstFree(s.slots, s) == FirstFree(s.slots[i..], s)
      {
        var slot := s.slots[i];
        assert s.slots[i..][1..] == s.slots[i + 1..];
        assert i == 0 ==> s.slots[i..] == s.slots;
        if slot.seed == "" && Permanent(slot, s.maxSlots) {
          var seed := ChooseSeed(s, steps);
          if seed.Some? { return Some(Pick("plant", seed.value, slot)); }
        }
        i := i + 1;
      }
      return None;
    }

    static method Choose(s: Snapshot, auto: bool, steps: set<nat>) returns (pick: Option<Pick>)
      ensures pick == Choice(s, auto, steps)
    {
      hide FirstRipe, FirstFree, Best;
      pick := ChoosePluck(s);
      if pick.None? && auto { pick := ChoosePlant(s, steps); }
    }

    // ---------- sending ----------

    /** Builds the request, writes the ledger, and only then submits the RPC. */
    method StartAction(env: Env, pick: Pick, s: Snapshot)
      requires pending.None?
      modifies this
      ensures State() == Start(old(State()), env, pick, s)
    {
      hide Render, Submit;
      if !env.built { blocked := "request-build-failed"; return; }
      var sent := env.clock.sent;
      if !env.wrote { blocked := "audit-write-failed"; return; }
      ledger := Some(Render(LedgerOf(pick, sent)));
      if env.dies == Some(AfterWrite) { Die(env.nextPid); return; }
      SubmitAction(env, pick, s);
    }

    method SubmitAction(env: Env, pick: Pick, s: Snapshot)
      requires pending.None?
      modifies this
      ensures State() == Submit(old(State()), env, pick, s)
    {
      var sent := env.clock.sent;
      log := log + [Sent(pick.action, pick.seed.id, pick.slot.index, sent)];
      if env.dies == Some(AfterCall) { Die(env.nextPid); return; }
      if !env.called { blocked := "rpc-start-uncertain-review-required"; return; }
      if !env.rooted { blocked := "task-root-failed"; return; }
      pending := Some(Pending(sent, pick.action, pick.seed.id, pick.slot.index, "", s.pikmins, false));
    }

    // ---------- one tick ----------

    method Proceed(env: Env, s: Option<Snapshot>)
      modifies this
      ensures State() == Act(old(State()), env, s)
    {
      hide Observe, Start, Choice;
      if recoveryWaiting { return; }
      if restartBlocked { return; }
      if blocked != "" { return; }
      if pending.Some? { ObservePending(env, s); return; }
      if s.None? { return; }
      if env.mode == Off { return; }
      if env.clock.gate < nextAction { return; }
      if !StorageRoom(|s.value.pikmins|, s.value.capacity) { return; }
      var pick := Choose(s.value, env.mode == Auto, env.steps);
      if pick.Some? { StartAction(env, pick.value, s.value); }
    }

    method Tick(env: Env)
      modifies this
      ensures State() == PlanterState.Tick(old(State()), env)
    {
      hide Recover, Act, Reading;
      if !env.ready || env.clock.guard - lastTick < 5000 { return; }
      lastTick := env.clock.stamp;
      Init(env);
      InitForgets(old(Vol()), env.clock.stamp, old(State()).disk, env);
      if !compatible { return; }
      var s := Capture(env.view);
      Recovery(env, s);
      if !initialized { return; }
      Proceed(env, s);
    }

    static lemma InitForgets(vol: Volatile, stamp: int, disk: Disk, env: Env)
      ensures Initialize(vol.(lastTick := stamp), disk, env) == Initialize(vol, disk, env).(lastTick := stamp)
    {
    }
  }
}
