/** When the planter sends an RPC and which, told from the inventory and the settings that the tick reads. */
module PlanterSends {
  import opened LedgerText
  import opened Options
  import opened PlanterState
  import opened PlanterChoice
  import S = PlanterSafety

  // ---------- the inventory as it is read ----------

  /** Everything was read, the lists are of the sizes that the game allows, ids are present and distinct, and every
      seed in a slot is listed and in no other slot. */
  ghost predicate Sensible(view: View) {
    && view.readable
    && |view.seeds| <= 10000 && 1 <= |view.slots| <= 8 && |view.pikmins| <= 10000 && |view.capacities| <= 16
    && 1 <= view.maxSlots <= 8
    && (forall i :: 0 <= i < |view.seeds| ==> view.seeds[i].id != "")
    && (forall i, j :: 0 <= i < j < |view.seeds| ==> view.seeds[i].id != view.seeds[j].id)
    && (forall i, j :: 0 <= i < j < |view.slots| ==> view.slots[i].index != view.slots[j].index)
    && (forall i, j :: 0 <= i < j < |view.slots| ==> view.slots[i].seed != view.slots[j].seed || view.slots[i].seed == "")
    && (forall k :: 0 <= k < |view.slots| ==> view.slots[k].seed == "" || SeedListed(view, view.slots[k].seed))
    && (forall i :: 0 <= i < |view.pikmins| ==> view.pikmins[i] != "")
    && (forall i, j :: 0 <= i < j < |view.pikmins| ==> view.pikmins[i] != view.pikmins[j])
  }

  ghost predicate SeedListed(view: View, id: string) {
    exists i :: 0 <= i < |view.seeds| && view.seeds[i].id == id
  }

  /** Exactly one capacity was found, it is believable, and another Pikmin fits. */
  predicate Room(view: View) {
    && |view.capacities| == 1 && view.capacities[0].Some?
    && |view.pikmins| < view.capacities[0].value <= 100000
  }

  predicate Permanently(view: View, k: int)
    requires 0 <= k < |view.slots|
  {
    view.slots[k].kind == 0 && 0 <= view.slots[k].index < view.maxSlots
  }

  /** The row is planted, has all its steps, is ready for the game as well, and is no special seed. */
  predicate Ripened(row: SeedRow) {
    row.planted > 0 && row.required > 0 && row.steps >= row.required && row.nativeReady && !row.special
  }

  ghost predicate RipeSlot(view: View, k: int) {
    0 <= k < |view.slots| && Permanently(view, k)
    && exists i :: 0 <= i < |view.seeds| && view.seeds[i].id == view.slots[k].seed && Ripened(view.seeds[i])
  }

  ghost predicate SomeRipe(view: View) {
    exists k :: RipeSlot(view, k)
  }

  ghost predicate FirstRipeSlot(view: View, k: int) {
    RipeSlot(view, k) && forall j :: 0 <= j < k ==> !RipeSlot(view, j)
  }

  predicate EmptySlot(view: View, k: int) {
    0 <= k < |view.slots| && Permanently(view, k) && view.slots[k].seed == ""
  }

  ghost predicate SomeEmpty(view: View) {
    exists k :: EmptySlot(view, k)
  }

  ghost predicate FirstEmptySlot(view: View, k: int) {
    EmptySlot(view, k) && forall j :: 0 <= j < k ==> !EmptySlot(view, j)
  }

  /** The user's choice of seeds, one bit for each of five step counts and one for all others. */
  predicate Wanted(required: int, steps: set<nat>) {
    || (required == 100 && 1 in steps) || (required == 1000 && 2 in steps) || (required == 3000 && 4 in steps)
    || (required == 5000 && 8 in steps) || (required == 10000 && 16 in steps)
    || (required > 0 && required !in {100, 1000, 3000, 5000, 10000} && 32 in steps)
  }

  /** The row is wanted, unplanted, in no slot, not starred, not special, and has a point. */
  ghost predicate Plants(view: View, i: int, steps: set<nat>) {
    && 0 <= i < |view.seeds|
    && var row := view.seeds[i];
       && Wanted(row.required, steps) && row.planted == 0 && !row.starred && !row.special && row.point
       && forall k :: 0 <= k < |view.slots| ==> view.slots[k].seed != row.id
  }

  ghost predicate SomePlants(view: View, steps: set<nat>) {
    exists i :: Plants(view, i, steps)
  }

  /** The strings differ first at n, where a has ended or has the smaller character. */
  predicate PrecedesAt(a: string, b: string, n: int) {
    0 <= n <= |a| && n < |b| && a[..n] == b[..n] && (n == |a| || a[n] < b[n])
  }

  ghost predicate Precedes(a: string, b: string) {
    exists n :: PrecedesAt(a, b, n)
  }

  /** Fewer steps, or as many and the smaller id. */
  ghost predicate Sooner(a: SeedRow, b: SeedRow) {
    a.required < b.required || (a.required == b.required && Precedes(a.id, b.id))
  }

  ghost predicate BestRow(view: View, i: int, steps: set<nat>) {
    Plants(view, i, steps)
    && forall j :: 0 <= j < |view.seeds| && Plants(view, j, steps) ==> !Sooner(view.seeds[j], view.seeds[i])
  }

  // ---------- the process and the tick ----------

  /** The process goes on: it is bound, or binds itself now over no ledger, nothing blocks it, nothing is in flight, and
      the time has come. */
  predicate Unhindered(e: Engine, env: Env) {
    && env.ready && env.clock.guard - e.vol.lastTick >= 5000
    && (if e.vol.initialized then e.vol.compatible && !e.vol.restartBlocked
        else env.linked && env.bound && e.disk.ledger.None?)
    && e.vol.blocked == "" && e.vol.pending.None? && env.clock.gate >= e.vol.nextAction
  }

  /** The tick finds no recovery request, or only the one that it has dealt with. */
  predicate NoNewRequest(e: Engine, env: Env) {
    var r := ParseRecovery(env.request);
    r.Some? ==> r.value.nonce == e.vol.nonce && !e.vol.waiting
  }

  /** Another Pikmin fits, the RPC is built, its ledger written, and the process alive until then. */
  predicate CanSend(env: Env) {
    Room(env.view) && env.built && env.wrote && env.dies != Some(AfterWrite)
  }

  ghost predicate PluckDue(env: Env) {
    (env.mode == Pluck || env.mode == Auto) && Sensible(env.view) && CanSend(env) && SomeRipe(env.view)
  }

  ghost predicate PlantDue(env: Env) {
    && env.mode == Auto && Sensible(env.view) && CanSend(env) && !SomeRipe(env.view)
    && SomeEmpty(env.view) && SomePlants(env.view, env.steps)
  }

  /** The RPC is that for the first ripe slot. */
  ghost predicate RightPluck(env: Env, ev: Event)
    requires ev.Sent?
  {
    ev.at == env.clock.sent && exists k :: FirstRipeSlot(env.view, k) && ev.seed == env.view.slots[k].seed && ev.slot == env.view.slots[k].index
  }

  /** The RPC is that for the best seed and the first empty slot. */
  ghost predicate RightPlant(env: Env, ev: Event)
    requires ev.Sent?
  {
    && ev.at == env.clock.sent
    && (exists k :: FirstEmptySlot(env.view, k) && ev.slot == env.view.slots[k].index)
    && (exists i :: BestRow(env.view, i, env.steps) && ev.seed == env.view.seeds[i].id)
  }

  ghost predicate RightSend(env: Env, ev: Event)
    requires ev.Sent?
  {
    (ev.action == "pluck" && PluckDue(env) && RightPluck(env, ev))
    || (ev.action == "plant" && PlantDue(env) && RightPlant(env, ev))
  }

  ghost predicate Sends(e: Engine, r: Engine, action: string) {
    exists k :: |e.log| <= k < |r.log| && r.log[k].Sent? && r.log[k].action == action
  }

  // ---------- the model's inventory is that of the view ----------

  lemma SensibleIsConsistent(view: View)
    ensures Sensible(view) <==> Consistent(view)
  {
  }

  lemma RoomIs(view: View)
    requires Consistent(view)
    ensures StorageRoom(|SnapshotOf(view).pikmins|, SnapshotOf(view).capacity) <==> Room(view)
  {
    DistinctCount(view.pikmins);
  }

  lemma {:induction false} DistinctCount(ids: seq<string>)
    requires forall i, j :: 0 <= i < j < |ids| ==> ids[i] != ids[j]
    ensures |set id | id in ids| == |ids|
  {
    if ids != [] {
      var last, rest := ids[|ids| - 1], ids[..|ids| - 1];
      DistinctCount(rest);
      assert (set id | id in ids) == (set id | id in rest) + {last};
    }
  }

  lemma RowFound(view: View, id: string, i: int)
    requires Consistent(view) && 0 <= i < |view.seeds| && view.seeds[i].id == id
    ensures Lookup(SnapshotOf(view).seeds, id) == Some(Grown(view.seeds[i]))
  {
    hide Mature;
    var seeds := SnapshotOf(view).seeds;
    assert seeds[i] == Grown(view.seeds[i]);
    assert S.DistinctIds(seeds);
    S.LookupListed(seeds, seeds[i]);
  }

  lemma RipeIs(view: View, k: int)
    requires Consistent(view) && 0 <= k < |view.slots|
    ensures Ripe(view.slots[k], SnapshotOf(view)) <==> RipeSlot(view, k)
  {
    hide Lookup;
    var s, id := SnapshotOf(view), view.slots[k].seed;
    var r := Lookup(s.seeds, id);
    if r.Some? {
      var i :| 0 <= i < |s.seeds| && s.seeds[i] == r.value;
      assert view.seeds[i].id == id;
    }
    forall i | 0 <= i < |view.seeds| && view.seeds[i].id == id
      ensures r == Some(Grown(view.seeds[i]))
    {
      RowFound(view, id, i);
    }
  }

  lemma WantedIs(required: int, steps: set<nat>)
    ensures Wanted(required, steps) <==> StepBit(required) in steps && StepBit(required) != 0
  {
  }

  lemma PlantsIs(view: View, i: int, steps: set<nat>)
    requires Consistent(view) && 0 <= i < |view.seeds|
    ensures Plants(view, i, steps) <==> Plantable(Grown(view.seeds[i]), SnapshotOf(view), steps)
  {
    hide StepBit, Wanted, Mature;
    WantedIs(view.seeds[i].required, steps);
    NoBitForNothing(view.seeds[i].required);
  }

  lemma NoBitForNothing(required: int)
    ensures required <= 0 ==> StepBit(required) == 0
  {
  }

  lemma SameStart(a: string, b: string, n: int)
    requires PrecedesAt(a, b, n) && n > 0
    ensures a != "" && b != "" && a[0] == b[0]
  {
    assert a[..n][0] == a[0] && b[..n][0] == b[0];
  }

  lemma {:induction false} PrecedesIs(a: string, b: string)
    ensures Precedes(a, b) <==> Less(a, b)
  {
    if a == "" || b == "" || a[0] != b[0] {
      if Less(a, b) { assert PrecedesAt(a, b, 0); }
      if Precedes(a, b) {
        var n :| PrecedesAt(a, b, n);
        if n > 0 { SameStart(a, b, n); }
      }
    } else {
      PrecedesIs(a[1..], b[1..]);
      if Less(a, b) {
        var n :| PrecedesAt(a[1..], b[1..], n);
        assert a[..n + 1] == [a[0]] + a[1..][..n] && b[..n + 1] == [b[0]] + b[1..][..n];
        assert PrecedesAt(a, b, n + 1);
      }
      if Precedes(a, b) {
        var n :| PrecedesAt(a, b, n);
        assert a[1..][..n - 1] == a[..n][1..] && b[1..][..n - 1] == b[..n][1..];
        assert PrecedesAt(a[1..], b[1..], n - 1);
      }
    }
  }

  lemma SoonerIs(a: SeedRow, b: SeedRow)
    ensures Sooner(a, b) <==> Better(Grown(a), Grown(b))
  {
    hide Less, Precedes, Mature;
    PrecedesIs(a.id, b.id);
  }

  // ---------- the model's choice ----------

  predicate Picks(view: View, k: int, pick: Pick)
    requires 0 <= k < |view.slots|
  {
    pick.seed.id == view.slots[k].seed && pick.slot == view.slots[k]
  }

  lemma RipeChoice(view: View)
    requires Consistent(view)
    ensures var s := SnapshotOf(view); var r := FirstRipe(s.slots, s);
            && (r.Some? <==> SomeRipe(view))
            && (r.Some? ==> r.value.action == "pluck" && exists k :: FirstRipeSlot(view, k) && Picks(view, k, r.value))
  {
    hide RipeSlot, FirstRipe, Lookup, Permanent;
    var s := SnapshotOf(view);
    var r := FirstRipe(s.slots, s);
    RipeIsFirst(s.slots, s);
    forall k | 0 <= k < |view.slots|
      ensures Ripe(view.slots[k], s) <==> RipeSlot(view, k)
    {
      RipeIs(view, k);
    }
    if r.Some? {
      var k :| 0 <= k < |s.slots| && Ripe(s.slots[k], s) && (forall j :: 0 <= j < k ==> !Ripe(s.slots[j], s))
               && r == Some(Pick("pluck", Lookup(s.seeds, s.slots[k].seed).value, s.slots[k]));
      assert RipeSlot(view, k);
      RipeSeed(view, k);
      assert FirstRipeSlot(view, k) && Picks(view, k, r.value);
    } else if SomeRipe(view) {
      var k :| RipeSlot(view, k);
      RipeSlotInside(view, k);
    }
  }

  lemma RipeSlotInside(view: View, k: int)
    requires RipeSlot(view, k)
    ensures 0 <= k < |view.slots|
  {
  }

  lemma RipeSeed(view: View, k: int)
    requires Consistent(view) && 0 <= k < |view.slots| && RipeSlot(view, k)
    ensures var r := Lookup(SnapshotOf(view).seeds, view.slots[k].seed); r.Some? && r.value.id == view.slots[k].seed
  {
    hide Lookup;
    var i :| 0 <= i < |view.seeds| && view.seeds[i].id == view.slots[k].seed && Ripened(view.seeds[i]);
    RowFound(view, view.slots[k].seed, i);
  }

  lemma EmptyIs(view: View, k: int)
    requires Consistent(view) && 0 <= k < |view.slots|
    ensures Free(view.slots[k], SnapshotOf(view)) <==> EmptySlot(view, k)
  {
  }

  lemma EmptyChoice(view: View)
    requires Consistent(view)
    ensures var s := SnapshotOf(view); var r := FirstFree(s.slots, s);
            && (r.Some? <==> SomeEmpty(view))
            && (r.Some? ==> exists k :: FirstEmptySlot(view, k) && r.value == view.slots[k])
  {
    hide Free, FirstFree, EmptySlot;
    var s := SnapshotOf(view);
    var r := FirstFree(s.slots, s);
    FreeIsFirst(s.slots, s);
    forall k | 0 <= k < |view.slots|
      ensures Free(view.slots[k], s) <==> EmptySlot(view, k)
    {
      EmptyIs(view, k);
    }
    if r.Some? {
      var k :| 0 <= k < |s.slots| && Free(s.slots[k], s) && (forall j :: 0 <= j < k ==> !Free(s.slots[j], s))
               && r == Some(s.slots[k]);
      assert FirstEmptySlot(view, k);
    } else if SomeEmpty(view) {
      var k :| EmptySlot(view, k);
      assert 0 <= k < |view.slots| by { EmptySlotInside(view, k); }
    }
  }

  lemma EmptySlotInside(view: View, k: int)
    requires EmptySlot(view, k)
    ensures 0 <= k < |view.slots|
  {
  }

  lemma BestChoice(view: View, steps: set<nat>)
    requires Consistent(view)
    ensures var s := SnapshotOf(view); var r := Best(s.seeds, s, steps);
            && (r.Some? <==> SomePlants(view, steps))
            && (r.Some? ==> exists i :: BestRow(view, i, steps) && r.value.id == view.seeds[i].id)
  {
    hide Plantable, Plants, Better, Sooner, Best, Mature;
    var s := SnapshotOf(view);
    var r := Best(s.seeds, s, steps);
    BestIsLeast(s.seeds, s, steps);
    forall i | 0 <= i < |view.seeds|
      ensures s.seeds[i] in s.seeds && (Plants(view, i, steps) <==> Plantable(s.seeds[i], s, steps))
    {
      PlantsIs(view, i, steps);
    }
    if r.Some? {
      var i :| 0 <= i < |s.seeds| && s.seeds[i] == r.value;
      assert Plants(view, i, steps);
      forall j | 0 <= j < |view.seeds| && Plants(view, j, steps)
        ensures !Sooner(view.seeds[j], view.seeds[i])
      {
        SoonerIs(view.seeds[j], view.seeds[i]);
      }
      assert BestRow(view, i, steps);
    } else if SomePlants(view, steps) {
      var i :| Plants(view, i, steps);
      PlantsInside(view, i, steps);
    }
  }

  lemma PlantsInside(view: View, i: int, steps: set<nat>)
    requires Plants(view, i, steps)
    ensures 0 <= i < |view.seeds|
  {
  }

  // ---------- the tick ----------

  /** What is added to the log is one RPC at most, and the right one; and it is one if that is asked for. */
  ghost predicate Adds(env: Env, log: seq<Event>, longer: seq<Event>, due: bool) {
    if due && (PluckDue(env) || PlantDue(env)) then
      && log < longer && longer[|log|].Sent? && RightSend(env, longer[|log|])
      && forall k :: |log| < k < |longer| ==> !longer[k].Sent?
    else log <= longer && forall k :: |log| <= k < |longer| ==> !longer[k].Sent?
  }

  lemma DecideSends(e: Engine, env: Env)
    requires Consistent(env.view)
    ensures Adds(env, e.log, Decide(e, env, SnapshotOf(env.view)).log, env.clock.gate >= e.vol.nextAction)
  {
    hide Reading, FirstRipe, FirstFree, Best, StorageRoom, Render, Sensible, SomeRipe, SomeEmpty, SomePlants, Room,
         FirstRipeSlot, FirstEmptySlot, BestRow, Consistent;
    SensibleIsConsistent(env.view);
    RoomIs(env.view);
    RipeChoice(env.view);
    EmptyChoice(env.view);
    BestChoice(env.view, env.steps);
  }

  lemma ActSends(e: Engine, env: Env)
    ensures Adds(env, e.log, Act(e, env, Reading(env.view)).log,
                 !Paused(e.vol) && e.vol.pending.None? && env.clock.gate >= e.vol.nextAction)
  {
    hide Decide, Paused, Consistent, PluckDue, PlantDue, RightSend, Confirmed, ReplyOf;
    SensibleIsConsistent(env.view);
    assert PluckDue(env) || PlantDue(env) ==> Sensible(env.view) by { DueIsSensible(env); }
    if Consistent(env.view) { DecideSends(e, env); }
  }

  lemma DueIsSensible(env: Env)
    ensures PluckDue(env) || PlantDue(env) ==> Sensible(env.view)
  {
    hide Sensible, SomeRipe, SomeEmpty, SomePlants, CanSend;
  }

  lemma RecoverAdds(e: Engine, env: Env, s: Option<Snapshot>)
    ensures var r := Recover(e, env, s);
            e.log <= r.log && forall k :: |e.log| <= k < |r.log| ==> !r.log[k].Sent?
  {
    hide Judge, FirstSight;
  }

  lemma QuietRecovers(e: Engine, env: Env, s: Option<Snapshot>)
    requires NoNewRequest(e, env)
    ensures var r := Recover(e, env, s);
            && r.vol.initialized == e.vol.initialized && r.vol.compatible == e.vol.compatible && !r.vol.waiting
            && r.vol.restartBlocked == e.vol.restartBlocked && r.vol.blocked == e.vol.blocked
            && r.vol.pending == e.vol.pending && r.vol.nextAction == e.vol.nextAction && r.disk == e.disk
  {
    hide Weigh, ParseRecovery;
  }

  ghost predicate NewSent(e: Engine, r: Engine, k: int) {
    |e.log| <= k < |r.log| && r.log[k].Sent?
  }

  /** Whatever happens in a tick, it sends one RPC at most, and only the one that the inventory and the mode call for:
      nothing in mode off, a plant in mode auto only and only when there is nothing to pluck. */
  lemma SentIsRight(e: Engine, env: Env)
    ensures var r := Tick(e, env);
            && e.log <= r.log
            && (forall k :: NewSent(e, r, k) ==> RightSend(env, r.log[k]))
            && (forall j, k :: NewSent(e, r, j) && NewSent(e, r, k) ==> j == k)
  {
    hide Act, Recover, Reading, RightSend, PluckDue, PlantDue, Paused;
    var b := Begin(e, env);
    if Captures(e, env) {
      var s := Reading(env.view);
      RecoverAdds(b, env, s);
      ActSends(Recover(b, env, s), env);
    }
  }

  /** A process that nothing hinders sends an RPC exactly when there is one to send. */
  lemma SendsExactly(e: Engine, env: Env)
    requires NoNewRequest(e, env)
    ensures Sends(e, Tick(e, env), "pluck") <==> Unhindered(e, env) && PluckDue(env)
    ensures Sends(e, Tick(e, env), "plant") <==> Unhindered(e, env) && PlantDue(env)
  {
    hide Act, Recover, Reading, RightPluck, RightPlant, Sensible, SomeRipe, CanSend, ParseRecovery, SomeEmpty, SomePlants;
    SentIsRight(e, env);
    var r := Tick(e, env);
    if Captures(e, env) {
      var b := Begin(e, env);
      var s := Reading(env.view);
      QuietRecovers(b, env, s);
      RecoverAdds(b, env, s);
      ActSends(Recover(b, env, s), env);
    }
    if Unhindered(e, env) && (PluckDue(env) || PlantDue(env)) {
      assert Captures(e, env);
      var k := |Recover(Begin(e, env), env, Reading(env.view)).log|;
      assert NewSent(e, r, k);
    }
  }
}
