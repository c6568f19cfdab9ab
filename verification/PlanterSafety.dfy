/** Over every run, with crashes at any point, a seed is plucked at most once and planted at most once. */
module PlanterSafety {
  import opened LedgerText
  import opened Options
  import opened PlanterState

  // ---------- evidence ----------

  /** A complete snapshot that shows what an RPC was to do: the seed is gone, or it is planted. */
  ghost predicate Proves(ev: Event, action: string, seed: string) {
    && ev.Looked? && ev.reading.Some?
    && var found := Lookup(ev.reading.value.seeds, seed);
       if action == "pluck" then found.None? else found.Some? && found.value.planted > 0
  }

  /** A complete snapshot that shows the seed as an RPC needs it: present, and not planted yet if it is to be. */
  ghost predicate Calls(ev: Event, action: string, seed: string) {
    && ev.Looked? && ev.reading.Some?
    && var found := Lookup(ev.reading.value.seeds, seed);
       found.Some? && (action == "plant" ==> found.value.planted == 0)
  }

  /** The RPC sent at i is seen done before n. */
  ghost predicate Settled(log: seq<Event>, i: int, n: int)
    requires 0 <= i < |log| && log[i].Sent? && n <= |log|
  {
    exists k :: i < k < n && Proves(log[k], log[i].action, log[i].seed)
  }

  ghost predicate LastSent(log: seq<Event>, i: int)
    requires 0 <= i < |log|
  {
    forall k :: i < k < |log| ==> !log[k].Sent?
  }

  function LedgerAt(ev: Event): Ledger
    requires ev.Sent?
  {
    Ledger(ev.at, ev.action, ev.seed, ev.slot)
  }

  /** The process cannot send anything before the RPC is resolved. */
  ghost predicate Held(vol: Volatile, action: string, seed: string) {
    || !vol.initialized || !vol.compatible || vol.restartBlocked || vol.blocked != ""
    || (vol.pending.Some? && vol.pending.value.action == action && vol.pending.value.seed == seed)
  }

  /** The RPC sent at i is the last one, its ledger is on disk, and the process is held. */
  ghost predicate Outstanding(e: Engine, i: int)
    requires 0 <= i < |e.log| && e.log[i].Sent?
  {
    && LastSent(e.log, i)
    && e.disk.ledger == Some(Render(LedgerAt(e.log[i])))
    && Held(e.vol, e.log[i].action, e.log[i].seed)
  }

  ghost predicate WellSent(ev: Event)
    requires ev.Sent?
  {
    (ev.action == "pluck" || ev.action == "plant") && Legible(LedgerAt(ev))
  }

  /** The last capture before j showed a seed that calls for the RPC sent at j. */
  ghost predicate CalledFor(log: seq<Event>, j: int)
    requires 0 <= j < |log| && log[j].Sent?
  {
    exists m :: 0 <= m < j && Calls(log[m], log[j].action, log[j].seed) && NoLookBetween(log, m, j)
  }

  ghost predicate NoLookBetween(log: seq<Event>, m: int, n: int)
    requires 0 <= m && n <= |log|
  {
    forall k :: m < k < n ==> !log[k].Looked?
  }

  ghost predicate AllKnown(e: Engine) {
    forall i :: 0 <= i < |e.log| && e.log[i].Sent? && Faithful(e.log[i].seed) ==>
      Settled(e.log, i, |e.log|) || Outstanding(e, i)
  }

  ghost predicate InTurn(log: seq<Event>) {
    forall i, j :: 0 <= i < j < |log| && log[i].Sent? && log[j].Sent? && Faithful(log[i].seed) ==> Settled(log, i, j)
  }

  ghost predicate AllCalledFor(log: seq<Event>) {
    forall j :: 0 <= j < |log| && log[j].Sent? ==> WellSent(log[j]) && CalledFor(log, j)
  }

  ghost predicate Invariant(e: Engine) {
    AllKnown(e) && InTurn(e.log) && AllCalledFor(e.log)
  }

  /** The snapshot is that of the last capture, and nothing was sent since. */
  ghost predicate LastLook(log: seq<Event>, s: Option<Snapshot>) {
    exists m :: LooksAt(log, m, s)
  }

  ghost predicate LooksAt(log: seq<Event>, m: int, s: Option<Snapshot>) {
    && 0 <= m < |log| && log[m].Looked? && log[m].reading == s
    && forall k :: m < k < |log| ==> !log[k].Looked? && !log[k].Sent?
  }

  // ---------- keeping the invariant while nothing is sent ----------

  lemma SettledExtends(log: seq<Event>, tail: seq<Event>, i: int, n: int)
    requires 0 <= i < |log| && log[i].Sent? && n <= |log|
    requires Settled(log, i, n)
    ensures forall m :: n <= m <= |log + tail| ==> Settled(log + tail, i, m)
  {
    var k :| i < k < n && Proves(log[k], log[i].action, log[i].seed);
    assert (log + tail)[k] == log[k];
  }

  lemma InTurnExtends(log: seq<Event>, tail: seq<Event>)
    requires InTurn(log) && NoSends(tail)
    ensures InTurn(log + tail)
  {
    hide Settled;
    var longer := log + tail;
    forall i, j | 0 <= i < j < |longer| && longer[i].Sent? && longer[j].Sent? && Faithful(longer[i].seed)
      ensures Settled(longer, i, j)
    {
      SentBefore(log, tail, j);
      assert Settled(log, i, j);
      SettledExtends(log, tail, i, j);
    }
  }

  lemma CalledForExtends(log: seq<Event>, tail: seq<Event>, j: int)
    requires 0 <= j < |log| && log[j].Sent? && CalledFor(log, j)
    ensures CalledFor(log + tail, j)
  {
    var m :| 0 <= m < j && Calls(log[m], log[j].action, log[j].seed) && NoLookBetween(log, m, j);
    var longer := log + tail;
    assert longer[m] == log[m] && longer[j] == log[j];
    assert NoLookBetween(longer, m, j);
  }

  lemma AllCalledForExtends(log: seq<Event>, tail: seq<Event>)
    requires AllCalledFor(log) && NoSends(tail)
    ensures AllCalledFor(log + tail)
  {
    hide CalledFor, WellSent;
    var longer := log + tail;
    forall j | 0 <= j < |longer| && longer[j].Sent? ensures WellSent(longer[j]) && CalledFor(longer, j) {
      SentBefore(log, tail, j);
      CalledForExtends(log, tail, j);
    }
  }

  /** An RPC that was outstanding still is, or is seen done. */
  ghost predicate Carried(e: Engine, e': Engine, i: int)
    requires 0 <= i < |e.log| <= |e'.log| && e.log[i].Sent? && e'.log[i].Sent?
  {
    Outstanding(e, i) ==> Outstanding(e', i) || Settled(e'.log, i, |e'.log|)
  }

  lemma KeepInvariant(e: Engine, e': Engine, tail: seq<Event>)
    requires Invariant(e) && e'.log == e.log + tail && NoSends(tail)
    requires forall i :: 0 <= i < |e.log| && e.log[i].Sent? ==> Carried(e, e', i)
    ensures Invariant(e')
  {
    hide Settled, CalledFor, WellSent, Outstanding;
    InTurnExtends(e.log, tail);
    AllCalledForExtends(e.log, tail);
    forall i | 0 <= i < |e'.log| && e'.log[i].Sent? && Faithful(e'.log[i].seed)
      ensures Settled(e'.log, i, |e'.log|) || Outstanding(e', i)
    {
      SentBefore(e.log, tail, i);
      if Settled(e.log, i, |e.log|) {
        SettledExtends(e.log, tail, i, |e.log|);
      } else {
        assert Carried(e, e', i);
      }
    }
  }

  /** The disk is as it was, and whoever was held still is. */
  lemma KeepHeld(e: Engine, e': Engine, tail: seq<Event>)
    requires Invariant(e) && e'.log == e.log + tail && NoSends(tail) && e'.disk.ledger == e.disk.ledger
    requires forall action, seed :: Held(e.vol, action, seed) && e.disk.ledger.Some? ==> Held(e'.vol, action, seed)
    ensures Invariant(e')
  {
    hide Held, Invariant;
    forall i | 0 <= i < |e.log| && e.log[i].Sent? ensures Carried(e, e', i) {
      if Outstanding(e, i) {
        StillLast(e.log, tail, i);
      }
    }
    KeepInvariant(e, e', tail);
  }

  lemma StillLast(log: seq<Event>, tail: seq<Event>, i: int)
    requires 0 <= i < |log| && LastSent(log, i) && NoSends(tail)
    ensures LastSent(log + tail, i)
  {
    var longer := log + tail;
    forall k | i < k < |longer| ensures !longer[k].Sent? {
      SentBefore(log, tail, k);
    }
  }

  lemma RestartKeeps(e: Engine, pid: int)
    requires Invariant(e)
    ensures Invariant(Restart(e, pid))
  {
    hide Invariant;
    KeepHeld(e, Restart(e, pid), [Restarted]);
  }

  lemma BeginKeeps(e: Engine, env: Env)
    requires Invariant(e)
    ensures Invariant(Begin(e, env))
  {
    hide Invariant;
    assert e.log + [] == e.log;
    KeepHeld(e, Begin(e, env), []);
  }

  // ---------- recovery ----------

  lemma ProofShows(l: Ledger, s: Snapshot)
    requires CanRecover(Proof(l, s)) && (l.action == "pluck" || l.action == "plant")
    ensures var found := Lookup(s.seeds, l.seed);
            if l.action == "pluck" then found.None? else found.Some? && found.value.planted > 0
  {
    hide Lookup, SlotAt, Permanent, Referenced;
    assert |"slot-unavailable"| != |"plant-state-confirmed"|;
  }

  /** A request is proven only for the ledger on disk, by a complete snapshot that shows its RPC done. */
  lemma ProvenShows(vol: Volatile, l: Ledger, env: Env, s: Option<Snapshot>)
    requires Legible(l) && Faithful(l.seed) && (l.action == "pluck" || l.action == "plant")
    requires Judge(vol, Some(Render(l)), env, s).Proven?
    ensures s.Some?
    ensures var found := Lookup(s.value.seeds, l.seed);
            if l.action == "pluck" then found.None? else found.Some? && found.value.planted > 0
  {
    hide Line, ParseLedger, ParseRecovery, Proof, CanRecover, Faithful, Acceptable, Lookup;
    var text := Render(l);
    var raw := RawLedger(text, env.readable);
    assert s.Some?;
    assert ParseLedger(raw).Some? && CanRecover(Proof(ParseLedger(raw).value, s.value));
    NothingInNothing();
    assert raw == text;
    FaithfulReadsBack(l);
    ProofShows(l, s.value);
  }

  function Noticed(e: Engine, env: Env, s: Option<Snapshot>): Engine {
    e.(log := e.log + [LookOf(e, env, s)])
  }

  lemma NoticedKeeps(e: Engine, env: Env, s: Option<Snapshot>)
    requires Invariant(e)
    ensures Invariant(Noticed(e, env, s))
    ensures LastLook(Noticed(e, env, s).log, s)
  {
    hide Invariant, Judge;
    KeepHeld(e, Noticed(e, env, s), [LookOf(e, env, s)]);
    assert LooksAt(Noticed(e, env, s).log, |e.log|, s);
  }

  ghost predicate SameHold(vol: Volatile, vol': Volatile) {
    && vol'.initialized == vol.initialized && vol'.compatible == vol.compatible
    && vol'.restartBlocked == vol.restartBlocked && vol'.blocked == vol.blocked && vol'.pending == vol.pending
  }

  lemma SameHoldKeeps(e: Engine, vol: Volatile)
    requires Invariant(e) && SameHold(e.vol, vol)
    ensures Invariant(e.(vol := vol))
  {
    hide Invariant;
    assert e.log + [] == e.log;
    KeepHeld(e, e.(vol := vol), []);
  }

  /** Everything sent is seen done: nothing holds the process. */
  ghost predicate AllDone(log: seq<Event>) {
    forall i :: 0 <= i < |log| && log[i].Sent? && Faithful(log[i].seed) ==> Settled(log, i, |log|)
  }

  lemma DoneKeeps(e: Engine, e': Engine, tail: seq<Event>)
    requires Invariant(e) && AllDone(e.log) && e'.log == e.log + tail && NoSends(tail)
    ensures Invariant(e') && AllDone(e'.log)
  {
    hide Settled, InTurn, AllCalledFor, Outstanding;
    InTurnExtends(e.log, tail);
    AllCalledForExtends(e.log, tail);
    forall i | 0 <= i < |e'.log| && e'.log[i].Sent? && Faithful(e'.log[i].seed)
      ensures Settled(e'.log, i, |e'.log|)
    {
      SentBefore(e.log, tail, i);
      SettledExtends(e.log, tail, i, |e.log|);
    }
  }

  lemma LookSettles(log: seq<Event>, i: int, s: Option<Snapshot>, ev: Event)
    requires 0 <= i < |log| && log[i].Sent? && ev.Looked? && ev.reading == s
    requires Proves(ev, log[i].action, log[i].seed)
    ensures Settled(log + [ev], i, |log| + 1)
  {
    assert (log + [ev])[|log|] == ev;
  }

  /** When a request is proven, the snapshot just logged settles whatever was outstanding. */
  lemma ProvenSettles(e: Engine, env: Env, s: Option<Snapshot>)
    requires Invariant(e)
    requires Judge(e.vol, e.disk.ledger, env, s).Proven?
    ensures AllDone(Noticed(e, env, s).log)
  {
    hide Judge, InTurn, CalledFor, Settled, Faithful, Render, Held, LastSent, Lookup;
    var longer := Noticed(e, env, s);
    forall i | 0 <= i < |longer.log| && longer.log[i].Sent? && Faithful(longer.log[i].seed)
      ensures Settled(longer.log, i, |longer.log|)
    {
      assert i < |e.log|;
      if Settled(e.log, i, |e.log|) {
        SettledExtends(e.log, [LookOf(e, env, s)], i, |e.log|);
      } else {
        assert Outstanding(e, i) && WellSent(e.log[i]);
        ProvenShows(e.vol, LedgerAt(e.log[i]), env, s);
        LookSettles(e.log, i, s, LookOf(e, env, s));
      }
    }
  }

  lemma ReleaseKeeps(e: Engine, env: Env, key: string)
    requires Invariant(e) && AllDone(e.log)
    ensures Invariant(Release(e, env, key))
  {
    hide Invariant, AllDone;
    var r := Release(e, env, key);
    DoneKeeps(e, r, r.log[|e.log|..]);
  }

  lemma ProveKeeps(e: Engine, env: Env, key: string)
    requires Invariant(e) && AllDone(e.log)
    ensures Invariant(Prove(e, env, key))
  {
    hide Invariant, AllDone, Release;
    ReleaseKeeps(e, env, key);
    var r := Prove(e, env, key);
    if r.log == e.log {
      assert e.log + [] == e.log;
      DoneKeeps(e, r, []);
    }
  }

  lemma RecoverKeeps(e: Engine, env: Env, s: Option<Snapshot>)
    requires Invariant(e)
    ensures Invariant(Recover(e, env, s))
  {
    hide Invariant, Judge, AllDone, Prove;
    NoticedKeeps(e, env, s);
    var v := Judge(e.vol, e.disk.ledger, env, s);
    var n := Noticed(e, env, s);
    if v.Proven? {
      ProvenSettles(e, env, s);
      SameHoldKeeps(n, Noted(e.vol, v.nonce));
      ProveKeeps(n.(vol := Noted(e.vol, v.nonce)), env, v.proof + v.raw);
    } else {
      SameHoldKeeps(n, Recover(e, env, s).vol);
      assert Recover(e, env, s) == n.(vol := Recover(e, env, s).vol);
    }
  }

  // ---------- what recovery leaves ----------

  lemma LookStays(log: seq<Event>, s: Option<Snapshot>, ev: Event)
    requires LastLook(log, s) && !ev.Looked? && !ev.Sent?
    ensures LastLook(log + [ev], s)
  {
    var m :| LooksAt(log, m, s);
    assert LooksAt(log + [ev], m, s);
  }

  lemma RecoverLooks(e: Engine, env: Env, s: Option<Snapshot>)
    requires Invariant(e)
    ensures LastLook(Recover(e, env, s).log, s)
  {
    hide Invariant, Judge, LastLook, FirstSight, Noted;
    NoticedKeeps(e, env, s);
    var log := Noticed(e, env, s).log;
    var v := Judge(e.vol, e.disk.ledger, env, s);
    LookStays(log, s, Restarted);
    if v.Proven? {
      LookStays(log, s, Released(Noted(e.vol, v.nonce).nonce, v.proof + v.raw, env.clock.waited));
    }
  }

  // ---------- the RPC in flight ----------

  ghost predicate Active(vol: Volatile) {
    vol.initialized && vol.compatible && !Paused(vol)
  }

  /** A process that is not paused knows every RPC done, but for the one that it awaits. */
  ghost predicate Awaits(e: Engine, p: Pending) {
    && Active(e.vol) && e.vol.pending.Some?
    && e.vol.pending.value.action == p.action && e.vol.pending.value.seed == p.seed
  }

  lemma ConfirmedSettles(e: Engine, s: Option<Snapshot>, p: Pending)
    requires Invariant(e) && LastLook(e.log, s) && Awaits(e, p)
    requires s.Some? && Confirmed(p, s.value)
    ensures AllDone(e.log)
  {
    hide InTurn, CalledFor, Lookup, SlotAt, Render, WellSent;
    var m :| LooksAt(e.log, m, s);
    forall i | 0 <= i < |e.log| && e.log[i].Sent? && Faithful(e.log[i].seed)
      ensures Settled(e.log, i, |e.log|)
    {
      if Outstanding(e, i) {
        assert i < m && Proves(e.log[m], e.log[i].action, e.log[i].seed);
      }
    }
  }

  lemma FinishKeeps(e: Engine, env: Env, event: string, confirmed: bool)
    requires Invariant(e)
    requires if confirmed then AllDone(e.log) else event != ""
    ensures Invariant(Finish(e, env, event, confirmed))
  {
    hide Invariant, AllDone;
    var r := Finish(e, env, event, confirmed);
    if confirmed {
      DoneKeeps(e, r, r.log[|e.log|..]);
    } else {
      assert e.log + [] == e.log;
      KeepHeld(e, r, []);
    }
  }

  lemma ConfirmKeeps(e: Engine, env: Env, s: Option<Snapshot>, p: Pending)
    requires Invariant(e) && LastLook(e.log, s) && Awaits(e, p)
    ensures Invariant(Confirm(e, env, s, p))
  {
    hide Invariant, AllDone, Confirmed, LastLook;
    if s.Some? && Confirmed(p, s.value) {
      ConfirmedSettles(e, s, p);
      FinishKeeps(e, env, p.action + "-confirmed", true);
    } else {
      assert e.log + [] == e.log;
      KeepHeld(e, Confirm(e, env, s, p), []);
    }
  }

  lemma ObserveKeeps(e: Engine, env: Env, s: Option<Snapshot>)
    requires Invariant(e) && LastLook(e.log, s) && Active(e.vol) && e.vol.pending.Some?
    ensures Invariant(Observe(e, env, s, e.vol.pending.value))
  {
    hide Invariant, AllDone, Confirm, LastLook, Finish, ReplyOf;
    var p := e.vol.pending.value;
    var reply := ReplyOf(env.answer, p);
    if p.responded {
      ConfirmKeeps(e, env, s, p);
    } else if reply.Bad? {
      FinishKeeps(e, env, reply.event, false);
    } else if reply.Good? {
      ConfirmKeeps(e, env, s, reply.p);
    }
  }

  // ---------- sending ----------

  ghost predicate DistinctIds(seeds: seq<Seed>) {
    forall i, j :: 0 <= i < j < |seeds| ==> seeds[i].id != seeds[j].id
  }

  lemma {:induction false} LookupListed(seeds: seq<Seed>, seed: Seed)
    requires DistinctIds(seeds) && seed in seeds
    ensures Lookup(seeds, seed.id) == Some(seed)
  {
    if seeds[0] == seed {
    } else {
      var k :| 0 < k < |seeds| && seeds[k] == seed;
      assert seeds[1..][k - 1] == seed;
      LookupListed(seeds[1..], seed);
    }
  }

  lemma {:induction false} BestListed(seeds: seq<Seed>, s: Snapshot, steps: set<nat>)
    ensures var b := Best(seeds, s, steps); b.Some? ==> b.value in seeds && Plantable(b.value, s, steps)
  {
    if seeds != [] {
      BestListed(seeds[..|seeds| - 1], s, steps);
    }
  }

  lemma {:induction false} RipeListed(slots: seq<Slot>, s: Snapshot)
    ensures var r := FirstRipe(slots, s);
            r.Some? ==> Ripe(r.value.slot, s) && r.value.action == "pluck"
                        && Lookup(s.seeds, r.value.slot.seed) == Some(r.value.seed)
  {
    if slots != [] {
      RipeListed(slots[1..], s);
    }
  }

  lemma {:induction false} FreeListed(slots: seq<Slot>, s: Snapshot)
    ensures var r := FirstFree(slots, s);
            r.Some? ==> r.value in slots && r.value.seed == "" && Permanent(r.value, s.maxSlots)
  {
    if slots != [] {
      FreeListed(slots[1..], s);
    }
  }

  /** What is chosen is in the inventory, calls for its action, and goes to one of the slots 0 to 7. */
  lemma ChoiceCalls(s: Snapshot, auto: bool, steps: set<nat>)
    requires DistinctIds(s.seeds) && Choice(s, auto, steps).Some?
    ensures var p := Choice(s, auto, steps).value;
            && (p.action == "pluck" || p.action == "plant") && Permanent(p.slot, s.maxSlots)
            && Lookup(s.seeds, p.seed.id) == Some(p.seed)
            && (p.action == "plant" ==> p.seed.planted == 0)
  {
    hide Lookup, FirstRipe, FirstFree, Best;
    RipeListed(s.slots, s);
    FreeListed(s.slots, s);
    BestListed(s.seeds, s, steps);
    var p := Choice(s, auto, steps).value;
    LookupListed(s.seeds, p.seed);
  }

  lemma SendCalledFor(log: seq<Event>, s: Snapshot, ev: Event)
    requires LastLook(log, Some(s)) && ev.Sent?
    requires var found := Lookup(s.seeds, ev.seed); found.Some? && (ev.action == "plant" ==> found.value.planted == 0)
    ensures CalledFor(log + [ev], |log|)
  {
    hide Lookup;
    var m :| LooksAt(log, m, Some(s));
    var longer := log + [ev];
    assert longer[m] == log[m] && longer[|log|] == ev;
    assert NoLookBetween(longer, m, |log|);
  }

  lemma SendInTurn(log: seq<Event>, ev: Event)
    requires InTurn(log) && AllDone(log)
    ensures InTurn(log + [ev])
  {
    hide Settled;
    var longer := log + [ev];
    forall i, j | 0 <= i < j < |longer| && longer[i].Sent? && longer[j].Sent? && Faithful(longer[i].seed)
      ensures Settled(longer, i, j)
    {
      assert longer[i] == log[i];
      if j < |log| {
        assert longer[j] == log[j];
        SettledExtends(log, [ev], i, j);
      } else {
        SettledExtends(log, [ev], i, |log|);
      }
    }
  }

  lemma SendAllCalledFor(log: seq<Event>, ev: Event)
    requires AllCalledFor(log) && ev.Sent? && WellSent(ev) && CalledFor(log + [ev], |log|)
    ensures AllCalledFor(log + [ev])
  {
    hide WellSent, CalledFor;
    var longer := log + [ev];
    forall j | 0 <= j < |longer| && longer[j].Sent? ensures WellSent(longer[j]) && CalledFor(longer, j) {
      if j < |log| {
        assert longer[j] == log[j];
        CalledForExtends(log, [ev], j);
      }
    }
  }

  lemma SendKnown(log: seq<Event>, ev: Event, e': Engine)
    requires AllDone(log) && ev.Sent? && log + [ev] <= e'.log && |e'.log| <= |log| + 2
    requires |e'.log| == |log| + 2 ==> !e'.log[|log| + 1].Sent?
    requires e'.disk.ledger == Some(Render(LedgerAt(ev))) && Held(e'.vol, ev.action, ev.seed)
    ensures AllKnown(e')
  {
    hide Settled, Render;
    forall i | 0 <= i < |e'.log| && e'.log[i].Sent? && Faithful(e'.log[i].seed)
      ensures Settled(e'.log, i, |e'.log|) || Outstanding(e', i)
    {
      assert (log + [ev])[|log|] == ev;
      if i < |log| {
        assert e'.log == log + e'.log[|log|..];
        SettledExtends(log, e'.log[|log|..], i, |log|);
      }
    }
  }

  function SentFor(pick: Pick, at: int): Event {
    Sent(pick.action, pick.seed.id, pick.slot.index, at)
  }

  /** The engine after an RPC, whether or not the process survived the call. */
  ghost predicate AfterSend(e: Engine, e': Engine, ev: Event)
    requires ev.Sent?
  {
    && (e'.log == e.log + [ev] || e'.log == e.log + [ev] + [Restarted])
    && e'.disk.ledger == Some(Render(LedgerAt(ev))) && Held(e'.vol, ev.action, ev.seed)
  }

  lemma SendKeeps(e: Engine, e': Engine, s: Snapshot, ev: Event)
    requires InTurn(e.log) && AllCalledFor(e.log) && AllDone(e.log) && LastLook(e.log, Some(s))
    requires ev.Sent? && WellSent(ev) && AfterSend(e, e', ev)
    requires var found := Lookup(s.seeds, ev.seed); found.Some? && (ev.action == "plant" ==> found.value.planted == 0)
    ensures Invariant(e')
  {
    hide InTurn, AllCalledFor, AllDone, LastLook, WellSent, CalledFor, Lookup, Render, AllKnown, Held;
    SendCalledFor(e.log, s, ev);
    SendInTurn(e.log, ev);
    SendAllCalledFor(e.log, ev);
    SendKnown(e.log, ev, e');
    if e'.log != e.log + [ev] {
      InTurnExtends(e.log + [ev], [Restarted]);
      AllCalledForExtends(e.log + [ev], [Restarted]);
    }
  }

  ghost predicate Knows(e: Engine) {
    Active(e.vol) && e.vol.pending.None?
  }

  /** A process that awaits nothing and is not paused has seen everything done. */
  lemma KnowsAllDone(e: Engine)
    requires Invariant(e) && Knows(e)
    ensures AllDone(e.log)
  {
    hide InTurn, AllCalledFor, Settled, LastSent, Render;
  }

  lemma BlockKeeps(e: Engine, reason: string)
    requires Invariant(e) && reason != ""
    ensures Invariant(Block(e, reason))
  {
    hide Invariant;
    assert e.log + [] == e.log;
    KeepHeld(e, Block(e, reason), []);
  }

  lemma WriteKeeps(e: Engine, e': Engine)
    requires Invariant(e) && AllDone(e.log) && e'.log == e.log + [Restarted]
    ensures Invariant(e')
  {
    hide Invariant, AllDone;
    DoneKeeps(e, e', [Restarted]);
  }

  lemma SubmitSends(e: Engine, env: Env, pick: Pick, s: Snapshot)
    requires e.disk.ledger == Some(Render(LedgerOf(pick, env.clock.sent)))
    ensures AfterSend(e, Submit(e, env, pick, s), SentFor(pick, env.clock.sent))
  {
    hide Render;
    assert LedgerAt(SentFor(pick, env.clock.sent)) == LedgerOf(pick, env.clock.sent);
  }

  lemma StartKeeps(e: Engine, env: Env, pick: Pick, s: Snapshot)
    requires Invariant(e) && Knows(e) && LastLook(e.log, Some(s))
    requires DistinctIds(s.seeds) && Choice(s, env.mode == Auto, env.steps) == Some(pick)
    ensures Invariant(Start(e, env, pick, s))
  {
    hide AllKnown, InTurn, AllCalledFor, AllDone, LastLook, Choice, Render, Submit, Lookup, DistinctIds;
    KnowsAllDone(e);
    ChoiceCalls(s, env.mode == Auto, env.steps);
    if !env.built {
      BlockKeeps(e, "request-build-failed");
    } else if !env.wrote {
      BlockKeeps(e, "audit-write-failed");
    } else if env.dies == Some(AfterWrite) {
      WriteKeeps(e, Start(e, env, pick, s));
    } else {
      var ev := SentFor(pick, env.clock.sent);
      SubmitSends(e.(disk := e.disk.(ledger := Some(Render(LedgerOf(pick, env.clock.sent))))), env, pick, s);
      assert WellSent(ev) by { ActionIsWord(ev.action); }
      SendKeeps(e, Start(e, env, pick, s), s, ev);
    }
  }

  lemma ActionIsWord(action: string)
    requires action == "pluck" || action == "plant"
    ensures Word(action)
  {
  }

  lemma ReadingDistinct(view: View)
    requires Reading(view).Some?
    ensures DistinctIds(Reading(view).value.seeds)
  {
  }

  lemma ActKeeps(e: Engine, env: Env)
    requires Invariant(e) && LastLook(e.log, Reading(env.view)) && e.vol.initialized && e.vol.compatible
    ensures Invariant(Act(e, env, Reading(env.view)))
  {
    hide Invariant, LastLook, Observe, Start, Choice, Reading, StorageRoom;
    var s := Reading(env.view);
    if Paused(e.vol) {
    } else if e.vol.pending.Some? {
      ObserveKeeps(e, env, s);
    } else if s.Some? {
      ReadingDistinct(env.view);
      var pick := Choice(s.value, env.mode == Auto, env.steps);
      if pick.Some? {
        StartKeeps(e, env, pick.value, s.value);
      }
    }
  }

  lemma BeginCompatible(e: Engine, env: Env)
    requires Captures(e, env)
    ensures Begin(e, env).vol.initialized && Begin(e, env).vol.compatible
  {
  }

  lemma TickKeeps(e: Engine, env: Env)
    requires Invariant(e)
    ensures Invariant(Tick(e, env))
  {
    hide Invariant, LastLook, Recover, Act, Captures, Reading, Faithful;
    BeginKeeps(e, env);
    var b := Begin(e, env);
    assert b.log == e.log;
    if Captures(e, env) {
      var s := Reading(env.view);
      BeginCompatible(e, env);
      RecoverKeeps(b, env, s);
      RecoverLooks(b, env, s);
      RecoverCompatible(b, env, s);
      var r := Recover(b, env, s);
      if r.vol.initialized {
        ActKeeps(r, env);
      }
    }
  }

  // ---------- runs ----------

  /** Every reachable state keeps the invariant, whatever files it started from. */
  lemma {:induction false} RunKeeps(disk: Disk, pid: int, steps: seq<Step>)
    ensures Invariant(Run(Boot(disk, pid), steps))
  {
    hide Next;
    var boot := Boot(disk, pid);
    if steps == [] {
    } else {
      var before := steps[..|steps| - 1];
      var step := steps[|steps| - 1];
      RunKeeps(disk, pid, before);
      NextKeeps(Run(boot, before), step);
    }
  }

  lemma NextKeeps(e: Engine, step: Step)
    requires Invariant(e)
    ensures Invariant(Next(e, step))
  {
    hide Invariant, Tick, Restart;
    match step {
      case TickStep(env) => TickKeeps(e, env);
      case DieStep(pid) => RestartKeeps(e, pid);
    }
  }

  // ---------- at most once ----------

  ghost predicate Shows(ev: Event, seed: string) {
    ev.Looked? && ev.reading.Some? && Lookup(ev.reading.value.seeds, seed).Some?
  }

  ghost predicate Lacks(ev: Event, seed: string) {
    ev.Looked? && ev.reading.Some? && Lookup(ev.reading.value.seeds, seed).None?
  }

  ghost predicate ShowsPlanted(ev: Event, seed: string) {
    Shows(ev, seed) && Lookup(ev.reading.value.seeds, seed).value.planted > 0
  }

  /** What the server is trusted to do: an id that vanished stays away, and what is planted stays planted. */
  ghost predicate Lawful(log: seq<Event>) {
    && (forall i, j, k, seed ::
          0 <= i < j < k < |log| && Shows(log[i], seed) && Lacks(log[j], seed) ==> !Shows(log[k], seed))
    && (forall j, k, seed ::
          0 <= j < k < |log| && ShowsPlanted(log[j], seed) && Shows(log[k], seed) ==> ShowsPlanted(log[k], seed))
  }

  /** Between two RPCs there is a complete snapshot that shows the first one done, if its seed is faithful. */
  lemma DoneBeforeNext(disk: Disk, pid: int, steps: seq<Step>, i: int, j: int)
    requires var log := Run(Boot(disk, pid), steps).log;
             0 <= i < j < |log| && log[i].Sent? && log[j].Sent? && Faithful(log[i].seed)
    ensures Settled(Run(Boot(disk, pid), steps).log, i, j)
  {
    hide Settled, Run, AllKnown, AllCalledFor, Faithful;
    RunKeeps(disk, pid, steps);
  }

  lemma LookPrecedes(log: seq<Event>, m: int, k: int, j: int)
    requires 0 <= m < j <= |log| && 0 <= k < j && NoLookBetween(log, m, j) && log[k].Looked?
    ensures k <= m
  {
  }

  lemma TwiceIsUnlawful(log: seq<Event>, i: int, j: int)
    requires InTurn(log) && AllCalledFor(log) && 0 <= i < j < |log| && log[i].Sent? && log[j].Sent? && Faithful(log[i].seed)
    requires log[i].action == log[j].action && log[i].seed == log[j].seed
    ensures !Lawful(log)
  {
    hide InTurn, AllCalledFor, Lookup, Lawful;
    var action, seed := log[i].action, log[i].seed;
    assert Settled(log, i, j) && WellSent(log[i]) && CalledFor(log, i) && CalledFor(log, j) by {
      InTurnAt(log, i, j);
    }
    var done :| i < done < j && Proves(log[done], action, seed);
    var first :| 0 <= first < i && Calls(log[first], action, seed) && NoLookBetween(log, first, i);
    var second :| 0 <= second < j && Calls(log[second], action, seed) && NoLookBetween(log, second, j);
    LookPrecedes(log, second, done, j);
    assert done != second;
    assert Shows(log[first], seed) && Shows(log[second], seed);
    if action == "pluck" {
      assert Lacks(log[done], seed);
      VanishedStays(log, first, done, second, seed);
    } else {
      assert ShowsPlanted(log[done], seed) && !ShowsPlanted(log[second], seed);
      PlantedStays(log, done, second, seed);
    }
  }

  lemma InTurnAt(log: seq<Event>, i: int, j: int)
    requires InTurn(log) && AllCalledFor(log) && 0 <= i < j < |log| && log[i].Sent? && log[j].Sent? && Faithful(log[i].seed)
    ensures Settled(log, i, j) && WellSent(log[i]) && CalledFor(log, i) && CalledFor(log, j)
  {
    hide Settled, WellSent, CalledFor;
  }

  lemma VanishedStays(log: seq<Event>, i: int, j: int, k: int, seed: string)
    requires 0 <= i < j < k < |log| && Shows(log[i], seed) && Lacks(log[j], seed) && Shows(log[k], seed)
    ensures !Lawful(log)
  {
    hide Shows, Lacks, ShowsPlanted;
  }

  lemma PlantedStays(log: seq<Event>, j: int, k: int, seed: string)
    requires 0 <= j < k < |log| && ShowsPlanted(log[j], seed) && Shows(log[k], seed) && !ShowsPlanted(log[k], seed)
    ensures !Lawful(log)
  {
    hide Shows, Lacks, ShowsPlanted;
  }

  /** Over every run, from any files, with the process dying at any point and any answers from the server: if vanished
      ids never return and planted seeds stay planted, no faithful seed is plucked twice or planted twice, whatever
      else was sent in the run. */
  lemma AtMostOnce(disk: Disk, pid: int, steps: seq<Step>, i: int, j: int)
    requires var log := Run(Boot(disk, pid), steps).log;
             && Lawful(log)
             && 0 <= i < j < |log| && log[i].Sent? && log[j].Sent? && Faithful(log[i].seed)
    ensures var log := Run(Boot(disk, pid), steps).log;
            log[i].action != log[j].action || log[i].seed != log[j].seed
  {
    hide Run, AllKnown, InTurn, AllCalledFor, Lawful, Faithful;
    RunKeeps(disk, pid, steps);
    var log := Run(Boot(disk, pid), steps).log;
    if log[i].action == log[j].action && log[i].seed == log[j].seed {
      TwiceIsUnlawful(log, i, j);
    }
  }
}
