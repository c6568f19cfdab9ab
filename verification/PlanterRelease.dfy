/** What a manual recovery saw before it lifted the pause. */
module PlanterRelease {
  import opened LedgerText
  import opened Options
  import opened PlanterState

  // ---------- what makes a proof ----------

  /** A request is proven exactly when it is new or waited for, is fresh for this process, finds nothing in flight
      and a complete inventory, and either expects the very ledger on disk, whose RPC the inventory shows done, or
      expects none and none was written before the block. */
  predicate Deserved(vol: Volatile, ledger: Option<string>, env: Env, s: Option<Snapshot>, r: Request) {
    && (r.nonce != vol.nonce || vol.waiting)
    && r.pid == vol.pid && 0 <= env.clock.asked - r.at <= 90000
    && vol.pending.None? && vol.compatible
    && s.Some? && s.value.capacity > 0 && s.value.pikmins != {}
    && match ledger
       case Some(text) =>
         && env.readable && ParseLedger(text) == Some(r.expected)
         && (if r.expected.action == "plant" then Planted(r.expected, s.value) else Gone(r.expected, s.value))
         && UsableSlot(r.expected, s.value)
       case None =>
         && r.expected.sent == 0 && !vol.restartBlocked
         && (vol.blocked == "request-build-failed" || vol.blocked == "audit-write-failed")
  }

  predicate UsableSlot(l: Ledger, s: Snapshot) {
    SlotAt(s.slots, l.slot).Some? && Permanent(SlotAt(s.slots, l.slot).value, s.maxSlots)
  }

  predicate Planted(l: Ledger, s: Snapshot) {
    && Lookup(s.seeds, l.seed).Some? && Lookup(s.seeds, l.seed).value.planted > 0
    && SlotAt(s.slots, l.slot).Some? && SlotAt(s.slots, l.slot).value.seed == l.seed
  }

  predicate Gone(l: Ledger, s: Snapshot) {
    Lookup(s.seeds, l.seed).None? && !Referenced(s.slots, l.seed)
  }

  lemma ProofDeserved(l: Ledger, s: Snapshot)
    requires l.action == "plant" || l.action == "pluck"
    ensures CanRecover(Proof(l, s)) <==>
              UsableSlot(l, s) && (if l.action == "plant" then Planted(l, s) else Gone(l, s))
    ensures CanRecover(Proof(l, s)) ==>
              Proof(l, s) == (if l.action == "plant" then "plant-state-confirmed" else "pluck-target-retired")
  {
    hide Lookup, SlotAt, Permanent, Referenced;
    assert |"slot-unavailable"| == 16 && |"result-unknown"| == 14;
    assert |"plant-state-confirmed"| == 21 && |"pluck-target-retired"| == 20 && |"no-request-created"| == 18;
  }

  lemma LedgerDeserved(vol: Volatile, text: string, env: Env, r: Request, s: Snapshot)
    ensures JudgeLedger(vol, Some(text), env, r, s).Proven? <==>
              && env.readable && ParseLedger(text) == Some(r.expected)
              && (if r.expected.action == "plant" then Planted(r.expected, s) else Gone(r.expected, s))
              && UsableSlot(r.expected, s)
    ensures JudgeLedger(vol, Some(text), env, r, s).Proven? ==>
              JudgeLedger(vol, Some(text), env, r, s).raw == text
  {
    hide Proof, ReadLedger, CanRecover, Planted, Gone, UsableSlot, SafeToken;
    assert ParseLedger("").None? by { NothingInNothing(); }
    if ParseLedger(text) == Some(r.expected) {
      ProofDeserved(r.expected, s);
    }
  }

  lemma ProvenIffDeserved(vol: Volatile, ledger: Option<string>, env: Env, s: Option<Snapshot>)
    ensures Judge(vol, ledger, env, s).Proven? <==>
              var r := ParseRecovery(env.request); r.Some? && Deserved(vol, ledger, env, s, r.value)
  {
    hide ParseRecovery, ParseLedger, JudgeLedger, Planted, Gone, UsableSlot;
    var r := ParseRecovery(env.request);
    if r.Some? && s.Some? {
      if ledger.Some? {
        LedgerDeserved(vol, ledger.value, env, r.value, s.value);
      } else {
        NoLedgerDeserved(vol, env, r.value, s.value);
      }
    }
  }

  lemma NoLedgerDeserved(vol: Volatile, env: Env, r: Request, s: Snapshot)
    ensures JudgeLedger(vol, None, env, r, s).Proven? <==>
              && r.expected.sent == 0 && !vol.restartBlocked
              && (vol.blocked == "request-build-failed" || vol.blocked == "audit-write-failed")
  {
  }

  /** The remembered key tells proof and ledger bytes apart, although it only joins them. */
  lemma KeyIsExact(p1: string, r1: string, p2: string, r2: string)
    requires CanRecover(p1) && CanRecover(p2) && p1 + r1 == p2 + r2
    ensures p1 == p2 && r1 == r2
  {
    assert (p1 + r1)[2] == p1[2] && (p2 + r2)[2] == p2[2];
    assert p1[2] == 'a' || p1[2] == 'u' || p1[2] == '-';
    assert (p1 + r1)[|p1|..] == r1 && (p2 + r2)[|p2|..] == r2;
  }

  // ---------- two sightings ----------

  /** Nothing after h interrupts the sighting: every capture earned the same proof for the same request. */
  predicate Unbroken(log: seq<Event>, h: int, n: int, nonce: string, key: string)
    requires 0 <= h && n <= |log|
  {
    forall k :: h < k < n ==>
      !log[k].Restarted? && !log[k].Released? &&
      (log[k].Looked? ==> log[k].nonce == nonce && log[k].proof == Some(key) && log[k].reading.Some?)
  }

  predicate SightedAt(log: seq<Event>, h: int, n: int, nonce: string, key: string, at: int) {
    && 0 <= h < n <= |log|
    && log[h].Looked? && log[h].nonce == nonce && log[h].proof == Some(key) && log[h].reading.Some?
    && log[h].at == at && Unbroken(log, h, n, nonce, key)
  }

  ghost predicate Sighted(log: seq<Event>, n: int, nonce: string, key: string, at: int) {
    exists h :: SightedAt(log, h, n, nonce, key, at)
  }

  /** The release at n had a sighting at least five seconds old. */
  ghost predicate Justified(log: seq<Event>, n: int)
    requires 0 <= n < |log| && log[n].Released?
  {
    exists at :: Sighted(log, n, log[n].nonce, log[n].key, at) && log[n].at - at >= 5000
  }

  ghost predicate AllJustified(log: seq<Event>) {
    forall n :: 0 <= n < |log| && log[n].Released? ==> Justified(log, n)
  }

  ghost predicate Waits(e: Engine) {
    e.vol.waiting && e.vol.seenAt != 0 ==> Sighted(e.log, |e.log|, e.vol.nonce, e.vol.proofSeen, e.vol.seenAt)
  }

  ghost predicate Careful(e: Engine) {
    AllJustified(e.log) && Waits(e)
  }

  lemma SightedPrefix(log: seq<Event>, tail: seq<Event>, n: int, nonce: string, key: string, at: int)
    requires 0 <= n <= |log| && Sighted(log, n, nonce, key, at)
    ensures Sighted(log + tail, n, nonce, key, at)
  {
    var h :| SightedAt(log, h, n, nonce, key, at);
    assert SightedAt(log + tail, h, n, nonce, key, at);
  }

  lemma JustifiedExtends(log: seq<Event>, ev: Event)
    requires AllJustified(log) && (ev.Released? ==> Justified(log + [ev], |log|))
    ensures AllJustified(log + [ev])
  {
    hide Sighted;
    var longer := log + [ev];
    forall n | 0 <= n < |longer| && longer[n].Released? ensures Justified(longer, n) {
      if n < |log| {
        assert longer[n] == log[n];
        var at :| Sighted(log, n, log[n].nonce, log[n].key, at) && log[n].at - at >= 5000;
        SightedPrefix(log, [ev], n, log[n].nonce, log[n].key, at);
      }
    }
  }

  lemma SightedGrows(log: seq<Event>, ev: Event, nonce: string, key: string, at: int)
    requires Sighted(log, |log|, nonce, key, at)
    requires !ev.Restarted? && !ev.Released?
    requires ev.Looked? ==> ev.nonce == nonce && ev.proof == Some(key) && ev.reading.Some?
    ensures Sighted(log + [ev], |log| + 1, nonce, key, at)
  {
    var h :| SightedAt(log, h, |log|, nonce, key, at);
    assert SightedAt(log + [ev], h, |log| + 1, nonce, key, at);
  }

  lemma FirstSighted(log: seq<Event>, ev: Event)
    requires ev.Looked? && ev.proof.Some? && ev.reading.Some?
    ensures Sighted(log + [ev], |log| + 1, ev.nonce, ev.proof.value, ev.at)
  {
    assert SightedAt(log + [ev], |log|, |log| + 1, ev.nonce, ev.proof.value, ev.at);
  }

  // ---------- what recovery does with a proof ----------

  lemma ProvenComplete(vol: Volatile, ledger: Option<string>, env: Env, s: Option<Snapshot>)
    ensures Judge(vol, ledger, env, s).Proven? ==> s.Some?
    ensures Judge(vol, ledger, env, s).Proven? && Judge(vol, ledger, env, s).nonce == vol.nonce ==> vol.waiting
  {
    hide ParseRecovery, ParseLedger, Proof, CanRecover;
  }

  /** A proof that continues a sighting keeps it. */
  lemma ContinuesSighting(e: Engine, env: Env, s: Option<Snapshot>, v: Verdict)
    requires Careful(e) && v == Judge(e.vol, e.disk.ledger, env, s) && v.Proven?
    ensures var vol := Noted(e.vol, v.nonce); var log := e.log + [LookOf(e, env, s)];
            if FirstSight(vol, v.proof + v.raw) then Sighted(log, |log|, v.nonce, v.proof + v.raw, env.clock.seen)
            else vol.proofSeen == v.proof + v.raw && Sighted(log, |log|, v.nonce, v.proof + v.raw, vol.seenAt)
  {
    hide Judge, Sighted, AllJustified;
    ProvenComplete(e.vol, e.disk.ledger, env, s);
    var vol := Noted(e.vol, v.nonce);
    var key := v.proof + v.raw;
    if FirstSight(vol, key) {
      FirstSighted(e.log, LookOf(e, env, s));
    } else {
      SightedGrows(e.log, LookOf(e, env, s), v.nonce, key, vol.seenAt);
    }
  }

  lemma ReleaseJustified(log: seq<Event>, nonce: string, key: string, seenAt: int, at: int)
    requires AllJustified(log) && Sighted(log, |log|, nonce, key, seenAt) && at - seenAt >= 5000
    ensures AllJustified(log + [Released(nonce, key, at)])
  {
    hide Sighted;
    var ev := Released(nonce, key, at);
    SightedPrefix(log, [ev], |log|, nonce, key, seenAt);
    assert (log + [ev])[|log|] == ev;
    JustifiedExtends(log, ev);
  }

  lemma ProveCareful(e: Engine, env: Env, key: string)
    requires AllJustified(e.log) && !e.vol.waiting
    requires Sighted(e.log, |e.log|, e.vol.nonce, key, if FirstSight(e.vol, key) then env.clock.seen else e.vol.seenAt)
    ensures Careful(Prove(e, env, key))
  {
    hide Sighted, AllJustified;
    if !FirstSight(e.vol, key) && env.clock.waited - e.vol.seenAt >= 5000 {
      ReleaseJustified(e.log, e.vol.nonce, key, e.vol.seenAt, env.clock.waited);
      JustifiedExtends(e.log, Restarted);
    }
  }

  lemma RecoverCareful(e: Engine, env: Env, s: Option<Snapshot>)
    requires Careful(e)
    ensures Careful(Recover(e, env, s))
  {
    hide Judge, Sighted, AllJustified, Prove, FirstSight;
    var v := Judge(e.vol, e.disk.ledger, env, s);
    var look := LookOf(e, env, s);
    JustifiedExtends(e.log, look);
    var n := e.(log := e.log + [look]);
    if v.Proven? {
      ContinuesSighting(e, env, s, v);
      ProveCareful(n.(vol := Noted(e.vol, v.nonce)), env, v.proof + v.raw);
    } else {
      ProvenComplete(e.vol, e.disk.ledger, env, s);
      IdleOnlyAtRest(e.vol, e.disk.ledger, env, s);
    }
  }

  lemma IdleOnlyAtRest(vol: Volatile, ledger: Option<string>, env: Env, s: Option<Snapshot>)
    ensures Judge(vol, ledger, env, s).Idle? ==> !vol.waiting
  {
    hide ParseRecovery, ParseLedger, Proof, CanRecover;
  }

  // ---------- the other stages ----------

  lemma RestartCareful(e: Engine, pid: int)
    requires AllJustified(e.log)
    ensures Careful(Restart(e, pid))
  {
    hide AllJustified;
    JustifiedExtends(e.log, Restarted);
  }

  lemma FinishCareful(e: Engine, env: Env, event: string, confirmed: bool)
    requires AllJustified(e.log) && !e.vol.waiting
    ensures Careful(Finish(e, env, event, confirmed))
  {
    hide AllJustified;
    JustifiedExtends(e.log, Restarted);
  }

  lemma ObserveCareful(e: Engine, env: Env, s: Option<Snapshot>, p: Pending)
    requires AllJustified(e.log) && !e.vol.waiting
    ensures Careful(Observe(e, env, s, p))
  {
    hide AllJustified, Finish, Confirmed, Careful, ReplyOf;
    var reply := ReplyOf(env.answer, p);
    FinishCareful(e, env, p.action + "-confirmed", true);
    if reply.Bad? { FinishCareful(e, env, reply.event, false); }
    QuietCareful(e);
  }

  lemma QuietCareful(e: Engine)
    requires AllJustified(e.log)
    ensures forall vol: Volatile :: !vol.waiting ==> Careful(e.(vol := vol))
  {
  }

  lemma StartCareful(e: Engine, env: Env, pick: Pick, s: Snapshot)
    requires AllJustified(e.log) && !e.vol.waiting
    ensures Careful(Start(e, env, pick, s))
  {
    hide AllJustified, Render;
    var ev := Sent(pick.action, pick.seed.id, pick.slot.index, env.clock.sent);
    JustifiedExtends(e.log, Restarted);
    JustifiedExtends(e.log, ev);
    JustifiedExtends(e.log + [ev], Restarted);
  }

  lemma ActCareful(e: Engine, env: Env, s: Option<Snapshot>)
    requires Careful(e)
    ensures Careful(Act(e, env, s))
  {
    hide AllJustified, Observe, Start, Choice, StorageRoom, Waits;
    if !Paused(e.vol) {
      if e.vol.pending.Some? {
        ObserveCareful(e, env, s, e.vol.pending.value);
      } else if s.Some? && Choice(s.value, env.mode == Auto, env.steps).Some? {
        StartCareful(e, env, Choice(s.value, env.mode == Auto, env.steps).value, s.value);
      }
    }
  }

  lemma BeginCareful(e: Engine, env: Env)
    requires Careful(e)
    ensures Careful(Begin(e, env))
  {
    hide AllJustified, Sighted;
  }

  lemma NextCareful(e: Engine, step: Step)
    requires Careful(e)
    ensures Careful(Next(e, step))
  {
    hide AllJustified, Waits, Recover, Act, Reading, Captures, Restart, Begin;
    match step {
      case DieStep(pid) => RestartCareful(e, pid);
      case TickStep(env) =>
        BeginCareful(e, env);
        var s := Reading(env.view);
        RecoverCareful(Begin(e, env), env, s);
        ActCareful(Recover(Begin(e, env), env, s), env, s);
    }
  }

  lemma BootCareful(disk: Disk, pid: int)
    ensures Careful(Boot(disk, pid))
  {
  }

  /** Over every run, a recovery that lifts the pause has seen, at least five seconds before and in every capture
      since, a complete inventory that earned the same proof for the same request and the same ledger bytes. */
  lemma {:induction false} ReleasesAreJustified(disk: Disk, pid: int, steps: seq<Step>)
    ensures Careful(Run(Boot(disk, pid), steps))
    ensures AllJustified(Run(Boot(disk, pid), steps).log)
  {
    hide Next, AllJustified, Waits;
    if steps == [] {
      BootCareful(disk, pid);
    } else {
      ReleasesAreJustified(disk, pid, steps[..|steps| - 1]);
      NextCareful(Run(Boot(disk, pid), steps[..|steps| - 1]), steps[|steps| - 1]);
    }
  }

  /** The tick that leads to e' lifted the pause. */
  ghost predicate Lifted(e: Engine, e': Engine, env: Env, s: Option<Snapshot>) {
    var v := Judge(e.vol, e.disk.ledger, env, s);
    && e'.vol.initialized
    && e'.log == e.log + [LookOf(e, env, s)] +
         [Released(NonceOf(e.vol, v), if v.Proven? then v.proof + v.raw else "", env.clock.waited)]
  }

  /** The ledger, if there is one, was moved aside with the very bytes of the proof. */
  ghost predicate Archived(e: Engine, e': Engine, env: Env, v: Verdict) {
    && e'.disk.ledger.None? && e'.vol.blocked == "" && !e'.vol.restartBlocked
    && e'.vol.nextAction == env.clock.released + 5000 && v.Proven?
    && if e.disk.ledger.Some? then e'.disk.archive == e.disk.ledger && e.disk.ledger == Some(v.raw)
       else e'.disk == e.disk && v.raw == ""
  }

  ghost predicate StillPaused(e: Engine, e': Engine) {
    && e'.disk == e.disk && e'.vol.blocked == e.vol.blocked
    && e'.vol.restartBlocked == e.vol.restartBlocked && e'.vol.nextAction == e.vol.nextAction
  }

  /** The pause is lifted only when the ledger, if there is one, has been moved aside with the very bytes of the
      proof, and the flags that paused the engine stay as they were otherwise. */
  lemma ReleaseArchives(e: Engine, env: Env, s: Option<Snapshot>)
    ensures var e' := Recover(e, env, s);
            if Lifted(e, e', env, s) then Archived(e, e', env, Judge(e.vol, e.disk.ledger, env, s))
            else e'.vol.initialized && e.vol.initialized ==> StillPaused(e, e')
  {
    hide Judge, Prove, Archived, StillPaused;
    var v := Judge(e.vol, e.disk.ledger, env, s);
    var n := e.(log := e.log + [LookOf(e, env, s)]);
    if v.Proven? {
      ProvenRaw(e.vol, e.disk.ledger, env, s);
      ProveArchives(e, n.(vol := Noted(e.vol, v.nonce)), env, v);
    } else {
      QuietStays(e, env, s);
    }
  }

  lemma QuietStays(e: Engine, env: Env, s: Option<Snapshot>)
    requires !Judge(e.vol, e.disk.ledger, env, s).Proven?
    ensures var e' := Recover(e, env, s);
            StillPaused(e, e') && e'.log == e.log + [LookOf(e, env, s)]
  {
    hide Judge;
  }

  lemma ProveArchives(e: Engine, n: Engine, env: Env, v: Verdict)
    requires v.Proven? && n.disk == e.disk && n.vol == Noted(e.vol, v.nonce)
    requires if e.disk.ledger.Some? then e.disk.ledger == Some(v.raw) else v.raw == ""
    ensures var e' := Prove(n, env, v.proof + v.raw);
            if e'.vol.initialized && e'.log == n.log + [Released(v.nonce, v.proof + v.raw, env.clock.waited)] then
              Archived(e, e', env, v)
            else e'.vol.initialized && e.vol.initialized ==> StillPaused(e, e')
  {
    hide FirstSight;
  }

  lemma ProvenRaw(vol: Volatile, ledger: Option<string>, env: Env, s: Option<Snapshot>)
    ensures var v := Judge(vol, ledger, env, s);
            v.Proven? ==> if ledger.Some? then ledger == Some(v.raw) else v.raw == ""
  {
    hide ParseRecovery, ParseLedger, Proof, CanRecover;
    assert ParseLedger("").None? by { NothingInNothing(); }
  }
}
