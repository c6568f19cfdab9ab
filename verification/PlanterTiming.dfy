/** Two RPCs of one process are at least five seconds apart while its clock does not go back. */
module PlanterTiming {
  import opened LedgerText
  import opened Options
  import opened PlanterState

  predicate Ordered(c: Clock) {
    c.guard <= c.stamp <= c.asked <= c.seen <= c.waited <= c.released <= c.finished <= c.gate <= c.sent
  }

  /** The first reading of a step is not before `from`, and its last is `Until(from, step)`. */
  predicate Steady(from: int, step: Step) {
    step.TickStep? ==> from <= step.env.clock.guard && Ordered(step.env.clock)
  }

  function Until(from: int, step: Step): int {
    if step.TickStep? then step.env.clock.sent else from
  }

  predicate SteadyRun(steps: seq<Step>) {
    steps == [] ||
    (SteadyRun(steps[..|steps| - 1]) && Steady(LastReading(steps[..|steps| - 1]), steps[|steps| - 1]))
  }

  function LastReading(steps: seq<Step>): int {
    if steps == [] then MIN_LONG else Until(LastReading(steps[..|steps| - 1]), steps[|steps| - 1])
  }

  predicate SameProcess(log: seq<Event>, i: int, j: int)
    requires 0 <= i && j <= |log|
  {
    forall k :: i < k < j ==> !log[k].Restarted?
  }

  /** Sends of one process keep their distance. */
  predicate Spaced(log: seq<Event>) {
    forall i, j :: 0 <= i < j < |log| && log[i].Sent? && log[j].Sent? && SameProcess(log, i, j) ==>
      log[j].at - log[i].at >= 5000
  }

  predicate Ready(vol: Volatile) {
    !vol.restartBlocked && vol.blocked == "" && vol.pending.None?
  }

  /** The send at i was made by this process, which may send again only five seconds later. */
  predicate Recent(vol: Volatile, at: int, now: int) {
    vol.initialized && at <= now && (Ready(vol) ==> vol.nextAction >= at + 5000)
  }

  predicate AllRecent(e: Engine, now: int) {
    forall i :: 0 <= i < |e.log| && e.log[i].Sent? && SameProcess(e.log, i, |e.log|) ==>
      Recent(e.vol, e.log[i].at, now)
  }

  predicate Paced(e: Engine, now: int) {
    Spaced(e.log) && AllRecent(e, now)
  }

  lemma SameProcessBefore(log: seq<Event>, tail: seq<Event>, i: int, j: int)
    requires 0 <= i && j <= |log| && SameProcess(log + tail, i, j)
    ensures SameProcess(log, i, j)
  {
    forall k | i < k < j ensures !log[k].Restarted? {
      assert (log + tail)[k] == log[k];
    }
  }

  lemma SameProcessShorter(log: seq<Event>, i: int, j: int, m: int)
    requires 0 <= i && j <= m <= |log| && SameProcess(log, i, m)
    ensures SameProcess(log, i, j)
  {
  }

  lemma SpacedExtends(log: seq<Event>, tail: seq<Event>)
    requires Spaced(log) && NoSends(tail)
    ensures Spaced(log + tail)
  {
    hide SameProcess;
    var longer := log + tail;
    forall i, j | 0 <= i < j < |longer| && longer[i].Sent? && longer[j].Sent? && SameProcess(longer, i, j)
      ensures longer[j].at - longer[i].at >= 5000
    {
      SentBefore(log, tail, j);
      SameProcessBefore(log, tail, i, j);
    }
  }

  /** Nothing is sent, and what was recent still is, unless the process is another one. */
  lemma KeepPaced(e: Engine, e': Engine, tail: seq<Event>, now: int, now': int)
    requires Paced(e, now) && e'.log == e.log + tail && NoSends(tail)
    requires (exists k :: 0 <= k < |tail| && tail[k].Restarted?) ||
             (forall at :: Recent(e.vol, at, now) ==> Recent(e'.vol, at, now'))
    ensures Paced(e', now')
  {
    hide SameProcess, Recent;
    SpacedExtends(e.log, tail);
    forall i | 0 <= i < |e'.log| && e'.log[i].Sent? && SameProcess(e'.log, i, |e'.log|)
      ensures Recent(e'.vol, e'.log[i].at, now')
    {
      SentBefore(e.log, tail, i);
      SameProcessShorter(e'.log, i, |e.log|, |e'.log|);
      SameProcessBefore(e.log, tail, i, |e.log|);
      if k :| 0 <= k < |tail| && tail[k].Restarted? {
        NotTheSame(e.log, tail, i, k);
      }
    }
  }

  lemma NotTheSame(log: seq<Event>, tail: seq<Event>, i: int, k: int)
    requires 0 <= i < |log| && 0 <= k < |tail| && tail[k].Restarted?
    ensures !SameProcess(log + tail, i, |log + tail|)
  {
    assert (log + tail)[|log| + k] == tail[k];
  }

  lemma RestartPaced(e: Engine, pid: int, now: int, now': int)
    requires Paced(e, now)
    ensures Paced(Restart(e, pid), now')
  {
    hide Paced, Recent;
    assert [Restarted][0].Restarted?;
    KeepPaced(e, Restart(e, pid), [Restarted], now, now');
  }

  lemma VolPaced(e: Engine, vol: Volatile, now: int, now': int)
    requires Paced(e, now) && forall at :: Recent(e.vol, at, now) ==> Recent(vol, at, now')
    ensures Paced(e.(vol := vol), now')
  {
    hide Paced, Recent;
    assert e.log + [] == e.log;
    KeepPaced(e, e.(vol := vol), [], now, now');
  }

  /** Later stages do not look at the disk. */
  lemma DiskPaced(e: Engine, disk: Disk, now: int)
    requires Paced(e, now)
    ensures Paced(e.(disk := disk), now)
  {
  }

  lemma BeginPaced(e: Engine, env: Env, now: int)
    requires Paced(e, now) && now <= env.clock.guard && Ordered(env.clock)
    ensures Paced(Begin(e, env), env.clock.asked)
  {
    hide Paced;
    VolPaced(e, Begin(e, env).vol, now, env.clock.asked);
  }

  lemma ReleasePaced(e: Engine, env: Env, key: string)
    requires Paced(e, env.clock.released) && e.vol.initialized
    ensures Paced(Release(e, env, key), env.clock.released)
  {
    hide Paced;
    var disk := if e.disk.ledger.Some? then Disk(None, e.disk.ledger) else e.disk;
    var d := e.(disk := disk);
    DiskPaced(e, disk, env.clock.released);
    if e.disk.ledger.Some? && env.dies == Some(AfterArchive) {
      RestartPaced(d, env.nextPid, env.clock.released, env.clock.released);
    } else {
      var tail := [Released(e.vol.nonce, key, env.clock.waited)];
      KeepPaced(e, Release(e, env, key), tail, env.clock.released, env.clock.released);
    }
  }

  lemma ProvePaced(e: Engine, env: Env, key: string)
    requires Paced(e, env.clock.released) && e.vol.initialized
    ensures Paced(Prove(e, env, key), env.clock.released)
  {
    hide Paced, FirstSight, Release;
    ReleasePaced(e, env, key);
    var r := Prove(e, env, key);
    if r.log == e.log && r.disk == e.disk && r.vol.initialized && r.vol.nextAction == e.vol.nextAction
       && Ready(r.vol) == Ready(e.vol)
    {
      VolPaced(e, r.vol, env.clock.released, env.clock.released);
    }
  }

  /** Without a proof a recovery changes its own fields only. */
  lemma QuietRecovery(e: Engine, env: Env, s: Option<Snapshot>)
    requires !Judge(e.vol, e.disk.ledger, env, s).Proven?
    ensures var r := Recover(e, env, s);
            && r == e.(log := e.log + [LookOf(e, env, s)], vol := r.vol)
            && r.vol.initialized == e.vol.initialized && r.vol.nextAction == e.vol.nextAction
            && r.vol.blocked == e.vol.blocked && r.vol.restartBlocked == e.vol.restartBlocked && r.vol.pending == e.vol.pending
  {
    hide Judge;
  }

  lemma RecoverPaced(e: Engine, env: Env, s: Option<Snapshot>)
    requires Paced(e, env.clock.asked) && Ordered(env.clock) && e.vol.initialized
    ensures Paced(Recover(e, env, s), env.clock.released)
  {
    hide Paced, Judge, Prove;
    var v := Judge(e.vol, e.disk.ledger, env, s);
    var n := e.(log := e.log + [LookOf(e, env, s)]);
    KeepPaced(e, n, [LookOf(e, env, s)], env.clock.asked, env.clock.released);
    if v.Proven? {
      VolPaced(n, Noted(e.vol, v.nonce), env.clock.released, env.clock.released);
      ProvePaced(n.(vol := Noted(e.vol, v.nonce)), env, v.proof + v.raw);
    } else {
      QuietRecovery(e, env, s);
      VolPaced(n, Recover(e, env, s).vol, env.clock.released, env.clock.released);
    }
  }

  lemma FinishPaced(e: Engine, env: Env, event: string, confirmed: bool)
    requires Paced(e, env.clock.released) && Ordered(env.clock) && e.vol.initialized
    ensures Paced(Finish(e, env, event, confirmed), env.clock.sent)
  {
    hide Paced;
    var r := Finish(e, env, event, confirmed);
    var d := e.(disk := r.disk);
    DiskPaced(e, r.disk, env.clock.released);
    if confirmed && env.dies == Some(AfterRemove) {
      RestartPaced(d, env.nextPid, env.clock.released, env.clock.sent);
    } else {
      VolPaced(d, r.vol, env.clock.released, env.clock.sent);
    }
  }

  lemma ConfirmPaced(e: Engine, env: Env, s: Option<Snapshot>, p: Pending)
    requires Paced(e, env.clock.released) && Ordered(env.clock) && e.vol.initialized
    ensures Paced(Confirm(e, env, s, p), env.clock.sent)
  {
    hide Paced, Confirmed, Finish;
    if s.Some? && Confirmed(p, s.value) {
      FinishPaced(e, env, p.action + "-confirmed", true);
    } else {
      VolPaced(e, e.vol.(pending := Some(p)), env.clock.released, env.clock.sent);
    }
  }

  lemma ObservePaced(e: Engine, env: Env, s: Option<Snapshot>, p: Pending)
    requires Paced(e, env.clock.released) && Ordered(env.clock) && e.vol.initialized
    ensures Paced(Observe(e, env, s, p), env.clock.sent)
  {
    hide Paced, Confirm, Finish, ReplyOf;
    WaitPaced(e, env);
    var reply := ReplyOf(env.answer, p);
    if p.responded {
      ConfirmPaced(e, env, s, p);
    } else if reply.Bad? {
      FinishPaced(e, env, reply.event, false);
    } else if reply.Good? {
      ConfirmPaced(e, env, s, reply.p);
    }
  }

  lemma WaitPaced(e: Engine, env: Env)
    requires Paced(e, env.clock.released) && Ordered(env.clock)
    ensures Paced(e, env.clock.sent)
  {
    hide Paced;
    assert e.(vol := e.vol) == e;
    VolPaced(e, e.vol, env.clock.released, env.clock.sent);
  }

  lemma BlockPaced(e: Engine, reason: string, now: int)
    requires Paced(e, now) && reason != ""
    ensures Paced(Block(e, reason), now)
  {
    hide Paced;
    VolPaced(e, Block(e, reason).vol, now, now);
  }

  lemma SendSpaced(log: seq<Event>, ev: Event)
    requires Spaced(log) && ev.Sent?
    requires forall i :: 0 <= i < |log| && log[i].Sent? && SameProcess(log, i, |log|) ==> log[i].at + 5000 <= ev.at
    ensures Spaced(log + [ev])
  {
    hide SameProcess;
    var longer := log + [ev];
    forall i, j | 0 <= i < j < |longer| && longer[i].Sent? && longer[j].Sent? && SameProcess(longer, i, j)
      ensures longer[j].at - longer[i].at >= 5000
    {
      SameProcessBefore(log, [ev], i, j);
    }
  }

  lemma SendPaced(e: Engine, e': Engine, ev: Event, now: int)
    requires Paced(e, now) && Ready(e.vol) && ev.Sent? && e.vol.nextAction <= ev.at && now <= ev.at
    requires e'.log == e.log + [ev] && e'.vol.initialized && !Ready(e'.vol)
    ensures Paced(e', ev.at)
  {
    hide SameProcess, Ready;
    SendSpaced(e.log, ev);
    forall i | 0 <= i < |e'.log| && e'.log[i].Sent? && SameProcess(e'.log, i, |e'.log|)
      ensures Recent(e'.vol, e'.log[i].at, ev.at)
    {
      if i < |e.log| {
        assert e'.log[i] == e.log[i];
        SameProcessShorter(e'.log, i, |e.log|, |e'.log|);
        SameProcessBefore(e.log, [ev], i, |e.log|);
      }
    }
  }

  lemma SubmitPaced(e: Engine, env: Env, pick: Pick, s: Snapshot)
    requires Paced(e, env.clock.sent) && Ready(e.vol) && e.vol.initialized && e.vol.nextAction <= env.clock.sent
    ensures Paced(Submit(e, env, pick, s), env.clock.sent)
  {
    hide Paced;
    var ev := Sent(pick.action, pick.seed.id, pick.slot.index, env.clock.sent);
    var logged := e.(log := e.log + [ev]);
    var r := Submit(e, env, pick, s);
    if env.dies == Some(AfterCall) {
      var held := Block(logged, "rpc-start-uncertain-review-required");
      SendPaced(e, held, ev, env.clock.sent);
      RestartPaced(held, env.nextPid, env.clock.sent, env.clock.sent);
      assert r == Restart(held, env.nextPid);
    } else {
      SendPaced(e, r, ev, env.clock.sent);
    }
  }

  lemma StartPaced(e: Engine, env: Env, pick: Pick, s: Snapshot)
    requires Paced(e, env.clock.sent) && Ready(e.vol) && e.vol.initialized && e.vol.nextAction <= env.clock.sent
    ensures Paced(Start(e, env, pick, s), env.clock.sent)
  {
    hide Paced, Submit, Render;
    var disk := e.disk.(ledger := Some(Render(LedgerOf(pick, env.clock.sent))));
    BlockPaced(e, "request-build-failed", env.clock.sent);
    BlockPaced(e, "audit-write-failed", env.clock.sent);
    DiskPaced(e, disk, env.clock.sent);
    RestartPaced(e.(disk := disk), env.nextPid, env.clock.sent, env.clock.sent);
    SubmitPaced(e.(disk := disk), env, pick, s);
  }

  lemma ActPaced(e: Engine, env: Env, s: Option<Snapshot>)
    requires Paced(e, env.clock.released) && Ordered(env.clock) && e.vol.initialized
    ensures Paced(Act(e, env, s), env.clock.sent)
  {
    hide Paced, Observe, Start, Choice, StorageRoom;
    WaitPaced(e, env);
    if e.vol.pending.Some? {
      ObservePaced(e, env, s, e.vol.pending.value);
    } else if !Paused(e.vol) && s.Some? && env.clock.gate >= e.vol.nextAction {
      var pick := Choice(s.value, env.mode == Auto, env.steps);
      if pick.Some? { StartPaced(e, env, pick.value, s.value); }
    }
  }

  lemma NextPaced(e: Engine, step: Step, now: int)
    requires Paced(e, now) && Steady(now, step)
    ensures Paced(Next(e, step), Until(now, step))
  {
    hide Paced, Recover, Act, Reading, Captures, Restart;
    match step {
      case DieStep(pid) => RestartPaced(e, pid, now, now);
      case TickStep(env) =>
        var b := Begin(e, env);
        BeginPaced(e, env, now);
        if Captures(e, env) {
          BeginInitialized(e, env);
          var s := Reading(env.view);
          RecoverPaced(b, env, s);
          var r := Recover(b, env, s);
          if r.vol.initialized { ActPaced(r, env, s); } else { LaterPaced(r, env.clock.released, env.clock.sent); }
        } else {
          LaterPaced(b, env.clock.asked, env.clock.sent);
        }
    }
  }

  lemma BeginInitialized(e: Engine, env: Env)
    requires Captures(e, env)
    ensures Begin(e, env).vol.initialized
  {
  }

  lemma LaterPaced(e: Engine, now: int, now': int)
    requires Paced(e, now) && now <= now'
    ensures Paced(e, now')
  {
    hide Paced;
    assert e.(vol := e.vol) == e;
    VolPaced(e, e.vol, now, now');
  }

  /** In every run under a clock that does not go back, the RPCs of one process are five seconds apart. */
  lemma {:induction false} SendsAreSpaced(disk: Disk, pid: int, steps: seq<Step>)
    requires SteadyRun(steps)
    ensures Paced(Run(Boot(disk, pid), steps), LastReading(steps))
    ensures Spaced(Run(Boot(disk, pid), steps).log)
  {
    hide Next, Spaced, AllRecent, Steady, Until;
    if steps == [] {
      BootPaced(disk, pid);
    } else {
      var before := steps[..|steps| - 1];
      SendsAreSpaced(disk, pid, before);
      NextPaced(Run(Boot(disk, pid), before), steps[|steps| - 1], LastReading(before));
    }
  }

  lemma BootPaced(disk: Disk, pid: int)
    ensures Paced(Boot(disk, pid), MIN_LONG)
  {
  }
}
