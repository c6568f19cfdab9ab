/** A ledger on disk stops the planter: exactly when, and that nothing is sent over an unresolved one. */
module PlanterLedger {
  import opened LedgerText
  import opened Options
  import opened PlanterState

  /** An initialised process with a ledger on disk awaits its RPC, or is blocked. */
  predicate Guarded(e: Engine) {
    e.vol.initialized && e.disk.ledger.Some? ==>
      !e.vol.compatible || e.vol.restartBlocked || e.vol.blocked != "" || e.vol.pending.Some?
  }

  /** The RPC in flight as a tick leaves it, if the tick lets it go on. */
  function Answering(env: Env, p: Pending): Option<Pending> {
    if p.responded then Some(p)
    else
      var reply := ReplyOf(env.answer, p);
      if reply.Good? then Some(reply.p) else None
  }

  /** The process goes on after it has seen its RPC confirmed. */
  predicate Confirms(e: Engine, env: Env, s: Option<Snapshot>) {
    && !Paused(e.vol) && e.vol.pending.Some? && s.Some? && env.dies != Some(AfterRemove)
    && Answering(env, e.vol.pending.value).Some?
    && Confirmed(Answering(env, e.vol.pending.value).value, s.value)
  }

  lemma BeginGuards(e: Engine, env: Env)
    requires Guarded(e)
    ensures Guarded(Begin(e, env))
  {
  }

  lemma RecoverGuards(e: Engine, env: Env, s: Option<Snapshot>)
    requires Guarded(e)
    ensures Guarded(Recover(e, env, s))
  {
    hide Judge, FirstSight;
  }

  lemma StartGuards(e: Engine, env: Env, pick: Pick, s: Snapshot)
    ensures Guarded(Start(e, env, pick, s))
  {
    hide Render;
  }

  lemma DecideGuards(e: Engine, env: Env, s: Snapshot)
    requires Guarded(e)
    ensures Guarded(Decide(e, env, s))
  {
    hide Choice, StorageRoom, Start, Guarded;
    var pick := Choice(s, env.mode == Auto, env.steps);
    if pick.Some? { StartGuards(e, env, pick.value, s); }
  }

  lemma FinishGuards(e: Engine, env: Env, event: string, confirmed: bool)
    requires e.vol.initialized && e.vol.compatible && !Paused(e.vol) && (confirmed || event != "")
    ensures Guarded(Finish(e, env, event, confirmed)) <==>
              !confirmed || env.dies == Some(AfterRemove) || env.removed || e.disk.ledger.None?
  {
  }

  lemma ObserveGuards(e: Engine, env: Env, s: Option<Snapshot>)
    requires e.vol.initialized && e.vol.compatible && !Paused(e.vol) && e.vol.pending.Some?
    ensures Guarded(Observe(e, env, s, e.vol.pending.value)) <==>
              !(Confirms(e, env, s) && !env.removed && e.disk.ledger.Some?)
  {
    hide Finish, Confirmed, Paused, ReplyOf;
    var p := e.vol.pending.value;
    var reply := ReplyOf(env.answer, p);
    if !p.responded && reply.Bad? { FinishGuards(e, env, reply.event, false); }
    FinishGuards(e, env, p.action + "-confirmed", true);
  }

  /** A tick leaves an unguarded ledger exactly when it confirms an RPC and the file cannot be removed. */
  lemma ActGuards(e: Engine, env: Env, s: Option<Snapshot>)
    requires Guarded(e) && e.vol.initialized && e.vol.compatible
    ensures Guarded(Act(e, env, s)) <==> !(Confirms(e, env, s) && !env.removed && e.disk.ledger.Some?)
  {
    hide Observe, Decide, Answering, Confirmed;
    if e.vol.pending.Some? {
      if !Paused(e.vol) { ObserveGuards(e, env, s); }
    } else if s.Some? {
      DecideGuards(e, env, s.value);
    }
  }

  predicate Removes(step: Step) {
    step.TickStep? ==> step.env.removed
  }

  lemma NextGuards(e: Engine, step: Step)
    requires Guarded(e) && Removes(step)
    ensures Guarded(Next(e, step))
  {
    hide Guarded, Recover, Act, Reading;
    match step {
      case TickStep(env) =>
        BeginGuards(e, env);
        if Captures(e, env) {
          var s := Reading(env.view);
          RecoverGuards(Begin(e, env), env, s);
          var r := Recover(Begin(e, env), env, s);
          assert r.vol.initialized ==> r.vol.compatible by { RecoverCompatible(Begin(e, env), env, s); }
          if r.vol.initialized { ActGuards(r, env, s); }
        }
      case DieStep(pid) => assert Guarded(Restart(e, pid)) by { RestartGuards(e, pid); }
    }
  }

  lemma RestartGuards(e: Engine, pid: int)
    ensures Guarded(Restart(e, pid))
  {
  }

  /** Unless a confirmed ledger could not be removed, a ledger on disk always holds an initialised process. */
  lemma {:induction false} LedgerHolds(disk: Disk, pid: int, steps: seq<Step>)
    requires forall k :: 0 <= k < |steps| ==> Removes(steps[k])
    ensures Guarded(Run(Boot(disk, pid), steps))
  {
    hide Guarded, Next, Removes;
    if steps == [] {
      BootGuarded(disk, pid);
    } else {
      LedgerHolds(disk, pid, steps[..|steps| - 1]);
      NextGuards(Run(Boot(disk, pid), steps[..|steps| - 1]), steps[|steps| - 1]);
    }
  }

  lemma BootGuarded(disk: Disk, pid: int)
    ensures Guarded(Boot(disk, pid))
  {
  }
}
