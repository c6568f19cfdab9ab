/** Where at most once stops: an id that is not faithful is read back as another one, so that a recovery looks at the
    wrong seed, and the seed is plucked or planted again. And a ledger that cannot be removed, which holds nothing. */
module PlanterLimits {
  import opened LedgerText
  import opened Options
  import opened PlanterLedger
  import opened PlanterSafety
  import opened PlanterState

  // ---------- the inventory ----------

  function ActionOf(plant: bool): string {
    if plant then "plant" else "pluck"
  }

  /** A ready seed in the only slot, or a seed to plant and two empty slots. */
  function Before(plant: bool, id: string): View {
    if plant then
      View(true, [SeedRow(id, 0, 100, 0, false, false, true, false)], [Slot(0, 0, ""), Slot(1, 0, "")], ["p"], 2, [Some(10)])
    else
      View(true, [SeedRow(id, 1, 1, 1, false, false, false, true)], [Slot(0, 0, id)], ["p"], 1, [Some(10)])
  }

  /** The same later on; somebody has planted the seed with the trimmed id in the first slot. */
  function Later(plant: bool, id: string): View {
    if plant then
      View(true, [SeedRow(id, 0, 100, 0, false, false, true, false), SeedRow(Trim(id), 0, 100, 1, false, false, true, false)],
           [Slot(0, 0, Trim(id)), Slot(1, 0, "")], ["p"], 2, [Some(10)])
    else Before(plant, id)
  }

  function Target(plant: bool, id: string): Seed {
    if plant then Seed(id, 100, 0, false, false, false, true) else Seed(id, 1, 1, true, false, false, false)
  }

  function Twin(id: string): Seed {
    Seed(Trim(id), 100, 1, false, false, false, true)
  }

  function SnapBefore(plant: bool, id: string): Snapshot {
    if plant then Snapshot([Target(plant, id)], {"p"}, [Slot(0, 0, ""), Slot(1, 0, "")], 2, 10)
    else Snapshot([Target(plant, id)], {"p"}, [Slot(0, 0, id)], 1, 10)
  }

  function SnapLater(plant: bool, id: string): Snapshot {
    if plant then Snapshot([Target(plant, id), Twin(id)], {"p"}, [Slot(0, 0, Trim(id)), Slot(1, 0, "")], 2, 10)
    else SnapBefore(plant, id)
  }

  lemma ReadBefore(plant: bool, id: string)
    requires id != ""
    ensures Reading(Before(plant, id)) == Some(SnapBefore(plant, id))
  {
    var view := Before(plant, id);
    assert plant || view.seeds[0].id == view.slots[0].seed;
    assert Consistent(view);
    assert SnapshotOf(view).seeds == [Target(plant, id)];
    assert SnapshotOf(view).pikmins == {"p"};
  }

  lemma ReadLater(plant: bool, id: string)
    requires id != "" && Trim(id) != "" && Trim(id) != id
    ensures Reading(Later(plant, id)) == Some(SnapLater(plant, id))
  {
    hide Trim;
    ReadBefore(plant, id);
    if plant {
      var view := Later(plant, id);
      assert view.seeds[1].id == view.slots[0].seed;
      assert Consistent(view);
      assert SnapshotOf(view).seeds == [Target(plant, id), Twin(id)];
      assert SnapshotOf(view).pikmins == {"p"};
    }
  }

  lemma Chosen(id: string)
    ensures Choice(SnapBefore(false, id), true, {1}) == Some(Pick("pluck", Target(false, id), Slot(0, 0, id)))
  {
    var s := SnapBefore(false, id);
    assert Lookup(s.seeds, id) == Some(Target(false, id));
    assert Ripe(s.slots[0], s);
  }

  lemma OnlyBest(s: Snapshot, seed: Seed)
    requires Plantable(seed, s, {1})
    ensures Best([seed], s, {1}) == Some(seed)
  {
    assert [seed][..0] == [];
    assert Best([], s, {1}).None?;
  }

  lemma ChosenToPlant(id: string)
    requires id != ""
    ensures Choice(SnapBefore(true, id), true, {1}) == Some(Pick("plant", Target(true, id), Slot(0, 0, "")))
  {
    var s := SnapBefore(true, id);
    assert FirstRipe(s.slots, s).None? by {
      assert Lookup(s.seeds, "").None?;
      assert FirstRipe(s.slots[1..], s).None?;
    }
    OnlyBest(s, Target(true, id));
    assert FirstFree(s.slots, s) == Some(Slot(0, 0, ""));
  }

  lemma ChosenToPlantLater(id: string)
    requires id != "" && Trim(id) != "" && Trim(id) != id
    ensures Choice(SnapLater(true, id), true, {1}) == Some(Pick("plant", Target(true, id), Slot(1, 0, "")))
  {
    hide Trim;
    var s := SnapLater(true, id);
    NoneRipeLater(id);
    assert FirstFree(s.slots[1..], s) == Some(Slot(1, 0, ""));
    assert FirstFree(s.slots, s) == Some(Slot(1, 0, ""));
    OnlyBest(s, Target(true, id));
    assert s.seeds[..1] == [Target(true, id)];
  }

  lemma NoneRipeLater(id: string)
    requires id != "" && Trim(id) != "" && Trim(id) != id
    ensures FirstRipe(SnapLater(true, id).slots, SnapLater(true, id)).None?
  {
    hide Trim;
    var s := SnapLater(true, id);
    assert Lookup(s.seeds[1..], Trim(id)) == Some(Twin(id));
    assert Lookup(s.seeds, Trim(id)) == Some(Twin(id));
    assert Lookup(s.seeds[1..], "").None?;
    assert !Ripe(s.slots[0], s) && !Ripe(s.slots[1], s);
    assert FirstRipe(s.slots[1..], s).None?;
  }

  // ---------- the texts ----------

  function FirstLedger(plant: bool, id: string): Ledger {
    Ledger(1, ActionOf(plant), id, 0)
  }

  function TrimmedRequest(plant: bool, id: string): Request {
    Request("n", 1, 20000, FirstLedger(plant, Trim(id)))
  }

  lemma UnfaithfulIs(id: string)
    requires !Faithful(id)
    ensures id != "" && Trim(id) != "" && Trim(id) != id && |id| <= LONGEST_SEED && SafeToken(Trim(id), 256)
  {
  }

  lemma OneDigit(n: nat)
    requires n < 10
    ensures |Decimal(n)| == 1
  {
  }

  lemma FiveDigits(n: nat)
    requires 10000 <= n < 100000
    ensures |Decimal(n)| == 5
  {
    assert |Natural(n / 10 / 10 / 10 / 10)| == 1;
    assert |Natural(n / 10 / 10 / 10)| == 2;
    assert |Natural(n / 10 / 10)| == 3;
    assert |Natural(n / 10)| == 4;
  }

  lemma LedgerRead(plant: bool, id: string)
    requires !Faithful(id)
    ensures RawLedger(Render(FirstLedger(plant, id)), true) == Render(FirstLedger(plant, id))
    ensures ParseLedger(Render(FirstLedger(plant, id))) == Some(FirstLedger(plant, Trim(id)))
  {
    hide Decimal, Trim, SafeToken, ParseLedger, Faithful;
    UnfaithfulIs(id);
    var l := FirstLedger(plant, id);
    OneDigit(1);
    OneDigit(0);
    assert |Render(l)| <= 512;
    assert Word(ActionOf(plant));
    ParseLine(l, '\t', "\n");
  }

  lemma TokenIsWord(s: string, max: nat)
    requires SafeToken(s, max)
    ensures Word(s) && Trim(s) == s && |s| <= max
  {
    assert IsTokenChar(s[0]);
    SafeTokenTrims(s, max);
  }

  lemma RequestRead(plant: bool, id: string)
    requires !Faithful(id)
    ensures ParseRecovery(RequestText(TrimmedRequest(plant, id))) == Some(TrimmedRequest(plant, id))
  {
    hide Decimal, SafeToken, ParseLedger, ParseRecovery, Trim, Faithful;
    UnfaithfulIs(id);
    var r := TrimmedRequest(plant, id);
    TokenIsWord(Trim(id), 256);
    FiveDigits(20000);
    OneDigit(0);
    OneDigit(1);
    assert Word(ActionOf(plant)) && Word("n");
    assert |Line(r.expected, ' ', "")| <= 512 && |RequestText(r)| <= 1024;
    ParseLine(r.expected, ' ', "");
    assert r.expected.(seed := Trim(r.expected.seed)) == r.expected;
    assert SafeToken("n", 64) by { NonceIsToken(); }
    RequestReadsBack(r);
  }

  lemma NonceIsToken()
    ensures SafeToken("n", 64)
  {
  }

  lemma NothingRead()
    ensures ParseRecovery("").None?
  {
  }

  // ---------- the four ticks ----------

  /** The clock of a tick; the first RPC is stamped with time 1. */
  function At(t: Time): Clock {
    Clock(t, t, t, t, t, t, t, t, if t == 10000 then 1 else t)
  }

  /** A tick whose RPC, if it comes to one, throws. */
  function TickAt(view: View, t: Time, request: string): Env {
    Env(true, true, true, At(t), view, request, true, true, true, Answer.Waiting, true, Auto, {1},
        true, true, false, true, None, 1)
  }

  function Ticks(plant: bool, id: string): (Env, Env, Env, Env) {
    var request := RequestText(TrimmedRequest(plant, id));
    var later := Later(plant, id);
    (TickAt(Before(plant, id), 10000, ""), TickAt(later, 20000, request), TickAt(later, 30000, request),
     TickAt(later, 40000, request))
  }

  function ProofName(plant: bool): string {
    if plant then "plant-state-confirmed" else "pluck-target-retired"
  }

  function Key(plant: bool, id: string): string {
    ProofName(plant) + Render(FirstLedger(plant, id))
  }

  function Look(s: Snapshot, nonce: string, proof: Option<string>, at: int): Event {
    Looked(Some(s), nonce, proof, at)
  }

  function FirstSend(plant: bool, id: string): Event {
    Sent(ActionOf(plant), id, 0, 1)
  }

  function SecondSend(plant: bool, id: string): Event {
    Sent(ActionOf(plant), id, if plant then 1 else 0, 40000)
  }

  const UNCERTAIN := "rpc-start-uncertain-review-required"

  function Blocked(plant: bool, id: string): Engine {
    Engine(Disk(Some(Render(FirstLedger(plant, id))), None),
           Volatile(1, true, true, false, 10000, 0, UNCERTAIN, None, "none", "", 0, false),
           [Look(SnapBefore(plant, id), "none", None, 10000), FirstSend(plant, id)])
  }

  function Seen(plant: bool, id: string): Engine {
    Engine(Disk(Some(Render(FirstLedger(plant, id))), None),
           Volatile(1, true, true, false, 20000, 0, UNCERTAIN, None, "n", Key(plant, id), 20000, true),
           Blocked(plant, id).log + [Look(SnapLater(plant, id), "n", Some(Key(plant, id)), 20000)])
  }

  function Lifted(plant: bool, id: string): Engine {
    Engine(Disk(None, Some(Render(FirstLedger(plant, id)))),
           Volatile(1, true, true, false, 30000, 35000, "", None, "n", Key(plant, id), 20000, false),
           Seen(plant, id).log
           + [Look(SnapLater(plant, id), "n", Some(Key(plant, id)), 30000), Released("n", Key(plant, id), 30000)])
  }

  function Relapsed(plant: bool, id: string): Engine {
    var l := Ledger(40000, ActionOf(plant), id, if plant then 1 else 0);
    Engine(Disk(Some(Render(l)), Some(Render(FirstLedger(plant, id)))),
           Volatile(1, true, true, false, 40000, 35000, UNCERTAIN, None, "n", Key(plant, id), 20000, false),
           Lifted(plant, id).log + [Look(SnapLater(plant, id), "n", None, 40000), SecondSend(plant, id)])
  }

  /** A process that nothing pauses sends the RPC that it chooses, and is blocked. */
  lemma Sends(e: Engine, env: Env, s: Snapshot, pick: Pick)
    requires e.vol.initialized && !Paused(e.vol) && e.vol.pending.None? && e.vol.nextAction <= env.clock.gate
    requires env.mode == Auto && env.built && env.wrote && !env.called && env.dies.None?
    requires Choice(s, true, env.steps) == Some(pick) && |s.pikmins| == 1 && s.capacity == 10
    ensures Act(e, env, Some(s)) ==
              Engine(Disk(Some(Render(LedgerOf(pick, env.clock.sent))), e.disk.archive), e.vol.(blocked := UNCERTAIN),
                     e.log + [SentFor(pick, env.clock.sent)])
  {
    hide Choice, Line;
  }

  lemma FirstTick(plant: bool, id: string)
    requires id != ""
    ensures Tick(Boot(Disk(None, None), 1), Ticks(plant, id).0) == Blocked(plant, id)
  {
    hide Act, Reading, Line, ParseRecovery, RequestText;
    var e, env, s := Boot(Disk(None, None), 1), Ticks(plant, id).0, SnapBefore(plant, id);
    ReadBefore(plant, id);
    NothingRead();
    if plant { ChosenToPlant(id); } else { Chosen(id); }
    var r := Recover(Begin(e, env), env, Some(s));
    assert r == Engine(e.disk, Volatile(1, true, true, false, 10000, 0, "", None, "none", "", 0, false),
                       [Look(s, "none", None, 10000)]);
    Sends(r, env, s, Choice(s, true, {1}).value);
  }

  /** The later inventory proves the RPC of the trimmed id. */
  lemma TwinProves(plant: bool, id: string)
    requires !Faithful(id)
    ensures Proof(FirstLedger(plant, Trim(id)), SnapLater(plant, id)) == ProofName(plant)
  {
    hide Trim, SafeToken, Faithful;
    UnfaithfulIs(id);
    var s := SnapLater(plant, id);
    if plant {
      assert s.slots[..1] == [s.slots[0]];
      assert SlotAt(s.slots[..1], 0) == Some(s.slots[0]);
      assert SlotAt(s.slots, 0) == Some(Slot(0, 0, Trim(id)));
      assert Lookup(s.seeds[1..], Trim(id)) == Some(Twin(id));
      assert Lookup(s.seeds, Trim(id)) == Some(Twin(id));
    } else {
      assert SlotAt(s.slots, 0) == Some(Slot(0, 0, id));
      assert Lookup(s.seeds, Trim(id)).None?;
    }
  }

  lemma RequestProven(plant: bool, id: string, e: Engine, env: Env)
    requires !Faithful(id) && env.request == RequestText(TrimmedRequest(plant, id)) && env.readable
    requires 20000 <= env.clock.asked <= 30000
    requires e.vol.pid == 1 && e.vol.compatible && e.vol.pending.None? && (e.vol.nonce != "n" || e.vol.waiting)
    requires e.disk.ledger == Some(Render(FirstLedger(plant, id)))
    ensures Judge(e.vol, e.disk.ledger, env, Some(SnapLater(plant, id)))
              == Proven("n", ProofName(plant), Render(FirstLedger(plant, id)))
  {
    hide Render, ParseLedger, ParseRecovery, Proof, RequestText, Trim, Faithful, RawLedger;
    RequestRead(plant, id);
    LedgerRead(plant, id);
    TwinProves(plant, id);
    assert "p" in SnapLater(plant, id).pikmins;
    assert CanRecover(ProofName(plant));
  }

  lemma ActPaused(e: Engine, env: Env, s: Option<Snapshot>)
    requires Paused(e.vol)
    ensures Act(e, env, s) == e
  {
  }

  lemma ActLater(e: Engine, env: Env, s: Snapshot)
    requires e.vol.pending.None? && env.clock.gate < e.vol.nextAction
    ensures Act(e, env, Some(s)) == e
  {
  }

  lemma SecondTick(plant: bool, id: string)
    requires !Faithful(id)
    ensures Tick(Blocked(plant, id), Ticks(plant, id).1) == Seen(plant, id)
  {
    hide Act, Reading, Render, RequestText, Judge, Faithful, Before, Later, SnapLater, SnapBefore;
    var e, env, s := Blocked(plant, id), Ticks(plant, id).1, Some(SnapLater(plant, id));
    UnfaithfulIs(id);
    ReadLater(plant, id);
    RequestProven(plant, id, Begin(e, env), env);
    var r := Recover(Begin(e, env), env, s);
    assert r == Seen(plant, id);
    ActPaused(r, env, s);
  }

  lemma ThirdTick(plant: bool, id: string)
    requires !Faithful(id)
    ensures Tick(Seen(plant, id), Ticks(plant, id).2) == Lifted(plant, id)
  {
    hide Act, Reading, Render, RequestText, Judge, Faithful, Before, Later, SnapLater, SnapBefore;
    var e, env, s := Seen(plant, id), Ticks(plant, id).2, SnapLater(plant, id);
    UnfaithfulIs(id);
    ReadLater(plant, id);
    RequestProven(plant, id, Begin(e, env), env);
    var look := Look(s, "n", Some(Key(plant, id)), 30000);
    var r := Recover(Begin(e, env), env, Some(s));
    assert Lifted(plant, id).log == e.log + [look] + [Released("n", Key(plant, id), 30000)];
    assert r == Lifted(plant, id);
    ActLater(r, env, s);
  }

  lemma FourthTick(plant: bool, id: string)
    requires !Faithful(id)
    ensures Tick(Lifted(plant, id), Ticks(plant, id).3) == Relapsed(plant, id)
  {
    hide Act, Reading, Line, RequestText, ParseRecovery, Faithful, Before, Later, Trim;
    var e, env, s := Lifted(plant, id), Ticks(plant, id).3, SnapLater(plant, id);
    UnfaithfulIs(id);
    ReadLater(plant, id);
    RequestRead(plant, id);
    if plant { ChosenToPlantLater(id); } else { Chosen(id); }
    var r := Recover(Begin(e, env), env, Some(s));
    assert r == e.(vol := e.vol.(lastTick := 40000), log := e.log + [Look(s, "n", None, 40000)]);
    Sends(r, env, s, Choice(s, true, {1}).value);
    assert Relapsed(plant, id).log == r.log + [SecondSend(plant, id)];
  }

  lemma RunFour(e: Engine, a: Step, b: Step, c: Step, d: Step)
    ensures Run(e, [a, b, c, d]) == Next(Next(Next(Next(e, a), b), c), d)
  {
    hide Next;
    assert [a, b, c, d][..3] == [a, b, c];
    assert [a, b, c][..2] == [a, b];
    assert [a, b][..1] == [a];
    assert [a][..0] == [];
    assert Run(e, [a]) == Next(e, a);
    assert Run(e, [a, b]) == Next(Next(e, a), b);
    assert Run(e, [a, b, c]) == Next(Next(Next(e, a), b), c);
  }

  // ---------- the run is lawful ----------

  lemma LooksAlike(plant: bool, id: string)
    ensures var log := Relapsed(plant, id).log;
            && |log| == 7 && log[0].Looked? && log[0].reading == Some(SnapBefore(plant, id))
            && forall k :: 0 < k < |log| && log[k].Looked? ==> log[k].reading == Some(SnapLater(plant, id))
  {
    hide SnapBefore, SnapLater;
  }

  lemma FoundBefore(plant: bool, id: string, x: string)
    ensures Lookup(SnapBefore(plant, id).seeds, x) == if x == id then Some(Target(plant, id)) else None
  {
    hide Trim;
    assert SnapBefore(plant, id).seeds[1..] == [];
  }

  lemma FoundLater(plant: bool, id: string)
    ensures Lookup(SnapLater(plant, id).seeds, id) == Some(Target(plant, id))
  {
    hide Trim;
  }

  lemma RelapseIsLawful(plant: bool, id: string)
    ensures Lawful(Relapsed(plant, id).log)
  {
    hide Relapsed, Lookup, SnapBefore, SnapLater;
    var log := Relapsed(plant, id).log;
    LooksAlike(plant, id);
    FoundLater(plant, id);
    forall i, j, k, seed | 0 <= i < j < k < |log| && Shows(log[i], seed) && Lacks(log[j], seed)
      ensures !Shows(log[k], seed)
    {
      FoundBefore(plant, id, seed);
    }
    forall j, k, seed | 0 <= j < k < |log| && ShowsPlanted(log[j], seed) && Shows(log[k], seed)
      ensures ShowsPlanted(log[k], seed)
    {
      FoundBefore(plant, id, seed);
    }
  }

  // ---------- the condition ----------

  ghost predicate Twice(log: seq<Event>, action: string, id: string, i: int, j: int) {
    && 0 <= i < j < |log| && log[i].Sent? && log[j].Sent?
    && log[i].action == log[j].action == action && log[i].seed == log[j].seed == id
  }

  function RelapseSteps(plant: bool, id: string): seq<Step> {
    var (a, b, c, d) := Ticks(plant, id);
    [TickStep(a), TickStep(b), TickStep(c), TickStep(d)]
  }

  /** For every id that is not faithful there is a lawful run in which the seed, there all the time and not planted
      by anybody if it is to be planted, is sent the same RPC twice. */
  lemma UnfaithfulSeedSentTwice(plant: bool, id: string)
    requires !Faithful(id)
    ensures var log := Run(Boot(Disk(None, None), 1), RelapseSteps(plant, id)).log;
            Lawful(log) && Twice(log, ActionOf(plant), id, 1, 6)
  {
    hide Tick, Faithful, RequestText, Lawful, Before, Later, SnapBefore, SnapLater;
    UnfaithfulIs(id);
    FirstTick(plant, id);
    SecondTick(plant, id);
    ThirdTick(plant, id);
    FourthTick(plant, id);
    var (a, b, c, d) := Ticks(plant, id);
    RunFour(Boot(Disk(None, None), 1), TickStep(a), TickStep(b), TickStep(c), TickStep(d));
    RelapseIsLawful(plant, id);
    var log := Relapsed(plant, id).log;
    assert log[1] == FirstSend(plant, id) && log[6] == SecondSend(plant, id);
  }

  /** No lawful run sends the seed the RPC twice. */
  ghost predicate SentOnce(action: string, id: string) {
    forall disk, pid, steps, i, j ::
      var log := Run(Boot(disk, pid), steps).log;
      Lawful(log) ==> !Twice(log, action, id, i, j)
  }

  /** Faithful is the exact condition on an id, for plucking as for planting. */
  lemma FaithfulIsExact(plant: bool, id: string)
    ensures Faithful(id) <==> SentOnce(ActionOf(plant), id)
  {
    hide Faithful, Lawful, Run;
    var action := ActionOf(plant);
    if Faithful(id) {
      forall disk, pid, steps, i, j | Lawful(Run(Boot(disk, pid), steps).log)
        ensures !Twice(Run(Boot(disk, pid), steps).log, action, id, i, j)
      {
        if Twice(Run(Boot(disk, pid), steps).log, action, id, i, j) {
          AtMostOnce(disk, pid, steps, i, j);
        }
      }
    } else {
      UnfaithfulSeedSentTwice(plant, id);
    }
  }

  // ---------- a ledger that holds nothing ----------

  /** A tick whose RPC is sent, and a tick that sees it confirmed but cannot remove the ledger. */
  function SendTick(id: string): Env {
    TickAt(Before(false, id), 10000, "").(called := true)
  }

  function PluckedView(): View {
    View(true, [], [Slot(0, 0, "")], ["p", "q"], 1, [Some(10)])
  }

  function PluckedSnapshot(): Snapshot {
    Snapshot([], {"p", "q"}, [Slot(0, 0, "")], 1, 10)
  }

  function ConfirmTick(): Env {
    TickAt(PluckedView(), 20000, "").(answer := Answered(["q"]), removed := false)
  }

  function Awaiting(id: string): Engine {
    Engine(Disk(Some(Render(FirstLedger(false, id))), None),
           Volatile(1, true, true, false, 10000, 0, "", Some(Pending(1, "pluck", id, 0, "", {"p"}, false)), "none", "", 0, false),
           [Look(SnapBefore(false, id), "none", None, 10000), FirstSend(false, id)])
  }

  function Stuck(id: string): Engine {
    Engine(Awaiting(id).disk, Volatile(1, true, true, false, 20000, 25000, "", None, "none", "", 0, false),
           Awaiting(id).log + [Look(PluckedSnapshot(), "none", None, 20000)])
  }

  lemma SendsAndAwaits(id: string)
    requires id != ""
    ensures Tick(Boot(Disk(None, None), 1), SendTick(id)) == Awaiting(id)
  {
    hide Reading, Line, ParseRecovery, Choice;
    var e, env, s := Boot(Disk(None, None), 1), SendTick(id), SnapBefore(false, id);
    ReadBefore(false, id);
    NothingRead();
    Chosen(id);
    var r := Recover(Begin(e, env), env, Some(s));
    assert r == Engine(e.disk, Volatile(1, true, true, false, 10000, 0, "", None, "none", "", 0, false),
                       [Look(s, "none", None, 10000)]);
    assert Act(r, env, Some(s)) == Awaiting(id);
  }

  lemma ReadPlucked()
    ensures Reading(PluckedView()) == Some(PluckedSnapshot())
  {
    var view := PluckedView();
    assert view.pikmins[0] != view.pikmins[1];
    assert Consistent(view);
    assert SnapshotOf(view).seeds == [];
    assert SnapshotOf(view).pikmins == {"p", "q"};
  }

  lemma ConfirmsAndKeeps(id: string)
    requires id != ""
    ensures Tick(Awaiting(id), ConfirmTick()) == Stuck(id)
  {
    hide Reading, Line, ParseRecovery;
    var e, env, s := Awaiting(id), ConfirmTick(), PluckedSnapshot();
    ReadPlucked();
    NothingRead();
    var r := Recover(Begin(e, env), env, Some(s));
    assert r == e.(vol := e.vol.(lastTick := 20000), log := e.log + [Look(s, "none", None, 20000)]);
    var p := Pending(1, "pluck", id, 0, "q", {"p"}, true);
    assert SlotAt(s.slots, 0) == Some(Slot(0, 0, ""));
    assert Confirmed(p, s);
    assert Act(r, env, Some(s)) == Stuck(id);
  }

  function StuckSteps(id: string): seq<Step> {
    [TickStep(SendTick(id)), TickStep(ConfirmTick())]
  }

  /** A reachable state in which the ledger of a confirmed RPC is on disk and nothing holds the process. */
  lemma LedgerHoldsNothing(id: string)
    requires id != ""
    ensures var e := Run(Boot(Disk(None, None), 1), StuckSteps(id));
            && e.disk.ledger == Some(Render(FirstLedger(false, id))) && !Guarded(e)
            && |e.log| == 3 && e.log[1] == FirstSend(false, id) && Settled(e.log, 1, 3)
  {
    hide Tick, Render;
    SendsAndAwaits(id);
    ConfirmsAndKeeps(id);
    var boot := Boot(Disk(None, None), 1);
    assert StuckSteps(id)[..1] == [TickStep(SendTick(id))];
    assert StuckSteps(id)[..1][..0] == [];
    assert Run(boot, StuckSteps(id)[..1]) == Awaiting(id);
    assert Proves(Stuck(id).log[2], "pluck", id);
  }
}
