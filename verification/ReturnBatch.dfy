/** Claiming returned tasks: one at a time, and at most five in one batch session. */
module ReturnBatch {
  import opened Options

  // ---------- what a tick reads ----------

  /** One entry of the task list. */
  datatype Row = Row(task: bool, id: string, proto: bool, ready: bool)

  /** The mode, read once; the limit that the control file holds; and the task lists of the two claimers. */
  datatype Reading = Reading(mode: string, limit: int, linked: bool, oneList: Option<seq<Row>>,
                             batchList: Option<seq<Row>>, now: int)

  predicate Complete(rows: seq<Row>) {
    forall k :: 0 <= k < |rows| ==> rows[k].task && rows[k].id != "" && rows[k].proto
  }

  predicate Contains(rows: seq<Row>, id: string) {
    id != "" && exists k :: 0 <= k < |rows| && rows[k].task && rows[k].id == id
  }

  function FirstReady(rows: seq<Row>): (r: Option<string>) {
    if rows == [] then None
    else if rows[0].task && rows[0].ready then Some(rows[0].id)
    else FirstReady(rows[1..])
  }

  function IdsOf(rows: seq<Row>): seq<string> {
    seq(|rows|, k requires 0 <= k < |rows| => rows[k].id)
  }

  const BATCH_LIMIT := 5
  const ALL_LIMIT := 0x7fff_ffff
  const PATIENCE_MS := 60000

  function LimitOf(mode: string, parsed: int): (limit: nat) {
    if mode == "all" then ALL_LIMIT else if 1 <= parsed <= 5 then parsed else BATCH_LIMIT
  }

  predicate Automatic(mode: string) {
    mode == "batch" || mode == "all"
  }

  // ---------- the state ----------

  datatype State = State(lastMode: string, waiting: bool, stopped: bool, completed: nat, pendingId: string,
                         dispatchedMs: int, oneWaiting: bool, oneDispatched: bool)

  const START := State("", false, false, 0, "", 0, false, false)

  datatype Event = ModeRead(mode: string) | Listed(ids: seq<string>) | Claimed(mode: string, id: string)

  datatype Engine = Engine(st: State, log: seq<Event>)

  function Rearmed(st: State): State {
    st.(waiting := false, stopped := false, completed := 0, pendingId := "")
  }

  predicate Usable(linked: bool, list: Option<seq<Row>>) {
    linked && list.Some? && Complete(list.value)
  }

  function DispatchOne(e: Engine, rows: seq<Row>): Engine {
    var id := FirstReady(rows);
    if id.None? then e
    else
      Engine(e.st.(oneDispatched := true, oneWaiting := true, lastMode := "one", pendingId := id.value),
             e.log + [Claimed("one", id.value)])
  }

  function OneTick(e: Engine, t: Reading): Engine {
    if t.mode != "one" || !Usable(t.linked, t.oneList) then e
    else if e.st.oneWaiting then
      if Contains(t.oneList.value, e.st.pendingId) then e
      else e.(st := e.st.(oneWaiting := false, pendingId := ""))
    else if e.st.oneDispatched then e
    else DispatchOne(e, t.oneList.value)
  }

  function Await(st: State, t: Reading): State
    requires t.batchList.Some?
  {
    if !Contains(t.batchList.value, st.pendingId) then
      st.(waiting := false, completed := st.completed + 1, pendingId := "")
    else if t.now - st.dispatchedMs > PATIENCE_MS then st.(stopped := true)
    else st
  }

  function Claim(e: Engine, t: Reading): Engine
    requires t.batchList.Some?
  {
    var id := FirstReady(t.batchList.value);
    if id.None? then e
    else
      Engine(e.st.(dispatchedMs := t.now, waiting := true, pendingId := id.value),
             e.log + [Claimed(t.mode, id.value)])
  }

  function Automated(e: Engine, t: Reading): Engine {
    if e.st.stopped || !Usable(t.linked, t.batchList) then e
    else
      var seen := e.(log := e.log + [Listed(IdsOf(t.batchList.value))]);
      if e.st.waiting then seen.(st := Await(e.st, t))
      else if e.st.completed >= LimitOf(t.mode, t.limit) then seen.(st := e.st.(stopped := true))
      else Claim(seen, t)
  }

  function BatchTick(e: Engine, t: Reading): Engine {
    if !Automatic(t.mode) then
      e.(st := (if Automatic(e.st.lastMode) then Rearmed(e.st) else e.st).(lastMode := t.mode))
    else
      Automated(e.(st := if e.st.lastMode != t.mode then Rearmed(e.st).(lastMode := t.mode) else e.st), t)
  }

  function Tick(e: Engine, t: Reading): Engine {
    BatchTick(OneTick(e.(log := e.log + [ModeRead(t.mode)]), t), t)
  }

  function Run(ticks: seq<Reading>): Engine {
    if ticks == [] then Engine(START, []) else Tick(Run(ticks[..|ticks| - 1]), ticks[|ticks| - 1])
  }

  // ---------- sessions ----------

  /** The claims since a mode was last entered. */
  function SessionClaims(log: seq<Event>, mode: string): nat {
    if log == [] then 0
    else
      var ev := log[|log| - 1];
      if ev.ModeRead? && ev.mode != mode then 0
      else SessionClaims(log[..|log| - 1], mode) + if ev.Claimed? && ev.mode == mode then 1 else 0
  }

  predicate Missing(ev: Event, id: string) {
    ev.Listed? && id !in ev.ids
  }

  predicate SameSession(log: seq<Event>, i: int, j: int)
    requires 0 <= i < |log| && log[i].Claimed? && j <= |log|
  {
    forall k :: i < k < j ==> (log[k].ModeRead? ==> log[k].mode == log[i].mode)
  }

  /** A complete list without the claimed id was read before n. */
  ghost predicate SeenMissing(log: seq<Event>, i: int, n: int)
    requires 0 <= i < |log| && log[i].Claimed? && n <= |log|
  {
    exists k :: i < k < n && Missing(log[k], log[i].id)
  }

  predicate ByBatch(ev: Event) {
    ev.Claimed? && Automatic(ev.mode)
  }

  predicate OfOneSession(log: seq<Event>, i: int, j: int)
    requires 0 <= i < j < |log|
  {
    ByBatch(log[i]) && ByBatch(log[j]) && log[j].mode == log[i].mode && SameSession(log, i, j)
  }

  /** Claims of one session follow one another only after the earlier id was missing from a complete list. */
  ghost predicate OneByOne(log: seq<Event>) {
    forall i, j :: 0 <= i < j < |log| && OfOneSession(log, i, j) ==> SeenMissing(log, i, j)
  }

  predicate Awaits(st: State, mode: string, id: string) {
    st.lastMode == mode && st.waiting && st.pendingId == id
  }

  /** Every claim of the session under way is missing by now, or is the one awaited. */
  ghost predicate AllButOne(st: State, log: seq<Event>) {
    forall i :: 0 <= i < |log| && ByBatch(log[i]) && SameSession(log, i, |log|) ==>
      log[i].mode == st.lastMode && (SeenMissing(log, i, |log|) || Awaits(st, log[i].mode, log[i].id))
  }

  function Taken(st: State): nat {
    st.completed + if st.waiting then 1 else 0
  }

  predicate Counted(st: State, log: seq<Event>, mode: string) {
    SessionClaims(log, mode) == if st.lastMode == mode then Taken(st) else 0
  }

  ghost predicate Orderly(st: State, log: seq<Event>) {
    && OneByOne(log) && AllButOne(st, log)
    && Counted(st, log, "batch") && Counted(st, log, "all")
    && (st.lastMode == "batch" ==> Taken(st) <= BATCH_LIMIT)
  }

  // ---------- longer logs ----------

  lemma ClaimsGrow(log: seq<Event>, ev: Event, mode: string)
    ensures SessionClaims(log + [ev], mode) ==
              if ev.ModeRead? && ev.mode != mode then 0
              else SessionClaims(log, mode) + if ev.Claimed? && ev.mode == mode then 1 else 0
  {
    assert (log + [ev])[..|log|] == log;
  }

  lemma MissingGrows(log: seq<Event>, ev: Event, i: int, n: int)
    requires 0 <= i < |log| && log[i].Claimed? && n <= |log|
    ensures SeenMissing(log, i, n) ==> SeenMissing(log + [ev], i, n) && SeenMissing(log + [ev], i, |log| + 1)
  {
    if SeenMissing(log, i, n) {
      var k :| i < k < n && Missing(log[k], log[i].id);
      assert (log + [ev])[k] == log[k];
    }
  }

  lemma SameSessionBefore(log: seq<Event>, ev: Event, i: int, j: int)
    requires 0 <= i < |log| && log[i].Claimed? && j <= |log|
    ensures SameSession(log + [ev], i, j) ==> SameSession(log, i, j)
    ensures SameSession(log + [ev], i, |log| + 1) ==>
              SameSession(log, i, |log|) && (ev.ModeRead? ==> ev.mode == log[i].mode)
  {
    var longer := log + [ev];
    assert longer[|log|] == ev && forall k :: 0 <= k < |log| ==> longer[k] == log[k];
  }

  lemma OneByOneGrows(log: seq<Event>, ev: Event)
    requires OneByOne(log)
    requires ByBatch(ev) ==>
               forall i :: 0 <= i < |log| && ByBatch(log[i]) && SameSession(log, i, |log|) ==> SeenMissing(log, i, |log|)
    ensures OneByOne(log + [ev])
  {
    hide SeenMissing, SameSession;
    var longer := log + [ev];
    forall i, j | 0 <= i < j < |longer| && OfOneSession(longer, i, j)
      ensures SeenMissing(longer, i, j)
    {
      assert longer[i] == log[i];
      SameSessionBefore(log, ev, i, j);
      MissingGrows(log, ev, i, j);
    }
  }

  /** An event that is no batch claim, read in the same mode. */
  predicate Neutral(ev: Event, mode: string) {
    !ByBatch(ev) && (ev.ModeRead? ==> ev.mode == mode)
  }

  lemma AllButOneGrows(st: State, log: seq<Event>, ev: Event)
    requires AllButOne(st, log) && Neutral(ev, st.lastMode)
    ensures AllButOne(st, log + [ev])
  {
    hide SeenMissing, SameSession;
    var longer := log + [ev];
    forall i | 0 <= i < |longer| && ByBatch(longer[i]) && SameSession(longer, i, |longer|)
      ensures longer[i].mode == st.lastMode
              && (SeenMissing(longer, i, |longer|) || Awaits(st, longer[i].mode, longer[i].id))
    {
      assert longer[i] == log[i];
      SameSessionBefore(log, ev, i, |log|);
      MissingGrows(log, ev, i, |log|);
    }
  }

  lemma NeutralOrderly(st: State, log: seq<Event>, ev: Event)
    requires Orderly(st, log) && Neutral(ev, st.lastMode)
    ensures Orderly(st, log + [ev])
  {
    hide OneByOne, AllButOne, SessionClaims;
    OneByOneGrows(log, ev);
    AllButOneGrows(st, log, ev);
    ClaimsGrow(log, ev, "batch");
    ClaimsGrow(log, ev, "all");
  }

  /** A new mode ends the session: nothing is awaited in it yet. */
  lemma NewModeOrderly(st: State, st': State, log: seq<Event>)
    requires Orderly(st, log) && st.lastMode != st'.lastMode
    requires Automatic(st'.lastMode) ==> !st'.waiting && st'.completed == 0
    ensures Orderly(st', log + [ModeRead(st'.lastMode)])
  {
    hide OneByOne, SeenMissing, SameSession, SessionClaims;
    var ev := ModeRead(st'.lastMode);
    var longer := log + [ev];
    OneByOneGrows(log, ev);
    ClaimsGrow(log, ev, "batch");
    ClaimsGrow(log, ev, "all");
    forall i | 0 <= i < |longer| && ByBatch(longer[i]) ensures !SameSession(longer, i, |longer|) {
      assert longer[i] == log[i];
      SameSessionBefore(log, ev, i, |log|);
    }
  }

  /** Outside automatic modes, what the state awaits does not matter. */
  lemma ManualOrderly(st: State, st': State, log: seq<Event>)
    requires Orderly(st, log) && st'.lastMode == st.lastMode && !Automatic(st.lastMode)
    ensures Orderly(st', log)
  {
    hide OneByOne, SeenMissing, SameSession, SessionClaims;
  }

  predicate SameWait(st: State, st': State) {
    st'.lastMode == st.lastMode && st'.waiting == st.waiting && st'.pendingId == st.pendingId
    && st'.completed == st.completed
  }

  lemma SameWaitOrderly(st: State, st': State, log: seq<Event>)
    requires Orderly(st, log) && SameWait(st, st')
    ensures Orderly(st', log)
  {
    hide OneByOne, SeenMissing, SameSession, SessionClaims;
  }

  // ---------- a tick ----------

  lemma ContainsListed(rows: seq<Row>, id: string)
    requires Complete(rows) && id in IdsOf(rows)
    ensures Contains(rows, id)
  {
    var k :| 0 <= k < |rows| && IdsOf(rows)[k] == id;
    assert rows[k].id == id;
  }

  /** The awaited id is missing from the list just read. */
  lemma ConfirmedOrderly(st: State, log: seq<Event>, ids: seq<string>)
    requires Orderly(st, log + [Listed(ids)]) && st.waiting && st.pendingId !in ids
    ensures Orderly(st.(waiting := false, completed := st.completed + 1, pendingId := ""), log + [Listed(ids)])
  {
    hide OneByOne, SameSession, SessionClaims, SeenMissing;
    var longer := log + [Listed(ids)];
    forall i | 0 <= i < |longer| && ByBatch(longer[i]) && SameSession(longer, i, |longer|)
      ensures SeenMissing(longer, i, |longer|)
    {
      if Awaits(st, longer[i].mode, longer[i].id) {
        JustMissing(log, ids, i);
      }
    }
  }

  lemma JustMissing(log: seq<Event>, ids: seq<string>, i: int)
    requires 0 <= i < |log| && log[i].Claimed? && log[i].id !in ids
    ensures SeenMissing(log + [Listed(ids)], i, |log| + 1)
  {
    assert Missing((log + [Listed(ids)])[|log|], log[i].id);
  }

  lemma ClaimOrderly(st: State, log: seq<Event>, id: string, now: int)
    requires Orderly(st, log) && !st.waiting && Automatic(st.lastMode)
    requires st.lastMode == "batch" ==> st.completed < BATCH_LIMIT
    ensures Orderly(st.(dispatchedMs := now, waiting := true, pendingId := id), log + [Claimed(st.lastMode, id)])
  {
    hide OneByOne, SeenMissing, SameSession, SessionClaims;
    var ev := Claimed(st.lastMode, id);
    var longer := log + [ev];
    OneByOneGrows(log, ev);
    ClaimsGrow(log, ev, "batch");
    ClaimsGrow(log, ev, "all");
    forall i | 0 <= i < |log| && ByBatch(longer[i]) && SameSession(longer, i, |longer|)
      ensures longer[i].mode == st.lastMode && SeenMissing(longer, i, |longer|)
    {
      assert longer[i] == log[i];
      SameSessionBefore(log, ev, i, |log|);
      MissingGrows(log, ev, i, |log|);
    }
  }

  lemma AutomatedOrderly(e: Engine, t: Reading)
    requires Orderly(e.st, e.log) && e.st.lastMode == t.mode && Automatic(t.mode)
    ensures Orderly(Automated(e, t).st, Automated(e, t).log)
  {
    hide Orderly, Contains, FirstReady;
    if !e.st.stopped && Usable(t.linked, t.batchList) {
      var ids := IdsOf(t.batchList.value);
      NeutralOrderly(e.st, e.log, Listed(ids));
      if e.st.waiting {
        if !Contains(t.batchList.value, e.st.pendingId) {
          assert e.st.pendingId !in ids by { NotListed(t.batchList.value, e.st.pendingId); }
          ConfirmedOrderly(e.st, e.log, ids);
        } else {
          SameWaitOrderly(e.st, Automated(e, t).st, e.log + [Listed(ids)]);
        }
      } else if e.st.completed >= LimitOf(t.mode, t.limit) {
        SameWaitOrderly(e.st, Automated(e, t).st, e.log + [Listed(ids)]);
      } else if FirstReady(t.batchList.value).Some? {
        ClaimOrderly(e.st, e.log + [Listed(ids)], FirstReady(t.batchList.value).value, t.now);
      }
    }
  }

  lemma NotListed(rows: seq<Row>, id: string)
    requires Complete(rows) && !Contains(rows, id)
    ensures id !in IdsOf(rows)
  {
    if id in IdsOf(rows) { ContainsListed(rows, id); }
  }

  lemma TickOrderly(e: Engine, t: Reading)
    requires Orderly(e.st, e.log)
    ensures Orderly(Tick(e, t).st, Tick(e, t).log)
  {
    hide Orderly, Automated, Usable, Contains, FirstReady;
    var log := e.log + [ModeRead(t.mode)];
    var r := Tick(e, t);
    if Automatic(t.mode) {
      if e.st.lastMode == t.mode {
        NeutralOrderly(e.st, e.log, ModeRead(t.mode));
        AutomatedOrderly(Engine(e.st, log), t);
      } else {
        var st := Rearmed(e.st).(lastMode := t.mode);
        NewModeOrderly(e.st, st, e.log);
        AutomatedOrderly(Engine(st, log), t);
      }
    } else {
      if e.st.lastMode == t.mode {
        NeutralOrderly(e.st, e.log, ModeRead(t.mode));
        ManualOrderly(e.st, r.st, log);
      } else {
        NewModeOrderly(e.st, r.st, e.log);
      }
      if r.log != log {
        NeutralOrderly(r.st, log, r.log[|log|]);
      }
    }
  }

  lemma StartOrderly()
    ensures Orderly(START, [])
  {
  }

  lemma {:induction false} AlwaysOrderly(ticks: seq<Reading>)
    ensures Orderly(Run(ticks).st, Run(ticks).log)
  {
    hide Orderly, Tick;
    if ticks == [] {
      StartOrderly();
    } else {
      AlwaysOrderly(ticks[..|ticks| - 1]);
      TickOrderly(Run(ticks[..|ticks| - 1]), ticks[|ticks| - 1]);
    }
  }

  /** In one session, a claim is followed by another only after a complete list did not have its id any more. */
  lemma NextAfterMissing(ticks: seq<Reading>, i: int, j: int)
    requires 0 <= i < j < |Run(ticks).log| && OfOneSession(Run(ticks).log, i, j)
    ensures SeenMissing(Run(ticks).log, i, j)
  {
    hide Run, SameSession, SeenMissing;
    AlwaysOrderly(ticks);
  }

  /** From entering batch mode to leaving it, at most five claims are made. */
  lemma AtMostFive(ticks: seq<Reading>)
    ensures SessionClaims(Run(ticks).log, "batch") <= BATCH_LIMIT
  {
    hide Run, OneByOne, AllButOne, SessionClaims;
    AlwaysOrderly(ticks);
  }

  // ---------- the single claim ----------

  predicate BySingle(ev: Event) {
    ev.Claimed? && ev.mode == "one"
  }

  function Singles(log: seq<Event>): nat {
    if log == [] then 0 else Singles(log[..|log| - 1]) + if BySingle(log[|log| - 1]) then 1 else 0
  }

  lemma SinglesGrow(log: seq<Event>, ev: Event)
    ensures Singles(log + [ev]) == Singles(log) + if BySingle(ev) then 1 else 0
  {
    assert (log + [ev])[..|log|] == log;
  }

  predicate SingleCounted(e: Engine) {
    Singles(e.log) == if e.st.oneDispatched then 1 else 0
  }

  lemma TickCountsSingle(e: Engine, t: Reading)
    requires SingleCounted(e)
    ensures SingleCounted(Tick(e, t))
  {
    hide Singles, Contains, FirstReady, Complete;
    var read := e.log + [ModeRead(t.mode)];
    SinglesGrow(e.log, ModeRead(t.mode));
    var one := OneTick(e.(log := read), t);
    if one.log != read { SinglesGrow(read, one.log[|read|]); }
    if t.batchList.Some? {
      var listed := Listed(IdsOf(t.batchList.value));
      SinglesGrow(one.log, listed);
      if FirstReady(t.batchList.value).Some? {
        SinglesGrow(one.log + [listed], Claimed(t.mode, FirstReady(t.batchList.value).value));
      }
    }
  }

  /** The single-claim mode claims at most once in the life of the process. */
  lemma {:induction false} AtMostOneSingle(ticks: seq<Reading>)
    ensures SingleCounted(Run(ticks)) && Singles(Run(ticks).log) <= 1
  {
    hide Tick;
    if ticks != [] {
      AtMostOneSingle(ticks[..|ticks| - 1]);
      TickCountsSingle(Run(ticks[..|ticks| - 1]), ticks[|ticks| - 1]);
    }
  }

  /** No automatic mode was read after the claim at i. */
  predicate NoAutomaticSince(log: seq<Event>, i: int)
    requires 0 <= i < |log|
  {
    forall k :: i < k < |log| && log[k].ModeRead? ==> !Automatic(log[k].mode)
  }

  /** The single claim is still what a waiting scheduler looks for. */
  ghost predicate SingleAwaited(e: Engine) {
    forall i :: 0 <= i < |e.log| && BySingle(e.log[i]) && NoAutomaticSince(e.log, i) ==>
      !Automatic(e.st.lastMode) && (e.st.oneWaiting ==> e.st.pendingId == e.log[i].id)
  }

  lemma {:induction false} SinglesCount(log: seq<Event>, i: int)
    requires 0 <= i < |log| && BySingle(log[i])
    ensures Singles(log) >= 1
  {
    if i < |log| - 1 {
      assert log[..|log| - 1][i] == log[i];
      SinglesCount(log[..|log| - 1], i);
    }
  }

  /** Any number of other events that read no automatic mode. */
  lemma AwaitedGrows(e: Engine, e': Engine)
    requires SingleAwaited(e) && e.log <= e'.log
    requires forall k :: |e.log| <= k < |e'.log| ==> !BySingle(e'.log[k])
    requires (exists k :: |e.log| <= k < |e'.log| && e'.log[k].ModeRead? && Automatic(e'.log[k].mode))
             || Automatic(e.st.lastMode)
             || (!Automatic(e'.st.lastMode) && (e'.st.oneWaiting ==> e.st.oneWaiting && e'.st.pendingId == e.st.pendingId))
    ensures SingleAwaited(e')
  {
    forall i | 0 <= i < |e'.log| && BySingle(e'.log[i]) && NoAutomaticSince(e'.log, i)
      ensures !Automatic(e'.st.lastMode) && (e'.st.oneWaiting ==> e'.st.pendingId == e'.log[i].id)
    {
      assert i < |e.log| && e'.log[i] == e.log[i];
      assert NoAutomaticSince(e.log, i) by {
        forall k | i < k < |e.log| && e.log[k].ModeRead? ensures !Automatic(e.log[k].mode) {
          assert e'.log[k] == e.log[k];
        }
      }
    }
  }

  lemma AutomaticTickAwaits(e: Engine, t: Reading)
    requires SingleAwaited(e) && Automatic(t.mode)
    ensures SingleAwaited(Tick(e, t))
  {
    hide SingleAwaited, Contains, FirstReady, Complete;
    var r := Tick(e, t);
    assert e.log <= r.log && r.log[|e.log|] == ModeRead(t.mode);
    assert forall k :: |e.log| <= k < |r.log| ==> !BySingle(r.log[k]);
    AwaitedGrows(e, r);
  }

  lemma ManualTickAwaits(e: Engine, t: Reading)
    requires SingleAwaited(e) && SingleCounted(e) && !Automatic(t.mode)
    ensures SingleAwaited(Tick(e, t))
  {
    hide Contains, FirstReady, Complete, Singles, NoAutomaticSince;
    var read := e.log + [ModeRead(t.mode)];
    var one := OneTick(e.(log := read), t);
    var r := Tick(e, t);
    if one.log == read {
      assert r.log == e.log + [ModeRead(t.mode)];
      AwaitedGrows(e, r);
    } else {
      forall i | 0 <= i < |r.log| && BySingle(r.log[i]) && NoAutomaticSince(r.log, i)
        ensures !Automatic(r.st.lastMode) && r.st.pendingId == r.log[i].id
      {
        if i < |e.log| {
          assert r.log[i] == e.log[i];
          SinglesCount(e.log, i);
        }
      }
    }
  }

  lemma {:induction false} AlwaysAwaited(ticks: seq<Reading>)
    ensures SingleAwaited(Run(ticks))
  {
    hide Tick, SingleAwaited;
    if ticks == [] {
      NothingAwaited();
    } else {
      var e, t := Run(ticks[..|ticks| - 1]), ticks[|ticks| - 1];
      AlwaysAwaited(ticks[..|ticks| - 1]);
      AtMostOneSingle(ticks[..|ticks| - 1]);
      if Automatic(t.mode) { AutomaticTickAwaits(e, t); } else { ManualTickAwaits(e, t); }
    }
  }

  lemma NothingAwaited()
    ensures SingleAwaited(Engine(START, []))
  {
  }

  /** While no automatic mode was read since the single claim, it is confirmed exactly by a complete list without it. */
  lemma SingleConfirmedWhenMissing(ticks: seq<Reading>, t: Reading, i: int)
    requires var e := Run(ticks);
             0 <= i < |e.log| && BySingle(e.log[i]) && NoAutomaticSince(e.log, i) && e.st.oneWaiting
    ensures !Tick(Run(ticks), t).st.oneWaiting <==>
              t.mode == "one" && Usable(t.linked, t.oneList) && !Contains(t.oneList.value, Run(ticks).log[i].id)
  {
    hide Run, Contains, FirstReady, Complete, NoAutomaticSince, Usable;
    AlwaysAwaited(ticks);
    WaitingAfter(Run(ticks), t);
  }

  lemma WaitingAfter(e: Engine, t: Reading)
    requires e.st.oneWaiting
    ensures !Tick(e, t).st.oneWaiting <==>
              t.mode == "one" && Usable(t.linked, t.oneList) && !Contains(t.oneList.value, e.st.pendingId)
  {
    hide Contains, FirstReady, Complete;
  }

  /** An automatic mode forgets the single claim: what the next list has to miss is the claim that the automatic mode
      has just made, or nothing at all. */
  lemma AutomaticForgetsSingle(e: Engine, t: Reading, next: Reading)
    requires e.st.oneWaiting && Automatic(t.mode) && e.st.lastMode != t.mode
    requires next.mode == "one" && Usable(next.linked, next.oneList)
    ensures var r := Tick(e, t);
            && (r.st.pendingId == "" || (r.log != [] && r.log[|r.log| - 1] == Claimed(t.mode, r.st.pendingId)))
            && (Tick(r, next).st.oneWaiting <==> Contains(next.oneList.value, r.st.pendingId))
  {
    hide Contains, FirstReady, Complete, BatchTick;
    var r := Tick(e, t);
    ForgetsPending(e.(log := e.log + [ModeRead(t.mode)]), t);
    WaitingAfter(r, next);
  }

  lemma ForgetsPending(e: Engine, t: Reading)
    requires Automatic(t.mode) && e.st.lastMode != t.mode
    ensures var r := BatchTick(e, t);
            r.st.oneWaiting == e.st.oneWaiting
            && (r.st.pendingId == "" || (r.log != [] && r.log[|r.log| - 1] == Claimed(t.mode, r.st.pendingId)))
  {
    hide Contains, FirstReady, Complete;
  }

  function EarlyTicks(id: string): seq<Reading> {
    var list := Some([Row(true, id, true, true)]);
    [Reading("one", 5, true, list, None, 0), Reading("batch", 5, true, None, None, 1000),
     Reading("one", 5, true, list, None, 2000)]
  }

  /** One, batch, one: the single claim counts as confirmed although its task is still listed. */
  lemma SingleConfirmedTooEarly(id: string)
    requires id != ""
    ensures var e := Run(EarlyTicks(id));
            && !e.st.oneWaiting && |e.log| == 4 && e.log[1] == Claimed("one", id)
            && Contains(EarlyTicks(id)[2].oneList.value, id)
  {
    hide Contains;
    var ticks := EarlyTicks(id);
    assert ticks[..2][..1] == ticks[..1] && ticks[..1][..0] == [];
    assert Complete(ticks[0].oneList.value);
    var first := State("one", false, false, 0, id, 0, true, true);
    assert Run(ticks[..1]) == Engine(first, [ModeRead("one"), Claimed("one", id)]);
    assert Run(ticks[..2]) == Engine(first.(lastMode := "batch", pendingId := ""),
                                     [ModeRead("one"), Claimed("one", id), ModeRead("batch")]);
    assert !Contains(ticks[2].oneList.value, "") && Contains(ticks[2].oneList.value, id) by { OneRow(id); }
  }

  lemma OneRow(id: string)
    requires id != ""
    ensures var rows := [Row(true, id, true, true)]; Contains(rows, id) && !Contains(rows, "")
  {
    assert [Row(true, id, true, true)][0].id == id;
  }

  // ---------- the scheduler as it runs ----------

  method IsComplete(rows: seq<Row>) returns (complete: bool)
    ensures complete == Complete(rows)
  {
    var k := 0;
    while k < |rows|
      invariant 0 <= k <= |rows|
      invariant Complete(rows[..k])
    {
      if !rows[k].task || rows[k].id == "" || !rows[k].proto { return false; }
      k := k + 1;
    }
    assert rows[..k] == rows;
    return true;
  }

  method ListContains(rows: seq<Row>, id: string) returns (found: bool)
    ensures found == Contains(rows, id)
  {
    if id == "" { return false; }
    var k := 0;
    while k < |rows|
      invariant 0 <= k <= |rows|
      invariant forall j :: 0 <= j < k ==> !(rows[j].task && rows[j].id == id)
    {
      if rows[k].task && rows[k].id == id { return true; }
      k := k + 1;
    }
    return false;
  }

  method FindReady(rows: seq<Row>) returns (id: Option<string>)
    ensures id == FirstReady(rows)
  {
    var k := 0;
    while k < |rows|
      invariant 0 <= k <= |rows|
      invariant FirstReady(rows) == FirstReady(rows[k..])
    {
      assert rows[k..][1..] == rows[k + 1..];
      if rows[k].task && rows[k].ready { return Some(rows[k].id); }
      k := k + 1;
    }
    return None;
  }

  class ReturnScheduler {
    var lastMode: string
    var waiting: bool
    var stopped: bool
    var completed: nat
    var pendingId: string
    var dispatchedMs: int
    var oneWaiting: bool
    var oneDispatched: bool
    ghost var log: seq<Event>

    ghost function Now(): Engine
      reads this
    {
      Engine(State(lastMode, waiting, stopped, completed, pendingId, dispatchedMs, oneWaiting, oneDispatched), log)
    }

    constructor ()
      ensures Now() == Run([])
    {
      lastMode, waiting, stopped, completed, pendingId, dispatchedMs := "", false, false, 0, "", 0;
      oneWaiting, oneDispatched, log := false, false, [];
    }

    method IsUsable(linked: bool, list: Option<seq<Row>>) returns (usable: bool)
      ensures usable == Usable(linked, list)
    {
      if !linked || list.None? { return false; }
      usable := IsComplete(list.value);
    }

    method MaybeDispatchOne(t: Reading)
      modifies this
      ensures Now() == OneTick(old(Now()), t)
    {
      hide Usable, Contains, FirstReady;
      if t.mode != "one" { return; }
      var usable := IsUsable(t.linked, t.oneList);
      if !usable { return; }
      assert t.oneList.Some? by { UsableIsSome(t.linked, t.oneList); }
      if oneWaiting {
        var pendingSeen := ListContains(t.oneList.value, pendingId);
        if !pendingSeen { oneWaiting, pendingId := false, ""; }
        return;
      }
      if oneDispatched { return; }
      var id := FindReady(t.oneList.value);
      if id.Some? {
        oneDispatched, oneWaiting, lastMode, pendingId := true, true, "one", id.value;
        log := log + [Claimed("one", id.value)];
      }
    }

    method Rearm()
      modifies `waiting, `stopped, `completed, `pendingId
      ensures !waiting && !stopped && completed == 0 && pendingId == ""
    {
      waiting, stopped, completed, pendingId := false, false, 0, "";
    }

    method AwaitPending(t: Reading)
      requires t.batchList.Some?
      modifies `waiting, `stopped, `completed, `pendingId
      ensures Now() == old(Now()).(st := Await(old(Now()).st, t))
    {
      hide Contains;
      var pendingSeen := ListContains(t.batchList.value, pendingId);
      if !pendingSeen {
        waiting, completed, pendingId := false, completed + 1, "";
      } else if t.now - dispatchedMs > PATIENCE_MS {
        stopped := true;
      }
    }

    method ClaimNext(t: Reading)
      requires t.batchList.Some?
      modifies `dispatchedMs, `waiting, `pendingId, `log
      ensures Now() == Claim(old(Now()), t)
    {
      hide FirstReady;
      var id := FindReady(t.batchList.value);
      if id.Some? {
        dispatchedMs, waiting, pendingId := t.now, true, id.value;
        log := log + [Claimed(t.mode, id.value)];
      }
    }

    method RunAutomatic(t: Reading)
      modifies this
      ensures Now() == Automated(old(Now()), t)
    {
      hide Usable, Await, Claim;
      if stopped { return; }
      var usable := IsUsable(t.linked, t.batchList);
      if !usable { return; }
      assert t.batchList.Some? by { UsableIsSome(t.linked, t.batchList); }
      log := log + [Listed(IdsOf(t.batchList.value))];
      if waiting { AwaitPending(t); return; }
      if completed >= LimitOf(t.mode, t.limit) { stopped := true; return; }
      ClaimNext(t);
    }

    static lemma UsableIsSome(linked: bool, list: Option<seq<Row>>)
      ensures Usable(linked, list) ==> list.Some?
    {
    }

    method MaybeDispatchBatch(t: Reading)
      modifies this
      ensures Now() == BatchTick(old(Now()), t)
    {
      hide Automated;
      if !Automatic(t.mode) {
        if Automatic(lastMode) { Rearm(); }
        lastMode := t.mode;
        return;
      }
      if lastMode != t.mode {
        Rearm();
        lastMode := t.mode;
      }
      RunAutomatic(t);
    }

    method MaybeReturnTasks(t: Reading)
      modifies this
      ensures Now() == Tick(old(Now()), t)
    {
      hide OneTick, BatchTick;
      log := log + [ModeRead(t.mode)];
      MaybeDispatchOne(t);
      MaybeDispatchBatch(t);
    }
  }
}
