/** Which returned task a tick claims, and when: told from the task list that it reads. */
module ReturnClaims {
  import opened Options
  import opened ReturnBatch

  // ---------- the law, in terms of what a tick reads ----------

  /** The first returned task of a list. */
  predicate FirstReturned(rows: seq<Row>, k: int) {
    && 0 <= k < |rows| && rows[k].task && rows[k].ready
    && forall j :: 0 <= j < k ==> !(rows[j].task && rows[j].ready)
  }

  /** The first returned task of the list has the id. */
  ghost predicate ReturnedFirst(rows: seq<Row>, id: string) {
    exists k :: FirstReturned(rows, k) && rows[k].id == id
  }

  predicate SomeReturned(rows: seq<Row>) {
    exists k :: 0 <= k < |rows| && rows[k].task && rows[k].ready
  }

  /** The list was read, and every entry of it has a task, an id and a proto. */
  predicate Whole(linked: bool, list: Option<seq<Row>>) {
    linked && list.Some? && forall k :: 0 <= k < |list.value| ==> list.value[k].task && list.value[k].id != "" && list.value[k].proto
  }

  predicate Names(rows: seq<Row>, id: string) {
    id != "" && exists k :: 0 <= k < |rows| && rows[k].task && rows[k].id == id
  }

  /** As many claims as a session may complete: no bound to speak of in mode all, the control value in mode batch if it
      is 1 to 5, and otherwise 5. */
  function MostClaims(mode: string, control: int): int {
    if mode == "all" then 2147483647 else if control == 1 || control == 2 || control == 3 || control == 4 then control else 5
  }

  /** What is left of the session when a tick reads an automatic mode: entering a mode starts a new one. */
  function Carried(st: State, mode: string): State {
    if st.lastMode == mode then st
    else st.(waiting := false, stopped := false, completed := 0, pendingId := "", lastMode := mode)
  }

  predicate SingleDue(st: State, t: Reading) {
    t.mode == "one" && Whole(t.linked, t.oneList) && !st.oneWaiting && !st.oneDispatched && SomeReturned(t.oneList.value)
  }

  predicate BatchDue(st: State, t: Reading) {
    var s := Carried(st, t.mode);
    && (t.mode == "batch" || t.mode == "all") && Whole(t.linked, t.batchList)
    && !s.stopped && !s.waiting && s.completed < MostClaims(t.mode, t.limit) && SomeReturned(t.batchList.value)
  }

  ghost predicate Claims(e: Engine, r: Engine) {
    exists k :: |e.log| <= k < |r.log| && r.log[k].Claimed?
  }

  /** The claim is that of the first returned task of the list that its claimer reads. */
  ghost predicate RightClaim(t: Reading, ev: Event)
    requires ev.Claimed?
  {
    var list := if t.mode == "one" then t.oneList else t.batchList;
    ev.mode == t.mode && list.Some? && ReturnedFirst(list.value, ev.id)
  }

  /** What an automatic tick makes of the session s. */
  predicate AutomaticStep(s: State, t: Reading, s': State) {
    if s.stopped || !Whole(t.linked, t.batchList) then s' == s
    else if s.waiting then
      if Names(t.batchList.value, s.pendingId) then s' == s.(stopped := t.now - s.dispatchedMs > 60000)
      else s' == s.(waiting := false, completed := s.completed + 1, pendingId := "")
    else if s.completed >= MostClaims(t.mode, t.limit) then s' == s.(stopped := true)
    else if !SomeReturned(t.batchList.value) then s' == s
    else s' == s.(waiting := true, dispatchedMs := t.now, pendingId := s'.pendingId) && Names(t.batchList.value, s'.pendingId)
  }

  /** What the single claimer makes of the state. */
  predicate SingleStep(s: State, t: Reading, s': State) {
    if t.mode != "one" || !Whole(t.linked, t.oneList) then s' == s
    else if s.oneWaiting then
      if Names(t.oneList.value, s.pendingId) then s' == s else s' == s.(oneWaiting := false, pendingId := "")
    else if s.oneDispatched || !SomeReturned(t.oneList.value) then s' == s
    else
      s' == s.(oneDispatched := true, oneWaiting := true, lastMode := "one", pendingId := s'.pendingId)
      && Names(t.oneList.value, s'.pendingId)
  }

  /** Any other mode ends an automatic session. */
  function Ended(s: State, mode: string): State {
    if s.lastMode == "batch" || s.lastMode == "all" then
      s.(waiting := false, stopped := false, completed := 0, pendingId := "", lastMode := mode)
    else s.(lastMode := mode)
  }

  /** The list of an automatic claimer is logged as it was read. */
  predicate Shown(t: Reading, ev: Event)
    requires ev.Listed?
  {
    && t.batchList.Some? && |ev.ids| == |t.batchList.value|
    && forall j :: 0 <= j < |ev.ids| ==> ev.ids[j] == t.batchList.value[j].id
  }

  // ---------- proof ----------

  lemma {:induction false} FirstReadyIs(rows: seq<Row>)
    ensures var r := FirstReady(rows);
            && (r.Some? <==> SomeReturned(rows))
            && (r.Some? ==> ReturnedFirst(rows, r.value))
  {
    if rows != [] {
      var rest := rows[1..];
      FirstReadyIs(rest);
      if rows[0].task && rows[0].ready {
        assert FirstReturned(rows, 0) && rows[0].id == FirstReady(rows).value;
      } else {
        if SomeReturned(rows) {
          var k :| 0 <= k < |rows| && rows[k].task && rows[k].ready;
          assert rest[k - 1] == rows[k];
        }
        if FirstReady(rest).Some? {
          var k :| FirstReturned(rest, k) && rest[k].id == FirstReady(rest).value;
          FirstReturnedLater(rows, k);
        }
      }
    }
  }

  lemma FirstReturnedLater(rows: seq<Row>, k: int)
    requires rows != [] && !(rows[0].task && rows[0].ready) && FirstReturned(rows[1..], k)
    ensures FirstReturned(rows, k + 1) && rows[k + 1] == rows[1..][k]
  {
    forall j | 0 <= j < k + 1
      ensures !(rows[j].task && rows[j].ready)
    {
      if j > 0 { assert rows[j] == rows[1..][j - 1]; }
    }
  }

  lemma ReturnedIsNamed(linked: bool, list: Option<seq<Row>>, id: string)
    requires Whole(linked, list) && ReturnedFirst(list.value, id)
    ensures Names(list.value, id)
  {
  }

  lemma UsableIsWhole(linked: bool, list: Option<seq<Row>>)
    ensures Usable(linked, list) <==> Whole(linked, list)
  {
  }

  lemma LimitIs(mode: string, control: int)
    requires mode == "batch" || mode == "all"
    ensures LimitOf(mode, control) == MostClaims(mode, control)
  {
  }

  lemma ContainsIsNames(rows: seq<Row>, id: string)
    ensures Contains(rows, id) <==> Names(rows, id)
  {
  }

  lemma OneClaims(e: Engine, t: Reading)
    ensures var r := OneTick(e, t);
            if SingleDue(e.st, t) then
              && |r.log| == |e.log| + 1 && e.log <= r.log && r.log[|e.log|].Claimed? && RightClaim(t, r.log[|e.log|])
              && r.st.pendingId == r.log[|e.log|].id && r.st.lastMode == "one"
            else r.log == e.log
    ensures SingleStep(e.st, t, OneTick(e, t).st)
  {
    hide FirstReady, Contains, Complete, SomeReturned, ReturnedFirst, Names;
    UsableIsWhole(t.linked, t.oneList);
    if t.oneList.Some? {
      FirstReadyIs(t.oneList.value);
      ContainsIsNames(t.oneList.value, e.st.pendingId);
    }
    if SingleDue(e.st, t) {
      ReturnedIsNamed(t.linked, t.oneList, FirstReady(t.oneList.value).value);
    }
  }

  /** One tick in an automatic mode, from the list that it reads. */
  lemma BatchClaims(e: Engine, t: Reading)
    requires t.mode == "batch" || t.mode == "all"
    ensures var r := BatchTick(e, t);
            && e.log <= r.log
            && (forall k :: |e.log| <= k < |r.log| && r.log[k].Claimed? ==>
                  RightClaim(t, r.log[k]) && r.log[k].id == r.st.pendingId)
            && (forall k :: |e.log| <= k < |r.log| && r.log[k].Listed? ==> Shown(t, r.log[k]))
            && (forall k :: |e.log| <= k < |r.log| ==> !r.log[k].ModeRead?)
            && (Claims(e, r) <==> BatchDue(e.st, t))
            && AutomaticStep(Carried(e.st, t.mode), t, r.st)
  {
    hide FirstReady, Contains, Complete, SomeReturned, ReturnedFirst, LimitOf, MostClaims, Names;
    UsableIsWhole(t.linked, t.batchList);
    LimitIs(t.mode, t.limit);
    if t.batchList.Some? {
      FirstReadyIs(t.batchList.value);
      ContainsIsNames(t.batchList.value, Carried(e.st, t.mode).pendingId);
    }
    var r := BatchTick(e, t);
    if BatchDue(e.st, t) {
      ReturnedIsNamed(t.linked, t.batchList, FirstReady(t.batchList.value).value);
      assert r.log[|e.log| + 1].Claimed?;
    }
  }

  lemma ManualEnds(e: Engine, t: Reading)
    requires t.mode != "batch" && t.mode != "all"
    ensures BatchTick(e, t) == e.(st := Ended(e.st, t.mode))
  {
  }

  /** A tick claims exactly when one of the claimers is due, and the claim is that of the first returned task; the state
      that it leaves is that of the laws above. */
  lemma TickClaims(e: Engine, t: Reading)
    ensures var r := Tick(e, t);
            && e.log < r.log && r.log[|e.log|] == ModeRead(t.mode)
            && (Claims(e, r) <==> SingleDue(e.st, t) || BatchDue(e.st, t))
            && (forall k :: |e.log| <= k < |r.log| && r.log[k].Claimed? ==>
                  RightClaim(t, r.log[k]) && r.log[k].id == r.st.pendingId)
            && (forall k :: |e.log| <= k < |r.log| && r.log[k].Listed? ==> Shown(t, r.log[k]))
            && (if t.mode == "batch" || t.mode == "all" then AutomaticStep(Carried(e.st, t.mode), t, r.st)
                else exists s :: SingleStep(e.st, t, s) && r.st == Ended(s, t.mode))
  {
    hide OneTick, BatchTick, SingleStep, AutomaticStep, RightClaim, Shown, Whole, SomeReturned;
    var read := e.(log := e.log + [ModeRead(t.mode)]);
    var one := OneTick(read, t);
    var r := BatchTick(one, t);
    OneClaims(read, t);
    if t.mode == "batch" || t.mode == "all" {
      assert one == read by { SkipsSingle(read, t); }
      BatchClaims(read, t);
      if Claims(read, r) {
        var k :| |read.log| <= k < |r.log| && r.log[k].Claimed?;
        assert r.log[k].Claimed?;
      }
    } else {
      ManualEnds(one, t);
      assert SingleStep(e.st, t, one.st) && r.st == Ended(one.st, t.mode);
      if SingleDue(e.st, t) {
        assert r.log[|read.log|].Claimed?;
      }
    }
  }

  lemma SkipsSingle(e: Engine, t: Reading)
    requires t.mode != "one"
    ensures OneTick(e, t) == e
  {
  }
}
