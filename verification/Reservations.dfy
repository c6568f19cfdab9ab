/** Which Pikmin are spoken for, and by which task. */
module Reservations {
  import opened DispatchTeams

  datatype Hold = Hold(owner: string, sent: bool, sawBusy: bool, sentMs: int)

  type Holds = map<string, Hold>

  const BUSY := 2

  predicate Available(status: int) {
    status == 1 || status == 32
  }

  predicate HasSent(h: Holds, owner: string) {
    exists id :: id in h && h[id].owner == owner && h[id].sent
  }

  predicate Permits(h: Holds, id: string, owner: string) {
    id in h ==> h[id].owner == owner && !h[id].sent
  }

  predicate Unsent(h: Hold, owner: string) {
    h.owner == owner && !h.sent
  }

  function Cancel(h: Holds, owner: string): Holds {
    map id | id in h && !Unsent(h[id], owner) :: h[id]
  }

  predicate CanReserve(h: Holds, owner: string, ids: seq<string>) {
    && owner != "" && ids != [] && !HasSent(h, owner)
    && Distinct(ids) && "" !in ids
    && forall k :: 0 <= k < |ids| ==> Permits(h, ids[k], owner)
  }

  function Taken(h: Holds, owner: string, ids: set<string>): Holds {
    map id | id in h.Keys + ids :: if id in ids then Hold(owner, false, false, 0) else h[id]
  }

  function Reserve(h: Holds, owner: string, ids: seq<string>): Holds {
    if CanReserve(h, owner, ids) then Taken(Cancel(h, owner), owner, Ids(ids)) else h
  }

  function MarkSent(h: Holds, owner: string, now: int): Holds {
    map id | id in h :: if h[id].owner == owner then h[id].(sent := true, sentMs := now) else h[id]
  }

  function Observed(h: Holds, id: string, status: int): Holds {
    if id !in h || !h[id].sent then h
    else if status == BUSY then h[id := h[id].(sawBusy := true)]
    else if Available(status) && h[id].sawBusy then h - {id}
    else h
  }

  predicate Ended(h: Hold, live: set<string>, observed: int) {
    h.sent && observed > h.sentMs && h.owner !in live
  }

  function Reconcile(h: Holds, live: set<string>, observed: int): Holds {
    map id | id in h && !Ended(h[id], live, observed) :: h[id]
  }

  // ---------- what the table keeps ----------

  /** The holds of one owner are all sent, or all unsent. */
  predicate Uniform(h: Holds) {
    forall i, j :: i in h && j in h && h[i].owner == h[j].owner ==> h[i].sent == h[j].sent
  }

  function TeamHeld(h: Holds, owner: string): set<string> {
    set id | id in h && h[id].owner == owner
  }

  /** The owner and the ids are named, no id comes twice, nobody else holds one of them, and the owner has sent none. */
  predicate Reservable(h: Holds, owner: string, ids: seq<string>) {
    && |owner| > 0 && |ids| > 0
    && (forall i, j :: 0 <= i < |ids| && 0 <= j < |ids| && ids[i] == ids[j] ==> i == j)
    && (forall k :: 0 <= k < |ids| ==> |ids[k]| > 0 && (ids[k] in h ==> h[ids[k]].owner == owner))
    && (forall id :: id in h && h[id].owner == owner ==> !h[id].sent)
  }

  lemma ReserveIsAllOrNothing(h: Holds, owner: string, ids: seq<string>)
    requires Uniform(h)
    ensures var r := Reserve(h, owner, ids);
            && Uniform(r)
            && (if Reservable(h, owner, ids) then
                  && TeamHeld(r, owner) == Ids(ids) && !HasSent(r, owner)
                  && (forall id :: id in ids ==> r[id] == Hold(owner, false, false, 0))
                  && (forall id :: id !in Ids(ids) && (id in h ==> h[id].owner != owner) ==>
                        (id in r <==> id in h) && (id in h ==> r[id] == h[id]))
                else r == h)
  {
    hide Unsent;
    var r := Reserve(h, owner, ids);
    if CanReserve(h, owner, ids) {
      assert forall id :: id in h && h[id].owner == owner ==> Unsent(h[id], owner) by { NothingSent(h, owner); }
      assert forall id :: id in h && h[id].owner != owner ==> !Unsent(h[id], owner) by { OthersNotUnsent(h, owner); }
      forall id | id in Ids(ids) && id in h ensures h[id].owner == owner {
        var k :| 0 <= k < |ids| && ids[k] == id;
        assert Permits(h, ids[k], owner);
      }
    }
  }

  lemma NothingSent(h: Holds, owner: string)
    requires !HasSent(h, owner)
    ensures forall id :: id in h && h[id].owner == owner ==> Unsent(h[id], owner)
  {
  }

  lemma OthersNotUnsent(h: Holds, owner: string)
    ensures forall id :: id in h && h[id].owner != owner ==> !Unsent(h[id], owner)
  {
  }

  /** Teams of different owners never share a Pikmin, whatever is reserved over a table. */
  lemma TeamsAreDisjoint(h: Holds, a: string, b: string)
    requires a != b
    ensures TeamHeld(h, a) !! TeamHeld(h, b)
  {
  }

  // ---------- runs of operations ----------

  datatype Op =
    | DoReserve(owner: string, ids: seq<string>)
    | DoSent(owner: string, now: int)
    | DoCancel(owner: string)
    | DoObserve(id: string, status: int)
    | DoReconcile(live: set<string>, observed: int)

  function Apply(h: Holds, op: Op): Holds {
    match op
    case DoReserve(owner, ids) => Reserve(h, owner, ids)
    case DoSent(owner, now) => MarkSent(h, owner, now)
    case DoCancel(owner) => Cancel(h, owner)
    case DoObserve(id, status) => Observed(h, id, status)
    case DoReconcile(live, observed) => Reconcile(h, live, observed)
  }

  function ApplyAll(h: Holds, ops: seq<Op>): Holds
    decreases |ops|
  {
    if ops == [] then h else ApplyAll(Apply(h, ops[0]), ops[1..])
  }

  lemma ApplyKeepsUniform(h: Holds, op: Op)
    requires Uniform(h)
    ensures Uniform(Apply(h, op))
  {
    hide CanReserve;
    match op {
      case DoReserve(owner, ids) => hide Reserve; ReserveIsAllOrNothing(h, owner, ids);
      case _ =>
    }
  }

  /** Whatever is done to an empty table, the holds of each task are all sent or all unsent. */
  lemma {:induction false} TableStaysUniform(h: Holds, ops: seq<Op>)
    requires Uniform(h)
    ensures Uniform(ApplyAll(h, ops))
    decreases |ops|
  {
    hide Apply, Uniform;
    if ops != [] {
      ApplyKeepsUniform(h, ops[0]);
      TableStaysUniform(Apply(h, ops[0]), ops[1..]);
    }
  }

  predicate StillSent(h: Holds, r: Holds, id: string)
    requires id in h
  {
    h[id].sent ==> id in r && r[id].sent && r[id].owner == h[id].owner && r[id].sawBusy == h[id].sawBusy
  }

  lemma SentIsNotPermitted(h: Holds, owner: string, ids: seq<string>, id: string)
    requires CanReserve(h, owner, ids) && id in h && h[id].sent
    ensures id !in Ids(ids)
  {
    forall k | 0 <= k < |ids| ensures ids[k] != id {
      assert Permits(h, ids[k], owner);
    }
  }

  lemma ReserveKeepsSent(h: Holds, owner: string, ids: seq<string>, id: string)
    requires id in h && h[id].sent
    ensures id in Reserve(h, owner, ids) && Reserve(h, owner, ids)[id] == h[id]
  {
    hide CanReserve, Ids;
    if CanReserve(h, owner, ids) { SentIsNotPermitted(h, owner, ids, id); }
  }

  predicate OursOnly(op: Op) {
    op.DoReserve? || op.DoSent? || op.DoCancel?
  }

  /** No reservation, no start and no cancellation, in any order, drops a hold that was sent. */
  lemma {:induction false} OnlyEvidenceReleases(h: Holds, ops: seq<Op>, id: string)
    requires forall k :: 0 <= k < |ops| ==> OursOnly(ops[k])
    requires id in h && h[id].sent
    ensures StillSent(h, ApplyAll(h, ops), id)
    decreases |ops|
  {
    if ops != [] {
      var r := Apply(h, ops[0]);
      assert OursOnly(ops[0]);
      if ops[0].DoReserve? { ReserveKeepsSent(h, ops[0].owner, ops[0].ids, id); }
      OnlyEvidenceReleases(r, ops[1..], id);
    }
  }
}
