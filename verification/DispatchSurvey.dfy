/** What the survey of the inventory finds, told from the sightings alone. */
module DispatchSurvey {
  import opened DispatchState
  import opened Options
  import opened Reservations

  /** Sighting i is read: it and all before it have ids, and no id comes twice or is known already. */
  predicate ReadAt(sightings: seq<Sighting>, known: set<string>, i: int) {
    && 0 <= i < |sightings|
    && (forall j :: 0 <= j <= i ==> sightings[j].id != "" && sightings[j].id !in known)
    && (forall j, k :: 0 <= j < k <= i ==> sightings[j].id != sightings[k].id)
  }

  predicate AllRead(sightings: seq<Sighting>, known: set<string>) {
    sightings != [] ==> ReadAt(sightings, known, |sightings| - 1)
  }

  ghost predicate Reads(sightings: seq<Sighting>, known: set<string>, s: Sighting) {
    exists i :: 0 <= i < |sightings| && ReadAt(sightings, known, i) && sightings[i] == s
  }

  /** The id is seen with this status. */
  ghost predicate SeenAs(sightings: seq<Sighting>, known: set<string>, id: string, status: int) {
    exists s :: Reads(sightings, known, s) && s.id == id && s.status == status
  }

  ghost predicate SeenIdle(sightings: seq<Sighting>, known: set<string>, id: string) {
    SeenAs(sightings, known, id, 1) || SeenAs(sightings, known, id, 32)
  }

  /** The Pikmin is idle, not restricted, and nobody else's, and for a gift it is the designated one. */
  predicate FitsAt(h: Holds, s: Sighting, owner: string, gift: bool, designated: string) {
    && (s.status == 1 || s.status == 32) && !s.restricted
    && (s.id in h ==> if h[s.id].sent then h[s.id].sawBusy else h[s.id].owner == owner)
    && (gift ==> designated != "" && s.id == designated && s.allowed)
  }

  ghost predicate Fits(h: Holds, sightings: seq<Sighting>, known: set<string>, id: string, owner: string,
                       gift: bool, designated: string)
  {
    exists s :: Reads(sightings, known, s) && s.id == id && FitsAt(h, s, owner, gift, designated)
  }

  /** A sent hold ends when its Pikmin, seen busy before, is seen idle, and notes when it is seen busy. */
  ghost predicate HoldsAfter(h: Holds, sightings: seq<Sighting>, known: set<string>, h': Holds) {
    forall id ::
      if id !in h then id !in h'
      else if h[id].sent && h[id].sawBusy && SeenIdle(sightings, known, id) then id !in h'
      else id in h' && h'[id] == if h[id].sent && SeenAs(sightings, known, id, 2) then h[id].(sawBusy := true) else h[id]
  }

  // ---------- one sighting more ----------

  lemma ReadShift(sightings: seq<Sighting>, known: set<string>, i: int)
    requires sightings != [] && sightings[0].id != "" && sightings[0].id !in known
    ensures ReadAt(sightings, known, i + 1) <==> i >= -1 && (i == -1 || ReadAt(sightings[1..], known + {sightings[0].id}, i))
  {
    var rest, more := sightings[1..], known + {sightings[0].id};
    if ReadAt(sightings, known, i + 1) && i >= 0 {
      forall j | 0 <= j <= i ensures rest[j].id != "" && rest[j].id !in more {
        assert rest[j] == sightings[j + 1];
      }
      forall j, k | 0 <= j < k <= i ensures rest[j].id != rest[k].id {
        assert rest[j] == sightings[j + 1] && rest[k] == sightings[k + 1];
      }
    }
    if i >= 0 && ReadAt(rest, more, i) {
      forall j | 0 <= j <= i + 1 ensures sightings[j].id != "" && sightings[j].id !in known {
        if j > 0 { assert sightings[j] == rest[j - 1]; }
      }
      forall j, k | 0 <= j < k <= i + 1 ensures sightings[j].id != sightings[k].id {
        if j > 0 {
          assert sightings[j] == rest[j - 1] && sightings[k] == rest[k - 1];
        } else {
          assert sightings[k] == rest[k - 1];
        }
      }
    }
  }

  lemma ReadsShift(sightings: seq<Sighting>, known: set<string>, s: Sighting)
    requires sightings != [] && sightings[0].id != "" && sightings[0].id !in known
    ensures Reads(sightings, known, s) <==> s == sightings[0] || Reads(sightings[1..], known + {sightings[0].id}, s)
  {
    hide ReadAt;
    var rest, more := sightings[1..], known + {sightings[0].id};
    ReadShift(sightings, known, -1);
    if i :| 0 <= i < |sightings| && ReadAt(sightings, known, i) && sightings[i] == s {
      ReadShift(sightings, known, i - 1);
      if i > 0 { assert rest[i - 1] == s; }
    }
    if i :| 0 <= i < |rest| && ReadAt(rest, more, i) && rest[i] == s {
      ReadShift(sightings, known, i);
      assert sightings[i + 1] == s;
    }
  }

  lemma NothingRead(sightings: seq<Sighting>, known: set<string>)
    requires sightings == [] || sightings[0].id == "" || sightings[0].id in known
    ensures forall s :: !Reads(sightings, known, s)
    ensures AllRead(sightings, known) <==> sightings == []
  {
  }

  lemma AllReadShift(sightings: seq<Sighting>, known: set<string>)
    requires sightings != [] && sightings[0].id != "" && sightings[0].id !in known
    ensures AllRead(sightings, known) <==> AllRead(sightings[1..], known + {sightings[0].id})
  {
    hide ReadAt;
    ReadShift(sightings, known, |sightings| - 2);
  }

  /** Every sighting that is read later is of an id that is not known yet. */
  lemma ReadsNew(sightings: seq<Sighting>, known: set<string>, s: Sighting)
    requires Reads(sightings, known, s)
    ensures s.id !in known && s.id != ""
  {
  }

  // ---------- the survey ----------

  /** The events of a survey: one for each sighting that is read, in order. */
  function Statuses(sightings: seq<Sighting>, known: set<string>): seq<Event> {
    if sightings == [] || sightings[0].id == "" || sightings[0].id in known then []
    else [StatusSeen(sightings[0].id, sightings[0].status)] + Statuses(sightings[1..], known + {sightings[0].id})
  }

  lemma HoldsStep(h: Holds, sightings: seq<Sighting>, known: set<string>, h': Holds)
    requires sightings != [] && sightings[0].id != "" && sightings[0].id !in known
    requires HoldsAfter(Observed(h, sightings[0].id, sightings[0].status), sightings[1..], known + {sightings[0].id}, h')
    ensures HoldsAfter(h, sightings, known, h')
  {
    hide Reads;
    var s, rest, more := sightings[0], sightings[1..], known + {sightings[0].id};
    forall t: Sighting
      ensures Reads(sightings, known, t) <==> t == s || Reads(rest, more, t)
      ensures Reads(rest, more, t) ==> t.id != s.id
    {
      ReadsShift(sightings, known, t);
      if Reads(rest, more, t) { ReadsNew(rest, more, t); }
    }
  }

  lemma FitsStep(h: Holds, sightings: seq<Sighting>, known: set<string>, id: string, owner: string, gift: bool, designated: string)
    requires sightings != [] && sightings[0].id != "" && sightings[0].id !in known
    ensures var s := sightings[0]; var h1 := Observed(h, s.id, s.status);
      Fits(h, sightings, known, id, owner, gift, designated) <==>
        (id == s.id && Eligible(h1, s, owner, gift, designated))
        || Fits(h1, sightings[1..], known + {s.id}, id, owner, gift, designated)
  {
    hide Reads;
    var s, rest, more := sightings[0], sightings[1..], known + {sightings[0].id};
    var h1 := Observed(h, s.id, s.status);
    forall t: Sighting
      ensures Reads(sightings, known, t) <==> t == s || Reads(rest, more, t)
      ensures Reads(rest, more, t) ==> t.id != s.id
    {
      ReadsShift(sightings, known, t);
      if Reads(rest, more, t) { ReadsNew(rest, more, t); }
    }
    assert Eligible(h1, s, owner, gift, designated) <==> FitsAt(h, s, owner, gift, designated);
    forall t: Sighting | t.id != s.id
      ensures FitsAt(h1, t, owner, gift, designated) <==> FitsAt(h, t, owner, gift, designated)
    {
    }
  }

  /** Who is eligible, what is held afterwards, whether everything was read, and what is logged. */
  ghost predicate Finds(h: Holds, sightings: seq<Sighting>, known: set<string>, owner: string, gift: bool, designated: string,
                        eligible: set<string>, log: seq<Event>, s: Surveyed)
  {
    && HoldsAfter(h, sightings, known, s.holds)
    && (forall id :: id in s.eligible <==> id in eligible || Fits(h, sightings, known, id, owner, gift, designated))
    && (s.whole <==> AllRead(sightings, known))
    && s.log == log + Statuses(sightings, known)
  }

  lemma FindsMore(h: Holds, sightings: seq<Sighting>, known: set<string>, owner: string, gift: bool, designated: string,
                  eligible: set<string>, log: seq<Event>, r: Surveyed)
    requires sightings != [] && sightings[0].id != "" && sightings[0].id !in known
    requires var s := sightings[0]; var h1 := Observed(h, s.id, s.status);
      Finds(h1, sightings[1..], known + {s.id}, owner, gift, designated,
            if Eligible(h1, s, owner, gift, designated) then eligible + {s.id} else eligible,
            log + [StatusSeen(s.id, s.status)], r)
    ensures Finds(h, sightings, known, owner, gift, designated, eligible, log, r)
  {
    hide Observed, Eligible, HoldsAfter, Fits, AllRead, Reads;
    HoldsStep(h, sightings, known, r.holds);
    AllReadShift(sightings, known);
    forall id
      ensures id in r.eligible <==> id in eligible || Fits(h, sightings, known, id, owner, gift, designated)
    {
      FitsStep(h, sightings, known, id, owner, gift, designated);
    }
  }

  /** The survey shows the table every sighting that is read, and finds what the sightings say. */
  lemma {:induction false} SurveyFinds(h: Holds, sightings: seq<Sighting>, known: set<string>, owner: string, gift: bool,
                                       designated: string, eligible: set<string>, log: seq<Event>)
    ensures Finds(h, sightings, known, owner, gift, designated, eligible, log,
                  Survey(h, sightings, known, owner, gift, designated, eligible, log))
    decreases |sightings|
  {
    hide Observed, Eligible, Finds;
    if sightings == [] || sightings[0].id == "" || sightings[0].id in known {
      FindsNothing(h, sightings, known, owner, gift, designated, eligible, log);
    } else {
      var s := sightings[0];
      var h1, more := Observed(h, s.id, s.status), known + {s.id};
      var eligible1 := if Eligible(h1, s, owner, gift, designated) then eligible + {s.id} else eligible;
      var log1 := log + [StatusSeen(s.id, s.status)];
      SurveyFinds(h1, sightings[1..], more, owner, gift, designated, eligible1, log1);
      FindsMore(h, sightings, known, owner, gift, designated, eligible, log,
                Survey(h1, sightings[1..], more, owner, gift, designated, eligible1, log1));
    }
  }

  lemma FindsNothing(h: Holds, sightings: seq<Sighting>, known: set<string>, owner: string, gift: bool, designated: string,
                     eligible: set<string>, log: seq<Event>)
    requires sightings == [] || sightings[0].id == "" || sightings[0].id in known
    ensures Finds(h, sightings, known, owner, gift, designated, eligible, log, Surveyed(h, eligible, sightings == [], log))
  {
    hide HoldsAfter, Fits, AllRead, Reads;
    NothingRead(sightings, known);
    NothingHappens(h, sightings, known, owner, gift, designated);
    assert log + [] == log;
  }

  lemma NothingHappens(h: Holds, sightings: seq<Sighting>, known: set<string>, owner: string, gift: bool, designated: string)
    requires forall s :: !Reads(sightings, known, s)
    ensures HoldsAfter(h, sightings, known, h)
    ensures forall id :: !Fits(h, sightings, known, id, owner, gift, designated)
  {
    hide Reads;
  }
}
