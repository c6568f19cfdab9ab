/** What the planter chooses to do next. */
module PlanterChoice {
  import opened Options
  import opened PlanterState

  // ---------- the order of seeds ----------

  lemma {:induction false} LessIsStrict(a: string, b: string)
    ensures !(Less(a, b) && Less(b, a))
    ensures Less(a, b) || Less(b, a) || a == b
    ensures !Less(a, a)
  {
    if a != "" && b != "" {
      LessIsStrict(a[1..], b[1..]);
      assert a == [a[0]] + a[1..] && b == [b[0]] + b[1..];
    }
    if a != "" { LessIsIrreflexive(a); }
  }

  lemma {:induction false} LessIsIrreflexive(a: string)
    ensures !Less(a, a)
  {
    if a != "" { LessIsIrreflexive(a[1..]); }
  }

  lemma {:induction false} LessIsTransitive(a: string, b: string, c: string)
    requires Less(a, b) && Less(b, c)
    ensures Less(a, c)
  {
    if a != "" && a[0] == b[0] && b[0] == c[0] {
      LessIsTransitive(a[1..], b[1..], c[1..]);
    }
  }

  lemma BetterIsTransitive(a: Seed, b: Seed, c: Seed)
    requires Better(a, b) && Better(b, c)
    ensures Better(a, c)
  {
    hide Less;
    if a.required == b.required && b.required == c.required {
      LessIsTransitive(a.id, b.id, c.id);
    }
  }

  lemma BetterIsTotal(a: Seed, b: Seed)
    ensures !(Better(a, b) && Better(b, a))
    ensures Better(a, b) || Better(b, a) || (a.required == b.required && a.id == b.id)
  {
    hide Less;
    LessIsStrict(a.id, b.id);
  }

  // ---------- the best seed ----------

  /** The best seed is plantable and no plantable seed is better; there is none only if nothing is plantable. */
  lemma {:induction false} BestIsLeast(seeds: seq<Seed>, s: Snapshot, steps: set<nat>)
    ensures var b := Best(seeds, s, steps);
            && (b.Some? ==> b.value in seeds && Plantable(b.value, s, steps))
            && (forall x :: x in seeds && Plantable(x, s, steps) ==> b.Some? && !Better(x, b.value))
  {
    hide Plantable, Better;
    if seeds != [] {
      var before := seeds[..|seeds| - 1];
      var seed := seeds[|seeds| - 1];
      BestIsLeast(before, s, steps);
      var r, b := Best(before, s, steps), Best(seeds, s, steps);
      assert seeds == before + [seed];
      if r.Some? && Plantable(seed, s, steps) && Better(seed, r.value) {
        assert b == Some(seed);
        forall x | x in seeds && Plantable(x, s, steps) ensures !Better(x, seed) {
          NoneBetter(x, seed, r.value);
        }
      }
      BetterIsTotal(seed, seed);
    }
  }

  lemma NoneBetter(x: Seed, seed: Seed, than: Seed)
    requires Better(seed, than) && (x == seed || !Better(x, than))
    ensures !Better(x, seed)
  {
    hide Better;
    if Better(x, seed) {
      if x == seed {
        BetterIsTotal(seed, seed);
      } else {
        BetterIsTransitive(x, seed, than);
      }
    }
  }

  // ---------- the first slot ----------

  /** The first ripe slot in inventory order, or none is ripe. */
  lemma {:induction false} RipeIsFirst(slots: seq<Slot>, s: Snapshot)
    ensures var r := FirstRipe(slots, s);
            if r.Some? then
              exists k :: 0 <= k < |slots| && Ripe(slots[k], s) && (forall j :: 0 <= j < k ==> !Ripe(slots[j], s))
                          && r == Some(Pick("pluck", Lookup(s.seeds, slots[k].seed).value, slots[k]))
            else
              forall k :: 0 <= k < |slots| ==> !Ripe(slots[k], s)
  {
    hide Lookup, Permanent;
    if slots != [] && !Ripe(slots[0], s) {
      RipeIsFirst(slots[1..], s);
      var r := FirstRipe(slots[1..], s);
      if r.Some? {
        var k :| 0 <= k < |slots[1..]| && Ripe(slots[1..][k], s)
                 && (forall j :: 0 <= j < k ==> !Ripe(slots[1..][j], s))
                 && r == Some(Pick("pluck", Lookup(s.seeds, slots[1..][k].seed).value, slots[1..][k]));
        assert slots[k + 1] == slots[1..][k];
        assert forall j :: 0 < j < k + 1 ==> slots[j] == slots[1..][j - 1];
      } else {
        assert forall j :: 0 < j < |slots| ==> slots[j] == slots[1..][j - 1];
      }
    } else if slots != [] {
      assert FirstRipe(slots, s) == Some(Pick("pluck", Lookup(s.seeds, slots[0].seed).value, slots[0]));
    }
  }

  predicate Free(slot: Slot, s: Snapshot) {
    slot.seed == "" && Permanent(slot, s.maxSlots)
  }

  lemma {:induction false} FreeIsFirst(slots: seq<Slot>, s: Snapshot)
    ensures var r := FirstFree(slots, s);
            if r.Some? then
              exists k :: 0 <= k < |slots| && Free(slots[k], s) && (forall j :: 0 <= j < k ==> !Free(slots[j], s))
                          && r == Some(slots[k])
            else
              forall k :: 0 <= k < |slots| ==> !Free(slots[k], s)
  {
    hide Permanent;
    if slots != [] && !Free(slots[0], s) {
      FreeIsFirst(slots[1..], s);
      var r := FirstFree(slots[1..], s);
      if r.Some? {
        var k :| 0 <= k < |slots[1..]| && Free(slots[1..][k], s)
                 && (forall j :: 0 <= j < k ==> !Free(slots[1..][j], s)) && r == Some(slots[1..][k]);
        assert slots[k + 1] == slots[1..][k];
        assert forall j :: 0 < j < k + 1 ==> slots[j] == slots[1..][j - 1];
      } else {
        assert forall j :: 0 < j < |slots| ==> slots[j] == slots[1..][j - 1];
      }
    } else if slots != [] {
      assert FirstFree(slots, s) == Some(slots[0]);
    }
  }
}
