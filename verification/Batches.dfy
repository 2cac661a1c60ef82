/** Which holds a round of the broker applies: batches are atomic, and a round leaves nothing behind. */
module Batches {
  import opened Seqs
  import opened Broker

  /** The rule, hold by hold: alone, a hold waits for its own requirements; under a key, for every hold of
      that key. An elapsed deadline takes the whole key along. */
  predicate Chosen(holds: seq<Hold>, h: Hold, forced: bool, m: Moment) {
    var group := Group(holds, Key(h));
    if Key(h).None? then Due(h, forced, m)
    else AllReady(group, m.ready) || (forced && AnyExpired(group, m.now))
  }

  lemma {:induction false} KeysListed(holds: seq<Hold>)
    ensures Distinct(Keys(holds))
    ensures forall k :: k in Keys(holds) <==> exists h :: h in holds && Key(h) == k
  {
    if holds != [] {
      var before, h := Init(holds), Last(holds);
      assert holds == before + [h];
      KeysListed(before);
      forall k ensures k in Keys(holds) <==> exists g :: g in holds && Key(g) == k {
        if k == Key(h) { assert h in holds; }
        if k in Keys(before) {
          var g :| g in before && Key(g) == k;
          assert g in holds;
        }
      }
    }
  }

  lemma PickedIff(holds: seq<Hold>, key: Option<string>, forced: bool, m: Moment, h: Hold)
    ensures h in Pick(Group(holds, key), key, forced, m)
            <==> h in holds && Key(h) == key && Chosen(holds, h, forced, m)
  {
  }

  lemma {:induction false} PicksIff(holds: seq<Hold>, keys: seq<Option<string>>, forced: bool, m: Moment)
    requires Distinct(holds) && Distinct(keys)
    ensures Distinct(Picks(holds, keys, forced, m))
    ensures forall h :: h in Picks(holds, keys, forced, m)
                        <==> h in holds && Key(h) in keys && Chosen(holds, h, forced, m)
  {
    if keys != [] {
      var before, k := Init(keys), Last(keys);
      assert keys == before + [k];
      PicksIff(holds, before, forced, m);
      var a, b := Picks(holds, before, forced, m), Pick(Group(holds, k), k, forced, m);
      forall h ensures h in b <==> h in holds && Key(h) == k && Chosen(holds, h, forced, m) {
        PickedIff(holds, k, forced, m, h);
      }
      FilterDistinct(holds, Keyed(k));
      FilterDistinct(Group(holds, k), IsDue(forced, m));
      forall h | h in a ensures h !in b { assert Key(h) in before; }
      DistinctConcat(a, b);
    }
  }

  /** The grouped scan applies exactly the chosen holds, each once. */
  lemma AppliesExactlyTheChosen(holds: seq<Hold>, forced: bool, m: Moment)
    requires Distinct(holds)
    ensures var list := HoldsToApply(holds, forced, m);
            Distinct(list) && forall h :: h in list <==> h in holds && Chosen(holds, h, forced, m)
  {
    KeysListed(holds);
    PicksIff(holds, Keys(holds), forced, m);
  }

  lemma SurfacesDistinct(holds: seq<Hold>)
    requires Distinct(Surfaces(holds))
    ensures Distinct(holds)
    ensures forall g, h :: g in holds && h in holds && g.surface == h.surface ==> g == h
  {
    forall i, j | 0 <= i < j < |holds| ensures holds[i] != holds[j] {
      assert Surfaces(holds)[i] != Surfaces(holds)[j];
    }
    forall g, h | g in holds && h in holds && g.surface == h.surface ensures g == h {
      var i :| 0 <= i < |holds| && holds[i] == g;
      var j :| 0 <= j < |holds| && holds[j] == h;
      assert Surfaces(holds)[i] == Surfaces(holds)[j];
    }
  }

  lemma SurfaceOf(holds: seq<Hold>, h: Hold)
    requires h in holds
    ensures h.surface in Surfaces(holds)
  {
    var i :| 0 <= i < |holds| && holds[i] == h;
    assert Surfaces(holds)[i] == h.surface;
  }

  lemma WithoutIff(holds: seq<Hold>, list: seq<Hold>)
    requires Distinct(Surfaces(holds)) && forall h :: h in list ==> h in holds
    ensures forall h :: h in Without(holds, list) <==> h in holds && h !in list
  {
    SurfacesDistinct(holds);
    forall h ensures h in Without(holds, list) <==> h in holds && h !in list {
      if h in list { SurfaceOf(list, h); }
      if h in holds && h.surface in Surfaces(list) {
        var i :| 0 <= i < |list| && Surfaces(list)[i] == h.surface;
        assert list[i] in holds;
      }
    }
  }

  /** What a round keeps is what was not chosen. */
  lemma RoundKeeps(s: State, forced: bool, m: Moment)
    requires Distinct(Surfaces(s.holds))
    ensures forall h :: h in Round(s, forced, m).state.holds <==> h in s.holds && !Chosen(s.holds, h, forced, m)
  {
    SurfacesDistinct(s.holds);
    AppliesExactlyTheChosen(s.holds, forced, m);
    var list := HoldsToApply(s.holds, forced, m);
    if list != [] { WithoutIff(s.holds, list); }
    else {
      forall h | h in s.holds ensures !Chosen(s.holds, h, forced, m) { assert h !in list; }
    }
  }

  /** A batch goes as one: two holds under one key are both kept or both applied. */
  lemma BatchAtomic(s: State, forced: bool, m: Moment, g: Hold, h: Hold)
    requires Distinct(Surfaces(s.holds)) && g in s.holds && h in s.holds && Key(g) == Key(h) && Key(g).Some?
    ensures g in Round(s, forced, m).state.holds <==> h in Round(s, forced, m).state.holds
  {
    RoundKeeps(s, forced, m);
  }

  /** Unforced, nothing applies before every requirement of its whole batch is ready. */
  lemma OnlyReadyApplies(s: State, m: Moment, h: Hold)
    requires Distinct(Surfaces(s.holds)) && h in s.holds && h !in Round(s, false, m).state.holds
    ensures Ready(h, m.ready)
    ensures Key(h).Some? ==> forall g :: g in s.holds && Key(g) == Key(h) ==> Ready(g, m.ready)
  {
    RoundKeeps(s, false, m);
    if Key(h).Some? {
      forall g | g in s.holds && Key(g) == Key(h) ensures Ready(g, m.ready) {
        assert g in Group(s.holds, Key(h));
      }
      assert h in Group(s.holds, Key(h));
    }
  }

  /** A round keeps a batch whole or not at all. */
  lemma GroupAfter(s: State, m: Moment, key: Option<string>)
    requires Distinct(Surfaces(s.holds)) && key.Some?
    ensures var r := Round(s, false, m).state.holds;
            Group(r, key) == Group(s.holds, key) || Group(r, key) == []
  {
    RoundKeeps(s, false, m);
    var list := HoldsToApply(s.holds, false, m);
    var r := Round(s, false, m).state.holds;
    if list != [] && Group(r, key) != [] {
      var g := Group(r, key)[0];
      assert g in Group(r, key);
      var p := Outside(Surfaces(list));
      forall x | x in s.holds && Keyed(key)(x) ensures p(x) {
        BatchAtomic(s, false, m, g, x);
      }
      FilterFilter(s.holds, p, Keyed(key));
    }
  }

  /** A second evaluation with the same answers applies nothing. */
  lemma EvaluateIsMaximal(s: State, m: Moment)
    requires Distinct(Surfaces(s.holds))
    ensures var s1 := Evaluated(s, m).state; Evaluated(s1, m) == Outcome(s1, [])
  {
    var s1 := Evaluated(s, m).state;
    if s.holds != [] && s1.holds != [] {
      RoundKeeps(s, false, m);
      var again := HoldsToApply(s1.holds, false, m);
      WithoutDistinct(s, m);
      SurfacesDistinct(s1.holds);
      AppliesExactlyTheChosen(s1.holds, false, m);
      if again != [] {
        var h := again[0];
        assert h in again;
        if Key(h).Some? { GroupAfter(s, m, Key(h)); }
        assert false;
      }
    }
  }

  lemma {:induction false} FilterSurfaces(holds: seq<Hold>, p: Hold -> bool)
    requires Distinct(Surfaces(holds))
    ensures Distinct(Surfaces(Filter(holds, p)))
  {
    if holds != [] {
      assert holds == Init(holds) + [Last(holds)];
      assert Surfaces(holds) == Surfaces(Init(holds)) + [Last(holds).surface];
      DistinctEnds(Surfaces(Init(holds)), Last(holds).surface);
      FilterSurfaces(Init(holds), p);
      var f := Filter(Init(holds), p);
      assert Surfaces(f + [Last(holds)]) == Surfaces(f) + [Last(holds).surface];
      forall i | 0 <= i < |f| ensures Surfaces(f)[i] != Last(holds).surface {
        assert f[i] in f;
        SurfaceOf(Init(holds), f[i]);
      }
      DistinctEnds(Surfaces(f), Last(holds).surface);
      assert Filter(holds, p) == if p(Last(holds)) then f + [Last(holds)] else f;
    }
  }

  lemma WithoutDistinct(s: State, m: Moment)
    requires Distinct(Surfaces(s.holds))
    ensures Distinct(Surfaces(Evaluated(s, m).state.holds))
  {
    FilterSurfaces(s.holds, Outside(Surfaces(HoldsToApply(s.holds, false, m))));
  }

  /** But for the timer, a tick is a forced round. */
  lemma TickIsRound(s: State, m: Moment)
    ensures var r, t := Round(s.(timer := None), true, m), Ticked(s, m);
            t.events == r.events && t.state.holds == r.state.holds && t.state.pending == r.state.pending
  {
    if s.holds == [] { assert HoldsToApply(s.holds, true, m) == []; }
  }
}
