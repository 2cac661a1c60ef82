/** What one recompute guarantees: the invariant, a home for every workspace, a workspace for every live
    output, and that a second call is a no-op exactly when no two live outputs share a durable name.
 */
module Settling {
  import opened Seqs
  import opened Index
  import opened Registry
  import opened Hotplug

  // ----- Replenishment -----

  lemma {:induction false} ReplenishInv(s: State, e: Env, ids: seq<int>, n: nat)
    requires WeakInv(s) && n <= |ids|
    ensures WeakInv(Replenish(s, e, ids, n))
  {
    if n > 0 {
      ReplenishInv(s, e, ids, n - 1);
      EnlistedInv(Replenish(s, e, ids, n - 1), Donor(ids[n - 1], e));
    }
  }

  lemma {:induction false} ReplenishFrame(s: State, e: Env, ids: seq<int>, n: nat)
    requires n <= |ids|
    ensures var r := Replenish(s, e, ids, n);
            r.shown == s.shown && r.owner == s.owner && r.memory == s.memory && s.next <= r.next
  {
    if n > 0 { ReplenishFrame(s, e, ids, n - 1); }
  }

  /** It is idle unless it issues a handle, and then it says so. */
  lemma {:induction false} ReplenishReports(s: State, e: Env, ids: seq<int>, n: nat)
    requires n <= |ids|
    ensures var r := Replenish(s, e, ids, n);
            && (r.next == s.next ==> r == s && Replenishments(s, e, ids, n) == [])
            && (r.next > s.next ==> Replenishments(s, e, ids, n) != [])
  {
    if n > 0 {
      ReplenishFrame(s, e, ids, n - 1);
      ReplenishReports(s, e, ids, n - 1);
    }
  }

  /** Records present stay; a new one is a donor workspace on one of the outputs. */
  lemma {:induction false} ReplenishRecords(s: State, e: Env, ids: seq<int>, n: nat, h: Handle)
    requires n <= |ids|
    ensures var r := Replenish(s, e, ids, n);
            && (h < s.next ==> (h in r.ws <==> h in s.ws) && (h in s.ws ==> r.ws[h] == s.ws[h]))
            && (h >= s.next && h !in s.ws && h in r.ws ==> r.ws[h].output in ids && r.ws[h] == Donor(r.ws[h].output, e))
  {
    if n > 0 {
      ReplenishRecords(s, e, ids, n - 1, h);
      ReplenishFrame(s, e, ids, n - 1);
      assert ids[n - 1] in ids;
    }
  }

  lemma {:induction false} ReplenishFills(s: State, e: Env, ids: seq<int>, n: nat, i: nat)
    requires i < n <= |ids|
    ensures Positions(Replenish(s, e, ids, n), ids[i]) != []
  {
    if i < n - 1 { ReplenishFills(s, e, ids, n - 1, i); }
  }

  /** With no output drained it does nothing. */
  lemma {:induction false} ReplenishIdle(s: State, e: Env, ids: seq<int>, n: nat)
    requires n <= |ids| && forall id :: id in ids ==> Positions(s, id) != []
    ensures Replenish(s, e, ids, n) == s && Replenishments(s, e, ids, n) == []
  {
    if n > 0 { ReplenishIdle(s, e, ids, n - 1); }
  }

  lemma {:induction false} ReplenishDrained(s: State, e: Env, ids: seq<int>, n: nat, i: nat)
    requires i < n <= |ids| && Positions(s, ids[i]) == []
    ensures Replenish(s, e, ids, n).next > s.next
  {
    ReplenishFrame(s, e, ids, n - 1);
    if i < n - 1 { ReplenishDrained(s, e, ids, n - 1, i); }
    else { ReplenishReports(s, e, ids, n - 1); }
  }

  // ----- The recomputed state -----

  lemma PruneLists(positions: map<int, seq<Handle>>, outputs: map<Handle, int>)
    requires Inverse(positions, outputs)
    ensures Inverse(Pruned(positions), outputs)
  {
    forall o ensures At(Pruned(positions), o) == At(positions, o) {
    }
    SameLists(positions, Pruned(positions), outputs);
  }

  lemma RestoredPlaced(s: State, e: Env)
    requires ShownPlaced(s.positions, s.shown)
    ensures ShownPlaced(Pruned(s.positions), Restored(s, e)) && Settled(Pruned(s.positions), Restored(s, e))
  {
    var p, shown := Pruned(s.positions), Restored(s, e);
    forall o | o in shown ensures shown[o] in At(p, o) {
      assert At(p, o) == At(s.positions, o);
    }
  }

  lemma RefilledInv(s: State, e: Env)
    requires Inv(s)
    ensures WeakInv(Refilled(s, e))
  {
    MigrateInv(s, e, s.next);
    ReplenishInv(Migrate(s, e, s.next), e, LiveIds(e.live), |LiveIds(e.live)|);
  }

  /** The registry's invariant survives every hotplug. */
  lemma RecomputedInv(s: State, e: Env)
    requires Inv(s)
    ensures Inv(Recomputed(s, e))
  {
    RefilledInv(s, e);
    var s2 := Refilled(s, e);
    PruneLists(s2.positions, Outputs(s2.ws));
    RestoredPlaced(s2, e);
  }

  lemma RecomputedFrame(s: State, e: Env)
    ensures var r := Recomputed(s, e); r.owner == s.owner && r.memory == s.memory && s.next <= r.next
  {
    MigrateFrame(s, e, s.next);
    ReplenishFrame(Migrate(s, e, s.next), e, LiveIds(e.live), |LiveIds(e.live)|);
  }

  /** Every workspace gets the home its own preferences derive; only live outputs get new ones. */
  lemma RecomputedRecord(s: State, e: Env, h: Handle)
    requires Inv(s)
    ensures var r := Recomputed(s, e);
            && (h in s.ws ==> h in r.ws && r.ws[h] == Rehomed(s.ws[h], e))
            && (h !in s.ws && h in r.ws ==> h >= s.next && r.ws[h].output in Ids(e.live) && r.ws[h] == Donor(r.ws[h].output, e))
  {
    var s1 := Migrate(s, e, s.next);
    MigrateFrame(s, e, s.next);
    if h in s.ws { MigrateRecord(s, e, s.next, h); }
    SortedElements(Ids(e.live));
    ReplenishRecords(s1, e, LiveIds(e.live), |LiveIds(e.live)|, h);
  }

  lemma RecomputedPositions(s: State, e: Env, o: int)
    ensures Positions(Recomputed(s, e), o) == Positions(Refilled(s, e), o)
  {
  }

  /** Every live output ends with a workspace and shows one, and while any output is live no workspace sits
      anywhere else, the fallback included. */
  lemma LiveOutputsServed(s: State, e: Env)
    requires Inv(s)
    ensures var r := Recomputed(s, e);
            && (forall id :: id in Ids(e.live) ==> Positions(r, id) != [] && id in r.shown)
            && (forall h :: h in r.ws ==> r.ws[h].output in (if e.live != [] then Elements(Ids(e.live)) else {e.fallback}))
  {
    var r := Recomputed(s, e);
    RecomputedInv(s, e);
    forall id | id in Ids(e.live) ensures Positions(r, id) != [] && id in r.shown {
      SortedElements(Ids(e.live));
      assert id in LiveIds(e.live);
      var i :| 0 <= i < |LiveIds(e.live)| && LiveIds(e.live)[i] == id;
      ReplenishFills(Migrate(s, e, s.next), e, LiveIds(e.live), |LiveIds(e.live)|, i);
      RecomputedPositions(s, e, id);
      assert id in r.positions;
    }
    forall h | h in r.ws ensures r.ws[h].output in (if e.live != [] then Elements(Ids(e.live)) else {e.fallback}) {
      RecomputedRecord(s, e, h);
      if h in s.ws { RehomedFacts(s.ws[h], e); }
    }
  }

  /** Outputs that are neither live nor the fallback show nothing. */
  lemma NotShownElsewhere(s: State, e: Env, o: int)
    requires Inv(s) && o !in Ids(e.live) && o != e.fallback
    ensures o !in Recomputed(s, e).shown
  {
    RecomputedInv(s, e);
    LiveOutputsServed(s, e);
    if o in Recomputed(s, e).shown { Showing(Recomputed(s, e), o); }
  }

  // ----- A second call -----

  lemma {:induction false} MigrateIdle(s: State, e: Env, k: nat)
    requires forall h :: h in s.ws ==> Rehomed(s.ws[h], e) == s.ws[h]
    ensures Migrate(s, e, k) == s && Moves(s, e, k) == []
  {
    if k > 0 {
      MigrateIdle(s, e, k - 1);
      if k - 1 in s.ws { assert s.ws[k - 1 := s.ws[k - 1]] == s.ws; }
    }
  }

  lemma {:induction false} DiffsIdle(s: State, order: seq<int>, n: nat)
    requires n <= |order|
    ensures Diffs(s, s, order, n) == []
  {
    if n > 0 { DiffsIdle(s, order, n - 1); }
  }

  lemma NothingToRestore(r: State, e: Env)
    requires Inv(r)
    ensures Pruned(r.positions) == r.positions && Restored(r, e) == r.shown
  {
    forall o | o in r.positions ensures o in Pruned(r.positions) {
      assert r.positions[o] != [];
    }
    forall o | o in r.shown ensures o in r.positions { Showing(r, o); }
  }

  lemma SettledFixpoint(r: State, e: Env, order: seq<int>)
    requires Inv(r)
    requires forall h :: h in r.ws ==> Rehomed(r.ws[h], e) == r.ws[h]
    requires forall id :: id in Ids(e.live) ==> Positions(r, id) != []
    ensures Recompute(r, e, order) == Done(r, [])
  {
    MigrateIdle(r, e, r.next);
    SortedElements(Ids(e.live));
    ReplenishIdle(r, e, LiveIds(e.live), |LiveIds(e.live)|);
    NothingToRestore(r, e);
    DiffsIdle(r, order, |order|);
  }

  lemma RecomputedAtHome(s: State, e: Env, h: Handle)
    requires Inv(s) && ValidLive(e.live) && DistinctNames(e.live) && h in Recomputed(s, e).ws
    ensures var w := Recomputed(s, e).ws[h]; Rehomed(w, e) == w
  {
    RecomputedRecord(s, e, h);
    if h in s.ws {
      RehomedTwice(s.ws[h], e);
    } else {
      DistinctNamesUnaliased(e.live, Recomputed(s, e).ws[h].output);
    }
  }

  lemma DistinctNamesSettle(s: State, e: Env, order: seq<int>)
    requires Inv(s) && ValidLive(e.live) && DistinctNames(e.live)
    ensures Recompute(Recomputed(s, e), e, order) == Done(Recomputed(s, e), [])
  {
    var r := Recomputed(s, e);
    RecomputedInv(s, e);
    LiveOutputsServed(s, e);
    forall h | h in r.ws ensures Rehomed(r.ws[h], e) == r.ws[h] {
      RecomputedAtHome(s, e, h);
    }
    SettledFixpoint(r, e, order);
  }

  /** An output shadowed by a later namesake is never anyone's resolved home. */
  lemma {:induction false} ShadowedNeverResolves(p: seq<string>, live: LiveOutputs, i: nat, j: nat)
    requires ValidLive(live) && i < j < |live| && live[i].name == live[j].name
    ensures Resolve(p, live) != Some(live[i].id)
  {
    if p != [] {
      var m := LastNamed(live, p[0]);
      if m >= 0 {
        assert Ids(live)[m] == live[m].id && Ids(live)[i] == live[i].id;
      }
      ShadowedNeverResolves(p[1..], live, i, j);
    }
  }

  /** After a recompute every workspace names some live output. */
  lemma RecomputedResolves(s: State, e: Env, h: Handle)
    requires Inv(s) && ValidLive(e.live) && e.live != [] && h in Recomputed(s, e).ws
    ensures Resolve(Recomputed(s, e).ws[h].preferred, e.live).Some?
  {
    RecomputedRecord(s, e, h);
    var r := Recomputed(s, e);
    if h !in s.ws || Resolve(s.ws[h].preferred, e.live).None? {
      var id := if h in s.ws then Lowest(e.live) else r.ws[h].output;
      var name := NameOf(e.live, id);
      assert name in r.ws[h].preferred;
      NamedResolves(r.ws[h].preferred, name, e.live);
    }
  }

  /** A second migration leaves nothing on a shadowed output. */
  lemma ShadowedDrained(s: State, e: Env, i: nat, j: nat)
    requires Inv(s) && ValidLive(e.live) && i < j < |e.live| && e.live[i].name == e.live[j].name
    ensures var r := Recomputed(s, e); Positions(Migrate(r, e, r.next), e.live[i].id) == []
  {
    var r, id := Recomputed(s, e), e.live[i].id;
    RecomputedInv(s, e);
    var s1 := Migrate(r, e, r.next);
    MigrateInv(r, e, r.next);
    if Positions(s1, id) != [] {
      var h := Positions(s1, id)[0];
      assert h in At(s1.positions, id);
      MigrateRecord(r, e, r.next, h);
      RecomputedResolves(s, e, h);
      ShadowedNeverResolves(r.ws[h].preferred, e.live, i, j);
    }
  }

  lemma AliasesChurn(s: State, e: Env, order: seq<int>, i: nat, j: nat)
    requires Inv(s) && ValidLive(e.live) && i < j < |e.live| && e.live[i].name == e.live[j].name
    ensures var r := Recomputed(s, e);
            && Positions(Migrate(r, e, r.next), e.live[i].id) == []
            && Positions(Recomputed(r, e), e.live[i].id) != []
            && Recompute(r, e, order).state.next > r.next
            && Recompute(r, e, order).effects != []
  {
    ShadowedDrained(s, e, i, j);
    var r, id, ids := Recomputed(s, e), e.live[i].id, LiveIds(e.live);
    SortedElements(Ids(e.live));
    assert Ids(e.live)[i] == id;
    assert id in ids;
    var k :| 0 <= k < |ids| && ids[k] == id;
    ReplenishDrained(Migrate(r, e, r.next), e, ids, |ids|, k);
    ReplenishReports(Migrate(r, e, r.next), e, ids, |ids|);
    MigrateFrame(r, e, r.next);
    RecomputedInv(s, e);
    LiveOutputsServed(r, e);
  }

  /** One call settles the registry: the next call with the same outputs changes nothing and reports nothing.
      That is so exactly when the live outputs carry distinct durable names; two outputs sharing one make every
      further call mint another workspace. */
  lemma SettlesIffNamesDistinct(s: State, e: Env, order: seq<int>)
    requires Inv(s) && ValidLive(e.live)
    ensures Recompute(Recomputed(s, e), e, order) == Done(Recomputed(s, e), []) <==> DistinctNames(e.live)
    ensures !DistinctNames(e.live) ==> Recompute(Recomputed(s, e), e, order).state.next > Recomputed(s, e).next
  {
    if DistinctNames(e.live) {
      DistinctNamesSettle(s, e, order);
    } else {
      var i, j :| 0 <= i < j < |e.live| && e.live[i].name == e.live[j].name;
      AliasesChurn(s, e, order, i, j);
    }
  }
}
