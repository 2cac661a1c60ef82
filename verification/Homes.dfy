/** Where a recompute puts the workspaces, whom it creates and what it shows, said of the live outputs themselves. */
module Homes {
  import opened Seqs
  import opened Index
  import opened Registry
  import opened Hotplug
  import opened Settling
  import opened MirrorHotplug

  // ----- Each workspace's home -----

  lemma {:induction false} ResolvesAt(p: seq<string>, live: LiveOutputs, i: nat, j: nat)
    requires i < |p| && j < |live| && live[j].name == p[i]
    requires forall k, m :: 0 <= k < i && 0 <= m < |live| ==> live[m].name != p[k]
    requires forall m :: j < m < |live| ==> live[m].name != p[i]
    ensures Resolve(p, live) == Some(live[j].id)
    decreases i
  {
    if i > 0 {
      ResolvesAt(p[1..], live, i - 1, j);
    }
  }

  /** The first remembered name that is live decides; of outputs that share it, the last. */
  lemma MostPreferredIsHome(s: State, e: Env, h: Handle, i: nat, j: nat)
    requires Inv(s) && h in s.ws && i < |s.ws[h].preferred| && j < |e.live|
    requires e.live[j].name == s.ws[h].preferred[i]
    requires forall k, m :: 0 <= k < i && 0 <= m < |e.live| ==> e.live[m].name != s.ws[h].preferred[k]
    requires forall m :: j < m < |e.live| ==> e.live[m].name != s.ws[h].preferred[i]
    ensures h in Recomputed(s, e).ws && Recomputed(s, e).ws[h] == s.ws[h].(output := e.live[j].id)
  {
    ResolvesAt(s.ws[h].preferred, e.live, i, j);
    RecomputedRecord(s, e, h);
  }

  lemma {:induction false} ResolvesNowhere(p: seq<string>, live: LiveOutputs)
    requires forall k, m :: 0 <= k < |p| && 0 <= m < |live| ==> live[m].name != p[k]
    ensures Resolve(p, live).None?
  {
    if p != [] { ResolvesNowhere(p[1..], live); }
  }

  lemma LowestIs(live: LiveOutputs) returns (j: nat)
    requires live != []
    ensures j < |live| && live[j].id == Lowest(live) && live[j].name == NameOf(live, Lowest(live))
    ensures forall m :: 0 <= m < |live| ==> live[j].id <= live[m].id
  {
    var ids := Ids(live);
    SortedAscending(ids);
    SortedElements(ids);
    j := IndexOf(ids, Lowest(live));
    forall m | 0 <= m < |live| ensures live[j].id <= live[m].id {
      assert ids[m] in Sorted(ids);
    }
  }

  /** With none of its names live a workspace goes to the lowest live output, and remembers that one last. */
  lemma EvacuatesToLowest(s: State, e: Env, h: Handle)
    requires Inv(s) && h in s.ws && e.live != []
    requires forall k, m :: 0 <= k < |s.ws[h].preferred| && 0 <= m < |e.live| ==> e.live[m].name != s.ws[h].preferred[k]
    ensures h in Recomputed(s, e).ws
    ensures exists j :: 0 <= j < |e.live| && (forall m :: 0 <= m < |e.live| ==> e.live[j].id <= e.live[m].id)
                        && Recomputed(s, e).ws[h]
                           == s.ws[h].(output := e.live[j].id, preferred := s.ws[h].preferred + [e.live[j].name])
  {
    ResolvesNowhere(s.ws[h].preferred, e.live);
    RecomputedRecord(s, e, h);
    var j := LowestIs(e.live);
    assert e.live[j].name !in s.ws[h].preferred;
  }

  /** With no output live at all it is parked on the fallback, whose name, if it has one, it remembers once. */
  lemma ParksOnFallback(s: State, e: Env, h: Handle)
    requires Inv(s) && h in s.ws && e.live == []
    ensures var w, name := s.ws[h], e.fallbackName;
            h in Recomputed(s, e).ws
            && Recomputed(s, e).ws[h]
               == w.(output := e.fallback,
                     preferred := if name == "" || name in w.preferred then w.preferred else w.preferred + [name])
  {
    NothingResolves(s.ws[h].preferred);
    RecomputedRecord(s, e, h);
  }

  // ----- Newcomers -----

  /** A created workspace is blank, alone on a live output, and remembers that output's name. */
  lemma NewcomerIs(s: State, e: Env, h: Handle)
    requires Inv(s) && ValidLive(e.live) && h !in s.ws && h in Recomputed(s, e).ws
    ensures var r := Recomputed(s, e);
            exists j :: 0 <= j < |e.live| && Positions(r, e.live[j].id) == [h]
                        && r.ws[h] == Workspace(e.live[j].id, None, [e.live[j].name], [], false, false)
  {
    RecomputedRecord(s, e, h);
    var r := Recomputed(s, e);
    var j := IndexOf(Ids(e.live), r.ws[h].output);
    IdAt(e.live, j);
    RecomputedInv(s, e);
    Listed(r, h);
    NewcomerAlone(s, e, r.ws[h].output, h);
  }

  lemma NewcomerAlone(s: State, e: Env, o: int, h: Handle)
    requires Inv(s) && h !in s.ws && h in Positions(Recomputed(s, e), o)
    ensures Positions(Recomputed(s, e), o) == [h]
  {
    var s1, ids := Migrate(s, e, s.next), LiveIds(e.live);
    RecomputedPositions(s, e, o);
    OldOnesListed(s, e, o);
    if Positions(s1, o) != [] {
      ReplenishOthers(s1, e, ids, |ids|, o);
      assert false;
    }
    AtMostOne(s1, e, ids, |ids|, o);
  }

  lemma OldOnesListed(s: State, e: Env, o: int)
    requires Inv(s)
    ensures forall h :: h in Positions(Migrate(s, e, s.next), o) ==> h in s.ws
  {
    var s1 := Migrate(s, e, s.next);
    MigrateInv(s, e, s.next);
    forall h | h in Positions(s1, o) ensures h in s.ws { assert h in At(s1.positions, o) && h in Outputs(s1.ws); }
  }

  lemma {:induction false} AtMostOne(s: State, e: Env, ids: seq<int>, n: nat, o: int)
    requires n <= |ids| && Positions(s, o) == []
    ensures |Positions(Replenish(s, e, ids, n), o)| <= 1
  {
    if n > 0 {
      AtMostOne(s, e, ids, n - 1, o);
      ReplenishOneAt(Replenish(s, e, ids, n - 1), e, ids[n - 1], o);
    }
  }

  /** Newcomers get their handles in the order of their outputs. */
  lemma {:induction false} NewcomersOrdered(s: State, e: Env, ids: seq<int>, n: nat, h: Handle, k: Handle)
    requires n <= |ids| && Ascending(ids) && Bounded(s)
    requires var r := Replenish(s, e, ids, n); h in r.ws && k in r.ws && s.next <= h < k
    ensures var r := Replenish(s, e, ids, n); r.ws[h].output <= r.ws[k].output
  {
    if n > 0 {
      var p := Replenish(s, e, ids, n - 1);
      ReplenishFrame(s, e, ids, n - 1);
      ReplenishBounded(s, e, ids, n - 1);
      if k in p.ws && k != p.next {
        NewcomersOrdered(s, e, ids, n - 1, h, k);
      } else {
        ReplenishRecords(s, e, ids, n - 1, h);
        NewcomerBefore(s, e, ids, n - 1, h);
      }
    }
  }

  /** No handle is ahead of the counter. */
  ghost predicate Bounded(s: State) { forall j :: j in s.ws ==> j < s.next }

  lemma {:induction false} ReplenishBounded(s: State, e: Env, ids: seq<int>, n: nat)
    requires n <= |ids| && Bounded(s)
    ensures Bounded(Replenish(s, e, ids, n))
  {
    if n > 0 {
      ReplenishBounded(s, e, ids, n - 1);
      OneBounded(Replenish(s, e, ids, n - 1), e, ids[n - 1]);
    }
  }

  lemma OneBounded(s: State, e: Env, id: int)
    requires Bounded(s)
    ensures Bounded(ReplenishOne(s, e, id))
  {
  }

  lemma {:induction false} NewcomerBefore(s: State, e: Env, ids: seq<int>, n: nat, h: Handle)
    requires n < |ids| && Ascending(ids) && Bounded(s)
    requires h in Replenish(s, e, ids, n).ws && h >= s.next
    ensures Replenish(s, e, ids, n).ws[h].output <= ids[n]
  {
    if n > 0 {
      ReplenishBounded(s, e, ids, n - 1);
      if h in Replenish(s, e, ids, n - 1).ws { NewcomerBefore(s, e, ids, n - 1, h); }
    }
  }

  lemma NewcomersAscend(s: State, e: Env, h: Handle, k: Handle)
    requires Inv(s) && ValidLive(e.live) && h !in s.ws && k !in s.ws && h < k
    requires h in Recomputed(s, e).ws && k in Recomputed(s, e).ws
    ensures Recomputed(s, e).ws[h].output < Recomputed(s, e).ws[k].output
  {
    NewcomersNoHigher(s, e, h, k);
    NewcomerIs(s, e, h);
    NewcomerIs(s, e, k);
  }

  lemma NewcomersNoHigher(s: State, e: Env, h: Handle, k: Handle)
    requires Inv(s) && h !in s.ws && k !in s.ws && h < k
    requires h in Recomputed(s, e).ws && k in Recomputed(s, e).ws
    ensures Recomputed(s, e).ws[h].output <= Recomputed(s, e).ws[k].output
  {
    SortedAscending(Ids(e.live));
    MigrateFrame(s, e, s.next);
    RecomputedRecord(s, e, h);
    NewcomersOrdered(Migrate(s, e, s.next), e, LiveIds(e.live), |LiveIds(e.live)|, h, k);
  }

  // ----- What is shown -----

  /** An output keeps what it showed while that stays; else it shows what is remembered for its name, if that is
      here; else its first workspace. */
  lemma RecomputeShows(s: State, e: Env, o: int, name: string)
    requires Inv(s) && ValidLive(e.live) && Positions(Recomputed(s, e), o) != []
    requires if o == e.fallback then name == e.fallbackName
             else exists j :: 0 <= j < |e.live| && e.live[j] == Output(o, name)
    ensures var r := Recomputed(s, e);
            && o in r.shown && r.memory == s.memory
            && r.shown[o] == if o in s.shown && s.shown[o] in r.ws && r.ws[s.shown[o]].output == o then s.shown[o]
                             else if name != "" && name in s.memory && s.memory[name] in Positions(r, o) then s.memory[name]
                             else Positions(r, o)[0]
  {
    var s1, ids, r := Migrate(s, e, s.next), LiveIds(e.live), Recomputed(s, e);
    RecomputedFrame(s, e);
    RecomputedPositions(s, e, o);
    MigrateFrame(s, e, s.next);
    ReplenishFrame(s1, e, ids, |ids|);
    if o in s.shown { Showing(s, o); RecomputedRecord(s, e, s.shown[o]); }
    MigrateShown(s, e, s.next, o);
    if o != e.fallback {
      var j :| 0 <= j < |e.live| && e.live[j] == Output(o, name);
      IdAt(e.live, j);
    }
  }

  // ----- The order on each output -----

  /** The home each workspace gets. */
  ghost predicate NewHomes(s: State, e: Env, home: map<Handle, int>) {
    home.Keys == s.ws.Keys && forall h :: h in home ==> home[h] == Rehomed(s.ws[h], e).output
  }

  function Stays(home: map<Handle, int>, k: nat, o: int): Handle -> bool {
    (h: Handle) => h >= k || h !in home || home[h] == o
  }

  /** The workspaces below `k` that come to the output, in creation order. */
  function Arrivals(was: map<Handle, int>, home: map<Handle, int>, k: nat, o: int): seq<Handle> {
    if k == 0 then []
    else
      var h := k - 1;
      Arrivals(was, home, h, o)
      + if h in was && h in home && was[h] != o && home[h] == o then [h] else []
  }

  ghost predicate CreationOrder(l: seq<Handle>) { forall i, j :: 0 <= i < j < |l| ==> l[i] < l[j] }

  lemma OneMoreInOrder(l: seq<Handle>, h: Handle)
    requires CreationOrder(l) && forall k :: k in l ==> k < h
    ensures CreationOrder(l + [h]) && forall k :: k in l + [h] ==> k < h + 1
  {
    forall i, j | 0 <= i < j < |l + [h]| ensures (l + [h])[i] < (l + [h])[j] { assert l[i] in l; }
  }

  lemma {:induction false} ArrivalsAscend(was: map<Handle, int>, home: map<Handle, int>, k: nat, o: int)
    ensures CreationOrder(Arrivals(was, home, k, o)) && forall h :: h in Arrivals(was, home, k, o) ==> h < k
  {
    if k > 0 {
      ArrivalsAscend(was, home, k - 1, o);
      OneMoreInOrder(Arrivals(was, home, k - 1, o), k - 1);
      assert Arrivals(was, home, k - 1, o) + [] == Arrivals(was, home, k - 1, o);
    }
  }

  lemma {:induction false} FilterAgree<T(!new)>(l: seq<T>, p: T -> bool, q: T -> bool)
    requires forall x :: x in l ==> p(x) == q(x)
    ensures Filter(l, p) == Filter(l, q)
  {
    if l != [] {
      assert l == Seqs.Init(l) + [Last(l)];
      FilterAgree(Seqs.Init(l), p, q);
    }
  }

  lemma FilterLess(l: seq<Handle>, p: Handle -> bool, q: Handle -> bool, h: Handle)
    requires Distinct(l) && h in l && p(h) && forall x :: x in l ==> q(x) == (p(x) && x != h)
    ensures h in Filter(l, p) && Remove(Filter(l, p), h) == Filter(l, q)
  {
    FilterDistinct(l, p);
    RemoveFilters(Filter(l, p), q, h);
    FilterFilter(l, p, q);
  }

  lemma RemoveFilters(l: seq<Handle>, q: Handle -> bool, h: Handle)
    requires Distinct(l) && h in l && !q(h) && forall x :: x in l && x != h ==> q(x)
    ensures Remove(l, h) == Filter(l, q)
  {
    FilterDrops(l, IndexOf(l, h), q);
  }

  /** After the first `k` workspaces: those that stay, and then those that came. */
  ghost predicate InOrder(s: State, p: State, home: map<Handle, int>, k: nat, o: int) {
    Positions(p, o) == Filter(Positions(s, o), Stays(home, k, o)) + Arrivals(Outputs(s.ws), home, k, o)
  }

  lemma MigrateOneAt(s: State, h: Handle, e: Env, from: int, to: int, o: int)
    requires h in s.ws && from == s.ws[h].output && to == Rehomed(s.ws[h], e).output
    ensures Positions(MigrateOne(s, h, e), o)
            == if from == to || (o != from && o != to) then Positions(s, o)
               else if o == from then Remove(Positions(s, o), h) else Positions(s, o) + [h]
  {
  }

  lemma LeavesInOrder(s: State, home: map<Handle, int>, h: Handle, o: int)
    requires Inv(s) && h in s.ws && h in home && s.ws[h].output == o && home[h] != o
    ensures var l, f := Positions(s, o), Filter(Positions(s, o), Stays(home, h, o));
            h in f && Remove(f, h) == Filter(l, Stays(home, h + 1, o))
  {
    Listed(s, h);
    assert Distinct(Positions(s, o));
    FilterLess(Positions(s, o), Stays(home, h, o), Stays(home, h + 1, o), h);
  }

  lemma RestInOrder(s: State, home: map<Handle, int>, h: Handle, o: int)
    requires Inv(s) && h in s.ws && h in home && (s.ws[h].output == o ==> home[h] == o)
    ensures Filter(Positions(s, o), Stays(home, h + 1, o)) == Filter(Positions(s, o), Stays(home, h, o))
  {
    if h in Positions(s, o) { OnOutput(s, o, h); }
    FilterAgree(Positions(s, o), Stays(home, h, o), Stays(home, h + 1, o));
  }

  lemma ArrivalsNext(was: map<Handle, int>, home: map<Handle, int>, h: Handle, o: int)
    requires h in was && h in home
    ensures var a, a' := Arrivals(was, home, h, o), Arrivals(was, home, h + 1, o);
            a' == if was[h] != o && home[h] == o then a + [h] else a
  {
  }

  lemma OneInOrder(s: State, p: State, r: State, home: map<Handle, int>, h: Handle, o: int)
    requires Inv(s) && InOrder(s, p, home, h, o) && h in s.ws && h in home
    requires var from, to, l := s.ws[h].output, home[h], Positions(p, o);
             Positions(r, o) == if from == to || (o != from && o != to) then l else if o == from then Remove(l, h) else l + [h]
    ensures InOrder(s, r, home, h + 1, o)
  {
    ArrivalsNext(Outputs(s.ws), home, h, o);
    if s.ws[h].output == o && home[h] != o {
      LeavesInOrder(s, home, h, o);
      RemoveFromFront(Filter(Positions(s, o), Stays(home, h, o)), Arrivals(Outputs(s.ws), home, h, o), h);
    } else {
      RestInOrder(s, home, h, o);
    }
  }

  lemma NoneInOrder(s: State, p: State, home: map<Handle, int>, h: Handle, o: int)
    requires InOrder(s, p, home, h, o) && h !in home
    ensures InOrder(s, p, home, h + 1, o)
  {
    FilterAgree(Positions(s, o), Stays(home, h, o), Stays(home, h + 1, o));
  }

  lemma {:induction false} MigratedOrder(s: State, e: Env, home: map<Handle, int>, k: nat, o: int)
    requires Inv(s) && NewHomes(s, e, home)
    ensures InOrder(s, Migrate(s, e, k), home, k, o)
  {
    if k == 0 {
      FilterAll(Positions(s, o), Stays(home, 0, o));
    } else {
      var h, p := k - 1, Migrate(s, e, k - 1);
      MigratedOrder(s, e, home, h, o);
      if h !in s.ws {
        NoneInOrder(s, p, home, h, o);
      } else {
        MigrateRecord(s, e, h, h);
        MigrateOneAt(p, h, e, s.ws[h].output, home[h], o);
        OneInOrder(s, p, MigrateOne(p, h, e), home, h, o);
      }
    }
  }

  function HomesOf(s: State, e: Env): map<Handle, int> { map h | h in s.ws :: Rehomed(s.ws[h], e).output }

  lemma HomesAreRight(s: State, e: Env)
    requires Inv(s)
    ensures var home, r := HomesOf(s, e), Recomputed(s, e);
            forall h :: h in s.ws ==> h < s.next && h in r.ws && r.ws[h].output == home[h]
  {
    var r := Recomputed(s, e);
    forall h | h in s.ws ensures h in r.ws && r.ws[h].output == HomesOf(s, e)[h] { HomeOf(s, e, r, h); }
  }

  lemma HomeOf(s: State, e: Env, r: State, h: Handle)
    requires Inv(s) && r == Recomputed(s, e) && h in s.ws
    ensures h in r.ws && r.ws[h].output == Rehomed(s.ws[h], e).output
  {
    RecomputedRecord(s, e, h);
  }

  /** On every output the workspaces that stay keep their order, and those that come follow in creation order. */
  lemma StayersThenArrivals(s: State, e: Env, o: int, stays: Handle -> bool)
    requires Inv(s) && forall h :: h in s.ws ==> stays(h) == (h in Recomputed(s, e).ws && Recomputed(s, e).ws[h].output == o)
    ensures var stayers, l := Filter(Positions(s, o), stays), Positions(Recomputed(s, e), o);
            stayers <= l && CreationOrder(l[|stayers|..])
  {
    var home := HomesOf(s, e);
    HomesAreRight(s, e);
    MigratedOrder(s, e, home, s.next, o);
    ArrivalsAscend(Outputs(s.ws), home, s.next, o);
    StayersAre(s, home, o, stays);
    RefilledOrder(s, e, o);
  }

  lemma StayersAre(s: State, home: map<Handle, int>, o: int, stays: Handle -> bool)
    requires Inv(s) && home.Keys == s.ws.Keys && forall h :: h in s.ws ==> h < s.next && (stays(h) <==> home[h] == o)
    ensures Filter(Positions(s, o), stays) == Filter(Positions(s, o), Stays(home, s.next, o))
  {
    forall h | h in Positions(s, o) ensures stays(h) == Stays(home, s.next, o)(h) { OnOutput(s, o, h); }
    FilterAgree(Positions(s, o), stays, Stays(home, s.next, o));
  }

  lemma RefilledOrder(s: State, e: Env, o: int)
    ensures var l, l' := Positions(Migrate(s, e, s.next), o), Positions(Recomputed(s, e), o);
            if l != [] then l' == l else |l'| <= 1
  {
    var s1, ids := Migrate(s, e, s.next), LiveIds(e.live);
    RecomputedPositions(s, e, o);
    if Positions(s1, o) != [] { ReplenishOthers(s1, e, ids, |ids|, o); } else { AtMostOne(s1, e, ids, |ids|, o); }
  }
}
