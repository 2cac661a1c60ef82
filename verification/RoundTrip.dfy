/** Hotplug round trips: what unplugging and replugging outputs leaves as it was. */
module RoundTrip {
  import opened Seqs
  import opened Index
  import opened Registry
  import opened Hotplug
  import opened Settling

  /** A run of recomputes, one per change of the live outputs. */
  function Recomputes(s: State, es: seq<Env>): State {
    if es == [] then s else Recomputed(Recomputes(s, es[..|es| - 1]), es[|es| - 1])
  }

  lemma {:induction false} RecomputesInv(s: State, es: seq<Env>)
    requires Inv(s)
    ensures Inv(Recomputes(s, es))
  {
    if es != [] {
      RecomputesInv(s, es[..|es| - 1]);
      RecomputedInv(Recomputes(s, es[..|es| - 1]), es[|es| - 1]);
    }
  }

  /** However the outputs churn, a workspace survives with its windows, and its preferences only grow at the end. */
  lemma {:induction false} ChurnExtends(s: State, es: seq<Env>, h: Handle)
    requires Inv(s) && h in s.ws
    ensures var r := Recomputes(s, es);
            h in r.ws && s.ws[h].preferred <= r.ws[h].preferred && r.ws[h].members == s.ws[h].members
  {
    if es != [] {
      var p, e := Recomputes(s, es[..|es| - 1]), es[|es| - 1];
      ChurnExtends(s, es[..|es| - 1], h);
      RecomputesInv(s, es[..|es| - 1]);
      RecomputedRecord(p, e, h);
      RehomedFacts(p.ws[h], e);
    }
  }

  /** A settled workspace resolves to the output it is on. */
  lemma SettledResolves(w: Workspace, e: Env)
    requires ValidLive(e.live) && e.live != [] && Rehomed(w, e) == w
    ensures Resolve(w.preferred, e.live) == Some(w.output)
  {
    if Resolve(w.preferred, e.live).None? {
      var name := NameOf(e.live, Lowest(e.live));
      assert name in w.preferred;
      NamedResolves(w.preferred, name, e.live);
    }
  }

  /** The same durable names are connected, in whatever order and under whatever ids. */
  ghost predicate SameNames(live: LiveOutputs, back: LiveOutputs) {
    forall n :: ByName(live, n).Some? <==> ByName(back, n).Some?
  }

  /** Of the names once connected, those still are that `back` connects. */
  ghost predicate FewerNames(live: LiveOutputs, back: LiveOutputs) {
    forall n :: ByName(back, n).Some? ==> ByName(live, n).Some?
  }

  /** While its monitor is connected, a workspace resolves to it, whatever others are away. */
  lemma {:induction false} HomeResolves(p: seq<string>, home: int, live: LiveOutputs, back: LiveOutputs)
    requires ValidLive(live) && FewerNames(live, back)
    requires Resolve(p, live) == Some(home) && ByName(back, NameOf(live, home)).Some?
    ensures Resolve(p, back) == ByName(back, NameOf(live, home))
  {
    if ByName(live, p[0]).None? {
      HomeResolves(p[1..], home, live, back);
    } else {
      IdAt(live, LastNamed(live, p[0]));
    }
  }

  lemma SameNamesEmpty(live: LiveOutputs, back: LiveOutputs)
    requires SameNames(live, back)
    ensures live == [] <==> back == []
  {
    if live != [] { assert ByName(live, live[|live| - 1].name).Some?; }
    if back != [] { assert ByName(back, back[|back| - 1].name).Some?; }
  }

  /** Whatever outputs came and went in between: once the monitors of a settled state are connected again, in any
      order and under any ids, each of its workspaces is back with its windows on the monitor it was on. */
  lemma HotplugRoundTrip(s0: State, e: Env, churn: seq<Env>, e2: Env, h: Handle)
    requires Inv(s0) && ValidLive(e.live) && DistinctNames(e.live) && SameNames(e.live, e2.live)
    requires h in Recomputed(s0, e).ws
    ensures var s := Recomputed(s0, e);
            var r := Recomputed(Recomputes(s, churn), e2);
            && h in r.ws && r.ws[h].members == s.ws[h].members
            && if e.live == [] then r.ws[h].output == e2.fallback
               else s.ws[h].output in Ids(e.live)
                    && ByName(e2.live, NameOf(e.live, s.ws[h].output)) == Some(r.ws[h].output)
  {
    var s := Recomputed(s0, e);
    RecomputedInv(s0, e);
    RecomputedAtHome(s0, e, h);
    var p := Recomputes(s, churn);
    RecomputesInv(s, churn);
    ChurnExtends(s, churn, h);
    RecomputedRecord(p, e2, h);
    RehomedFacts(p.ws[h], e2);
    SameNamesEmpty(e.live, e2.live);
    if e.live != [] {
      SettledResolves(s.ws[h], e);
      ResolveLive(s.ws[h].preferred, e.live);
      var i := IndexOf(Ids(e.live), s.ws[h].output);
      assert Ids(e.live)[i] == e.live[i].id && ByName(e.live, e.live[i].name).Some?;
      HomeResolves(s.ws[h].preferred, s.ws[h].output, e.live, e2.live);
    }
    RehomedSame(s.ws[h], p.ws[h], e2);
  }

  /** In particular, where the same outputs keep their ids, whatever order they returned in, each workspace is
      back on the output it was on. */
  lemma SameOutputsRoundTrip(s0: State, e: Env, churn: seq<Env>, e2: Env, h: Handle)
    requires Inv(s0) && ValidLive(e.live) && DistinctNames(e.live) && e2.fallback == e.fallback
    requires DistinctNames(e2.live) && forall x :: x in e.live <==> x in e2.live
    requires h in Recomputed(s0, e).ws
    ensures var s := Recomputed(s0, e);
            var r := Recomputed(Recomputes(s, churn), e2);
            h in r.ws && r.ws[h].output == s.ws[h].output && r.ws[h].members == s.ws[h].members
  {
    var s := Recomputed(s0, e);
    SameOutputsSameNames(e.live, e2.live);
    HotplugRoundTrip(s0, e, churn, e2, h);
    RecomputedInv(s0, e);
    RecomputedAtHome(s0, e, h);
    NothingResolves(s.ws[h].preferred);
    if e.live != [] {
      var i := IndexOf(Ids(e.live), s.ws[h].output);
      assert e.live[i] in e2.live;
      var j :| 0 <= j < |e2.live| && e2.live[j] == e.live[i];
      NameAt(e2.live, j);
    }
  }

  lemma SameOutputsSameNames(live: LiveOutputs, back: LiveOutputs)
    requires DistinctNames(live) && DistinctNames(back) && forall x :: x in live <==> x in back
    ensures SameNames(live, back)
  {
    forall n ensures ByName(live, n).Some? <==> ByName(back, n).Some? {
      var i, j := LastNamed(live, n), LastNamed(back, n);
      if i >= 0 { assert live[i] in back; }
      if j >= 0 { assert back[j] in live; }
    }
  }

  // ----- Outputs leave and come back -----

  /** One output leaves, after its focus was recorded; or one is connected, whatever id it is given. */
  datatype Plugging = Unplug(k: nat) | Plug(id: int, name: string)

  function Without(live: LiveOutputs, k: nat): LiveOutputs
    requires k < |live|
  {
    live[..k] + live[k + 1..]
  }

  /** A re-added map key goes last. */
  function LiveStep(live: LiveOutputs, p: Plugging): LiveOutputs {
    match p
    case Unplug(k) => if k < |live| then Without(live, k) else live
    case Plug(id, name) => live + [Output(id, name)]
  }

  /** Pre-remove and removed, or added. */
  function PlugStep(t: State, e: Env, live: LiveOutputs, p: Plugging): State {
    var t1 := if p.Unplug? && p.k < |live| then PreRemove(t, live[p.k].id, live[p.k].name).state else t;
    Recomputed(t1, e.(live := LiveStep(live, p)))
  }

  function LiveAfter(e: Env, ps: seq<Plugging>): LiveOutputs {
    if ps == [] then e.live else LiveStep(LiveAfter(e, Seqs.Init(ps)), Last(ps))
  }

  function Plugged(s: State, e: Env, ps: seq<Plugging>): State {
    if ps == [] then s else PlugStep(Plugged(s, e, Seqs.Init(ps)), e, LiveAfter(e, Seqs.Init(ps)), Last(ps))
  }

  /** A named output leaves; or one that was there at first returns, under a free id. */
  ghost predicate Pluggable(e: Env, live: LiveOutputs, p: Plugging) {
    match p
    case Unplug(k) => k < |live| && live[k].name != ""
    case Plug(id, name) =>
      id !in Ids(live) && id != e.fallback && ByName(live, name).None? && ByName(e.live, name).Some?
  }

  ghost predicate AllPluggable(e: Env, ps: seq<Plugging>) {
    ps != [] ==> AllPluggable(e, Seqs.Init(ps)) && Pluggable(e, LiveAfter(e, Seqs.Init(ps)), Last(ps))
  }

  lemma NameAt(live: LiveOutputs, j: nat)
    requires DistinctNames(live) && j < |live|
    ensures ByName(live, live[j].name) == Some(live[j].id)
  {
  }

  lemma NameWithout(live: LiveOutputs, k: nat, name: string)
    requires k < |live| && DistinctNames(live)
    ensures ByName(Without(live, k), name) == if name == live[k].name then None else ByName(live, name)
  {
    var gone, j := Without(live, k), LastNamed(live, name);
    if j >= 0 && name != live[k].name {
      assert gone[if j < k then j else j - 1] == live[j];
      NameAt(gone, if j < k then j else j - 1);
    }
  }

  lemma NameWith(live: LiveOutputs, x: Output, name: string)
    ensures ByName(live + [x], name) == if name == x.name then Some(x.id) else ByName(live, name)
  {
    assert (live + [x])[..|live + [x]| - 1] == live;
  }

  lemma WithoutFacts(live: LiveOutputs, k: nat)
    requires k < |live| && ValidLive(live)
    ensures ValidLive(Without(live, k))
    ensures live[k].id in Ids(live) && forall id :: id in Ids(Without(live, k)) <==> id in Ids(live) && id != live[k].id
  {
    var ids := Ids(live);
    assert ids[k] == live[k].id;
    IndexOfDistinct(ids, k);
    assert Ids(Without(live, k)) == Remove(ids, live[k].id);
    RemoveFacts(ids, live[k].id);
  }

  lemma WithFacts(live: LiveOutputs, x: Output)
    requires ValidLive(live) && x.id !in Ids(live)
    ensures ValidLive(live + [x]) && forall id :: id in Ids(live + [x]) <==> id in Ids(live) || id == x.id
  {
    assert Ids(live + [x]) == Ids(live) + [x.id];
    DistinctAppend(Ids(live), x.id);
  }

  /** The live outputs are some of those that were there at first, perhaps under other ids. */
  ghost predicate Among(e: Env, live: LiveOutputs) {
    ValidLive(live) && DistinctNames(live) && e.fallback !in Ids(live) && FewerNames(e.live, live)
  }

  lemma AmongNext(e: Env, live: LiveOutputs, p: Plugging)
    requires Among(e, live) && Pluggable(e, live, p)
    ensures Among(e, LiveStep(live, p))
  {
    var next := LiveStep(live, p);
    if p.Unplug? {
      WithoutFacts(live, p.k);
      forall n | ByName(next, n).Some? ensures ByName(e.live, n).Some? { NameWithout(live, p.k, n); }
    } else {
      var x := Output(p.id, p.name);
      WithFacts(live, x);
      forall n | ByName(next, n).Some? ensures ByName(e.live, n).Some? { NameWith(live, x, n); }
    }
  }

  // ----- What a recompute leaves alone -----

  /** If someone still lives on each live output, no workspace is created. */
  lemma NoneCreated(s: State, e: Env)
    requires Inv(s)
    requires forall id :: id in Ids(e.live) ==> exists h :: h in s.ws && Rehomed(s.ws[h], e).output == id
    ensures Refilled(s, e) == Migrate(s, e, s.next)
    ensures Recomputed(s, e).next == s.next && Recomputed(s, e).ws.Keys == s.ws.Keys
  {
    var s1, ids := Migrate(s, e, s.next), LiveIds(e.live);
    MigrateInv(s, e, s.next);
    MigrateFrame(s, e, s.next);
    SortedElements(Ids(e.live));
    forall id | id in ids ensures Positions(s1, id) != [] {
      var h :| h in s.ws && Rehomed(s.ws[h], e).output == id;
      MigrateRecord(s, e, s.next, h);
      assert h in Outputs(s1.ws);
    }
    ReplenishIdle(s1, e, ids, |ids|);
  }

  /** An output whose shown workspace stays keeps showing it. */
  lemma KeepsShowing(s: State, e: Env, o: int)
    requires Inv(s) && o in s.shown && s.shown[o] in s.ws && Rehomed(s.ws[s.shown[o]], e).output == o
    ensures ShownAt(Recomputed(s, e), o) == Some(s.shown[o])
  {
    var h, s1 := s.shown[o], Migrate(s, e, s.next);
    Showing(s, o);
    MigrateShown(s, e, s.next, o);
    var ids := LiveIds(e.live);
    ReplenishFrame(s1, e, ids, |ids|);
    RefilledInv(s, e);
    var s2 := Refilled(s, e);
    assert s2.shown[o] in At(s2.positions, o);
  }

  /** An output that shows nothing restores the workspace its memory names, once that lives there. */
  lemma RestoresRemembered(s: State, e: Env, o: int, h: Handle)
    requires Inv(s) && o !in s.shown && o != e.fallback && o in Ids(e.live)
    requires var name := NameOf(e.live, o); name != "" && name in s.memory && s.memory[name] == h
    requires h in s.ws && Rehomed(s.ws[h], e).output == o
    ensures ShownAt(Recomputed(s, e), o) == Some(h)
  {
    var s1, ids := Migrate(s, e, s.next), LiveIds(e.live);
    MigrateShown(s, e, s.next, o);
    MigrateFrame(s, e, s.next);
    ReplenishFrame(s1, e, ids, |ids|);
    RefilledAt(s, e, h);
  }

  /** After the migration a workspace is listed at its derived home. */
  lemma RefilledAt(s: State, e: Env, h: Handle)
    requires Inv(s) && h in s.ws
    ensures h in Positions(Refilled(s, e), Rehomed(s.ws[h], e).output)
  {
    var s1, ids := Migrate(s, e, s.next), LiveIds(e.live);
    RefilledInv(s, e);
    MigrateFrame(s, e, s.next);
    MigrateRecord(s, e, s.next, h);
    ReplenishRecords(s1, e, ids, |ids|, h);
    assert h in Outputs(Refilled(s, e).ws);
  }

  // ----- The unplug-and-replug theorem -----

  /** `s` is settled under `e`, its outputs have distinct durable names and the fallback is not among them. */
  ghost predicate AtRest(s: State, e: Env) {
    && Inv(s) && ValidLive(e.live) && DistinctNames(e.live) && e.fallback !in Ids(e.live)
    && (forall h :: h in s.ws ==> Rehomed(s.ws[h], e) == s.ws[h])
    && (forall o :: o in Ids(e.live) ==> Positions(s, o) != [])
  }

  /** A recompute settles. */
  lemma RecomputedRests(s: State, e: Env)
    requires Inv(s) && ValidLive(e.live) && DistinctNames(e.live) && e.fallback !in Ids(e.live)
    ensures AtRest(Recomputed(s, e), e)
  {
    RecomputedInv(s, e);
    LiveOutputsServed(s, e);
    forall h | h in Recomputed(s, e).ws ensures Rehomed(Recomputed(s, e).ws[h], e) == Recomputed(s, e).ws[h] {
      RecomputedAtHome(s, e, h);
    }
  }

  /** Nobody came or went, and the preferences only grew at the end. */
  ghost predicate Carried(s: State, t: State) {
    && Inv(t) && t.next == s.next && t.ws.Keys == s.ws.Keys && t.owner == s.owner
    && forall h :: h in s.ws ==> s.ws[h].preferred <= t.ws[h].preferred && t.ws[h].members == s.ws[h].members
  }

  /** What the output showed at first, it shows while it is live, and is remembered for it while it is not. */
  ghost predicate Kept(s: State, e: Env, live: LiveOutputs, t: State, j: nat)
    requires j < |e.live|
  {
    var x := e.live[j];
    && x.id in s.shown
    && match ByName(live, x.name)
       case Some(id) => ShownAt(t, id) == Some(s.shown[x.id])
       case None => Remembered(s, e, t, j)
  }

  ghost predicate Remembered(s: State, e: Env, t: State, j: nat)
    requires j < |e.live|
  {
    var x := e.live[j];
    x.id in s.shown && x.name != "" && x.name in t.memory && t.memory[x.name] == s.shown[x.id]
  }

  ghost predicate Hosted(s: State, e: Env, live: LiveOutputs, t: State) {
    && Carried(s, t)
    && (forall o :: o in t.shown ==> o in Ids(live) || o == e.fallback)
    && forall j :: 0 <= j < |e.live| ==> Kept(s, e, live, t, j)
  }

  /** The next recompute will leave or restore what the output showed. */
  ghost predicate Keeping(s: State, e: Env, live: LiveOutputs, t: State, j: nat)
    requires j < |e.live|
  {
    var x := e.live[j];
    && x.id in s.shown
    && match ByName(live, x.name)
       case Some(id) => ShownAt(t, id) == Some(s.shown[x.id]) || (id !in t.shown && Remembered(s, e, t, j))
       case None => Remembered(s, e, t, j)
  }

  /** A settled output shows a workspace of its own. */
  lemma ShownAtRest(s: State, e: Env, j: nat)
    requires AtRest(s, e) && j < |e.live|
    ensures var o := e.live[j].id;
            && o in Ids(e.live) && NameOf(e.live, o) == e.live[j].name
            && o in s.shown && s.shown[o] in s.ws && s.ws[s.shown[o]].output == o
  {
    IdAt(e.live, j);
    OnOutput(s, e.live[j].id, Positions(s, e.live[j].id)[0]);
    Showing(s, e.live[j].id);
  }

  /** Where a recompute puts a workspace whose first output is live. */
  lemma HomeAmong(s: State, e: Env, live: LiveOutputs, t: State, h: Handle)
    requires AtRest(s, e) && e.live != [] && FewerNames(e.live, live) && Carried(s, t) && h in s.ws
    requires ByName(live, NameOf(e.live, s.ws[h].output)).Some?
    ensures Some(Rehomed(t.ws[h], e.(live := live)).output) == ByName(live, NameOf(e.live, s.ws[h].output))
  {
    SettledResolves(s.ws[h], e);
    HomeResolves(s.ws[h].preferred, s.ws[h].output, e.live, live);
    RehomedSame(s.ws[h], t.ws[h], e.(live := live));
  }

  /** The shown workspace of an output is rehomed to it. */
  lemma ShownComesHome(s: State, e: Env, live: LiveOutputs, t: State, j: nat)
    requires AtRest(s, e) && FewerNames(e.live, live) && Carried(s, t) && j < |e.live|
    requires ByName(live, e.live[j].name).Some?
    ensures var o := e.live[j].id;
            && o in s.shown && s.shown[o] in t.ws
            && Some(Rehomed(t.ws[s.shown[o]], e.(live := live)).output) == ByName(live, e.live[j].name)
  {
    ShownAtRest(s, e, j);
    HomeAmong(s, e, live, t, s.shown[e.live[j].id]);
  }

  lemma CarriedOn(s: State, e: Env, live: LiveOutputs, t: State)
    requires AtRest(s, e) && Among(e, live) && Carried(s, t)
    ensures Carried(s, Recomputed(t, e.(live := live)))
  {
    var e2 := e.(live := live);
    forall o | o in Ids(live) ensures exists h :: h in t.ws && Rehomed(t.ws[h], e2).output == o {
      var i := IndexOf(Ids(live), o);
      NameAt(live, i);
      var j := LastNamed(e.live, live[i].name);
      ShownComesHome(s, e, live, t, j);
    }
    NoneCreated(t, e2);
    RecomputedInv(t, e2);
    RecomputedFrame(t, e2);
    forall h | h in s.ws
      ensures var r := Recomputed(t, e2); s.ws[h].preferred <= r.ws[h].preferred && r.ws[h].members == s.ws[h].members
    {
      RecomputedRecord(t, e2, h);
      RehomedFacts(t.ws[h], e2);
    }
  }

  lemma KeptOn(s: State, e: Env, live: LiveOutputs, t: State, j: nat)
    requires AtRest(s, e) && Among(e, live) && Carried(s, t) && j < |e.live| && Keeping(s, e, live, t, j)
    ensures Kept(s, e, live, Recomputed(t, e.(live := live)), j)
  {
    var e2, name := e.(live := live), e.live[j].name;
    RecomputedFrame(t, e2);
    if ByName(live, name).Some? {
      var i := LastNamed(live, name);
      IdAt(live, i);
      ShownComesHome(s, e, live, t, j);
      if live[i].id in t.shown {
        KeepsShowing(t, e2, live[i].id);
      } else {
        RestoresRemembered(t, e2, live[i].id, s.shown[e.live[j].id]);
      }
    }
  }

  lemma HostsOn(s: State, e: Env, live: LiveOutputs, t: State)
    requires AtRest(s, e) && Among(e, live) && Carried(s, t)
    requires forall j :: 0 <= j < |e.live| ==> Keeping(s, e, live, t, j)
    ensures Hosted(s, e, live, Recomputed(t, e.(live := live)))
  {
    var e2 := e.(live := live);
    CarriedOn(s, e, live, t);
    forall j | 0 <= j < |e.live| ensures Kept(s, e, live, Recomputed(t, e2), j) { KeptOn(s, e, live, t, j); }
    forall o | o in Recomputed(t, e2).shown ensures o in Ids(live) || o == e.fallback {
      if o !in Ids(live) && o != e.fallback { NotShownElsewhere(t, e2, o); }
    }
  }

  /** An output leaves: what it shows is recorded, and the others keep theirs. */
  lemma UnplugKeeps(s: State, e: Env, live: LiveOutputs, t: State, k: nat, j: nat)
    requires Among(e, live) && Hosted(s, e, live, t) && k < |live| && live[k].name != "" && j < |e.live|
    ensures Keeping(s, e, Without(live, k), PreRemove(t, live[k].id, live[k].name).state, j)
  {
    assert Kept(s, e, live, t, j);
    NameWithout(live, k, e.live[j].name);
    NameAt(live, k);
  }

  /** An output returns: it shows nothing yet. */
  lemma PlugKeeps(s: State, e: Env, live: LiveOutputs, t: State, x: Output, j: nat)
    requires Hosted(s, e, live, t) && x.id !in Ids(live) && x.id != e.fallback && ByName(live, x.name).None? && j < |e.live|
    ensures Keeping(s, e, live + [x], t, j)
  {
    assert Kept(s, e, live, t, j);
    NameWith(live, x, e.live[j].name);
  }

  lemma StepHosts(s: State, e: Env, live: LiveOutputs, t: State, p: Plugging)
    requires AtRest(s, e) && Among(e, live) && Hosted(s, e, live, t) && Pluggable(e, live, p)
    ensures Hosted(s, e, LiveStep(live, p), PlugStep(t, e, live, p))
  {
    var next := LiveStep(live, p);
    AmongNext(e, live, p);
    if p.Unplug? {
      var t1 := PreRemove(t, live[p.k].id, live[p.k].name).state;
      PreRemoveInv(t, live[p.k].id, live[p.k].name);
      forall j | 0 <= j < |e.live| ensures Keeping(s, e, next, t1, j) { UnplugKeeps(s, e, live, t, p.k, j); }
      HostsOn(s, e, next, t1);
    } else {
      forall j | 0 <= j < |e.live| ensures Keeping(s, e, next, t, j) { PlugKeeps(s, e, live, t, Output(p.id, p.name), j); }
      HostsOn(s, e, next, t);
    }
  }

  lemma HostsItself(s: State, e: Env)
    requires AtRest(s, e)
    ensures Among(e, e.live) && Hosted(s, e, e.live, s)
  {
    forall j | 0 <= j < |e.live| ensures Kept(s, e, e.live, s, j) {
      ShownAtRest(s, e, j);
      NameAt(e.live, j);
    }
    forall o | o in s.shown ensures o in Ids(e.live) || o == e.fallback {
      Showing(s, o);
      RehomedFacts(s.ws[s.shown[o]], e);
    }
  }

  /** Throughout any run of pluggings of a settled state's outputs, each under any free id: no workspace comes or
      goes, and every output shows what it showed at first, or is remembered to. */
  lemma {:induction false} PluggingsHost(s: State, e: Env, ps: seq<Plugging>)
    requires AtRest(s, e) && AllPluggable(e, ps)
    ensures Among(e, LiveAfter(e, ps)) && Hosted(s, e, LiveAfter(e, ps), Plugged(s, e, ps))
  {
    HostsItself(s, e);
    if ps != [] {
      var before, live := Seqs.Init(ps), LiveAfter(e, Seqs.Init(ps));
      PluggingsHost(s, e, before);
      AmongNext(e, live, Last(ps));
      StepHosts(s, e, live, Plugged(s, e, before), Last(ps));
    }
  }

  lemma HomeAfter(s: State, e: Env, ps: seq<Plugging>, h: Handle)
    requires AtRest(s, e) && AllPluggable(e, ps) && h in s.ws
    requires ByName(LiveAfter(e, ps), NameOf(e.live, s.ws[h].output)).Some?
    ensures h in Plugged(s, e, ps).ws
    ensures Some(Plugged(s, e, ps).ws[h].output) == ByName(LiveAfter(e, ps), NameOf(e.live, s.ws[h].output))
  {
    if ps == [] {
      HomeAmong(s, e, e.live, s, h);
    } else {
      var before, live, p := Seqs.Init(ps), LiveAfter(e, Seqs.Init(ps)), Last(ps);
      PluggingsHost(s, e, before);
      AmongNext(e, live, p);
      HomeNext(s, e, live, Plugged(s, e, before), p, h);
    }
  }

  lemma HomeNext(s: State, e: Env, live: LiveOutputs, t: State, p: Plugging, h: Handle)
    requires AtRest(s, e) && Among(e, LiveStep(live, p)) && Hosted(s, e, live, t) && h in s.ws
    requires ByName(LiveStep(live, p), NameOf(e.live, s.ws[h].output)).Some?
    ensures h in PlugStep(t, e, live, p).ws
    ensures Some(PlugStep(t, e, live, p).ws[h].output) == ByName(LiveStep(live, p), NameOf(e.live, s.ws[h].output))
  {
    var next := LiveStep(live, p);
    var t1 := if p.Unplug? && p.k < |live| then PreRemove(t, live[p.k].id, live[p.k].name).state else t;
    if p.Unplug? && p.k < |live| { PreRemoveInv(t, live[p.k].id, live[p.k].name); }
    HomeAmong(s, e, next, t1, h);
    RecomputedRecord(t1, e.(live := next), h);
  }

  /** After any number of unplugs and replugs of any outputs: every workspace whose output is connected is home with
      its windows, none was created, and each connected output shows what it showed. */
  lemma PlugRoundTrip(s: State, e: Env, ps: seq<Plugging>)
    requires AtRest(s, e) && AllPluggable(e, ps)
    ensures var r, live := Plugged(s, e, ps), LiveAfter(e, ps);
            && r.ws.Keys == s.ws.Keys && r.next == s.next && r.owner == s.owner
            && (forall h :: h in s.ws ==> r.ws[h].members == s.ws[h].members)
            && (forall h :: h in s.ws && ByName(live, NameOf(e.live, s.ws[h].output)).Some? ==>
                  Some(r.ws[h].output) == ByName(live, NameOf(e.live, s.ws[h].output)))
            && (forall j :: 0 <= j < |e.live| && ByName(live, e.live[j].name).Some? ==>
                  ShownAt(r, ByName(live, e.live[j].name).value) == ShownAt(s, e.live[j].id))
  {
    var r, live := Plugged(s, e, ps), LiveAfter(e, ps);
    PluggingsHost(s, e, ps);
    forall j | 0 <= j < |e.live| && ByName(live, e.live[j].name).Some?
      ensures ShownAt(r, ByName(live, e.live[j].name).value) == ShownAt(s, e.live[j].id)
    {
      assert Kept(s, e, live, r, j);
    }
    forall h | h in s.ws && ByName(live, NameOf(e.live, s.ws[h].output)).Some?
      ensures Some(r.ws[h].output) == ByName(live, NameOf(e.live, s.ws[h].output))
    {
      HomeAfter(s, e, ps, h);
    }
  }

  /** In particular one output leaves and comes back, possibly under another id. */
  lemma UnplugReplug(s: State, e: Env, k: nat, id: int)
    requires AtRest(s, e) && k < |e.live| && e.live[k].name != "" && id !in Ids(Without(e.live, k)) && id != e.fallback
    ensures var r, x := Plugged(s, e, [Unplug(k), Plug(id, e.live[k].name)]), e.live[k];
            && r.ws.Keys == s.ws.Keys && r.next == s.next && r.owner == s.owner
            && (forall h :: h in s.ws ==> r.ws[h].members == s.ws[h].members)
            && (forall h :: h in s.ws ==> r.ws[h].output == if s.ws[h].output == x.id then id else s.ws[h].output)
            && (forall j :: 0 <= j < |e.live| ==> ShownAt(r, if j == k then id else e.live[j].id) == ShownAt(s, e.live[j].id))
  {
    var ps := OutAndIn(e, k, id);
    PlugRoundTrip(s, e, ps);
    forall j | 0 <= j < |e.live|
      ensures ByName(LiveAfter(e, ps), e.live[j].name) == Some(if j == k then id else e.live[j].id)
    {
      NameBack(e.live, k, id, j);
    }
    forall h | h in s.ws
      ensures Plugged(s, e, ps).ws[h].output == if s.ws[h].output == e.live[k].id then id else s.ws[h].output
    {
      HomeBack(s, e, ps, k, id, h);
    }
  }

  lemma OutAndIn(e: Env, k: nat, id: int) returns (ps: seq<Plugging>)
    requires ValidLive(e.live) && DistinctNames(e.live) && k < |e.live|
    requires e.live[k].name != "" && id !in Ids(Without(e.live, k)) && id != e.fallback
    ensures ps == [Unplug(k), Plug(id, e.live[k].name)] && AllPluggable(e, ps)
    ensures LiveAfter(e, ps) == Without(e.live, k) + [Output(id, e.live[k].name)]
  {
    ps := [Unplug(k), Plug(id, e.live[k].name)];
    assert Seqs.Init(ps) == [Unplug(k)] && Seqs.Init([Unplug(k)]) == [];
    assert LiveAfter(e, Seqs.Init(ps)) == Without(e.live, k);
    NameWithout(e.live, k, e.live[k].name);
    NameAt(e.live, k);
  }

  lemma HomeBack(s: State, e: Env, ps: seq<Plugging>, k: nat, id: int, h: Handle)
    requires AtRest(s, e) && AllPluggable(e, ps) && k < |e.live| && h in s.ws
    requires LiveAfter(e, ps) == Without(e.live, k) + [Output(id, e.live[k].name)]
    ensures h in Plugged(s, e, ps).ws
    ensures Plugged(s, e, ps).ws[h].output == if s.ws[h].output == e.live[k].id then id else s.ws[h].output
  {
    RehomedFacts(s.ws[h], e);
    var j := IndexOf(Ids(e.live), s.ws[h].output);
    IdAt(e.live, k);
    IdAt(e.live, j);
    NameBack(e.live, k, id, j);
    HomeAfter(s, e, ps, h);
  }

  lemma NameBack(live: LiveOutputs, k: nat, id: int, j: nat)
    requires ValidLive(live) && DistinctNames(live) && k < |live| && j < |live|
    ensures ByName(Without(live, k) + [Output(id, live[k].name)], live[j].name) == Some(if j == k then id else live[j].id)
  {
    NameWith(Without(live, k), Output(id, live[k].name), live[j].name);
    NameWithout(live, k, live[j].name);
    NameAt(live, j);
  }
}
