/** `recomputeOutputs`: the hotplug migration of the workspace registry. */
module Hotplug {
  import opened Seqs
  import opened Index
  import opened Registry

  datatype Output = Output(id: int, name: string)

  /** A live-output map in insertion order, as the registry is handed it. */
  type LiveOutputs = seq<Output>

  /** The arguments of one recompute. */
  datatype Env = Env(live: LiveOutputs, fallback: int, fallbackName: string)

  function Ids(live: LiveOutputs): seq<int> {
    seq(|live|, i requires 0 <= i < |live| => live[i].id)
  }

  /** Keys of a map are distinct. */
  ghost predicate ValidLive(live: LiveOutputs) { Distinct(Ids(live)) }

  ghost predicate DistinctNames(live: LiveOutputs) {
    forall i, j :: 0 <= i < j < |live| ==> live[i].name != live[j].name
  }

  function LiveIds(live: LiveOutputs): seq<int> { Sorted(Ids(live)) }

  function NameOf(live: LiveOutputs, id: int): string {
    var i := IndexOf(Ids(live), id);
    if i == -1 then "" else live[i].name
  }

  function LastNamed(live: LiveOutputs, name: string): (i: int)
    ensures -1 <= i < |live|
    ensures i >= 0 ==> live[i].name == name
    ensures forall j :: i < j < |live| ==> live[j].name != name
  {
    if live == [] then -1
    else if live[|live| - 1].name == name then |live| - 1
    else LastNamed(live[..|live| - 1], name)
  }

  /** The name-to-id table: a later output overwrites an earlier one of the same name. */
  function ByName(live: LiveOutputs, name: string): Option<int> {
    var i := LastNamed(live, name);
    if i == -1 then None else Some(live[i].id)
  }

  /** `currentLiveOutput`: the most preferred entry that is connected. */
  function Resolve(preferred: seq<string>, live: LiveOutputs): Option<int> {
    if preferred == [] then None
    else match ByName(live, preferred[0])
      case Some(id) => Some(id)
      case None => Resolve(preferred[1..], live)
  }

  function Remember(preferred: seq<string>, name: string): seq<string> {
    if name in preferred then preferred else preferred + [name]
  }

  function Lowest(live: LiveOutputs): (id: int)
    requires live != []
    ensures id in Ids(live)
  {
    SortedElements(Ids(live));
    LiveIds(live)[0]
  }

  /** Steps 1 and 2: the record with its new home, and with that home remembered if it was forced there. */
  function Rehomed(w: Workspace, e: Env): Workspace {
    match Resolve(w.preferred, e.live)
    case Some(id) => w.(output := id)
    case None =>
      if e.live != [] then
        var id := Lowest(e.live);
        w.(output := id, preferred := Remember(w.preferred, NameOf(e.live, id)))
      else
        w.(output := e.fallback,
           preferred := if e.fallbackName != "" then Remember(w.preferred, e.fallbackName) else w.preferred)
  }

  function MigrateOne(s: State, h: Handle, e: Env): State
    requires h in s.ws
  {
    var w, w' := s.ws[h], Rehomed(s.ws[h], e);
    var s1 := s.(ws := s.ws[h := w']);
    if w'.output == w.output then s1
    else
      s1.(positions := s.positions[w.output := Remove(Positions(s, w.output), h)]
                                  [w'.output := Positions(s, w'.output) + [h]],
          shown := if w.output in s.shown && s.shown[w.output] == h then s.shown - {w.output} else s.shown)
  }

  /** Handles below `k` have been migrated, in creation order. */
  function Migrate(s: State, e: Env, k: nat): (r: State)
    ensures r.ws.Keys == s.ws.Keys
  {
    if k == 0 then s
    else
      var p := Migrate(s, e, k - 1);
      if k - 1 in s.ws then MigrateOne(p, k - 1, e) else p
  }

  /** Step 6: the migrated event of one workspace, if it moved. */
  function MoveOf(s: State, e: Env, h: Handle): seq<Effect> {
    if h in s.ws && Rehomed(s.ws[h], e).output != s.ws[h].output
    then [Migrated(h, s.ws[h].output, Rehomed(s.ws[h], e).output)] else []
  }

  function Moves(s: State, e: Env, k: nat): seq<Effect> {
    if k == 0 then [] else Moves(s, e, k - 1) + MoveOf(s, e, k - 1)
  }

  function Donor(id: int, e: Env): Workspace {
    Workspace(id, None, [NameOf(e.live, id)], [], false, false)
  }

  /** Step 3 for one live output: if it was drained it gets a fresh workspace. */
  function ReplenishOne(s: State, e: Env, id: int): State {
    if Positions(s, id) != [] then s else Enlisted(s, Donor(id, e))
  }

  /** Step 3 over the first `n` of the live outputs `ids`. */
  function Replenish(s: State, e: Env, ids: seq<int>, n: nat): State
    requires n <= |ids|
  {
    if n == 0 then s else ReplenishOne(Replenish(s, e, ids, n - 1), e, ids[n - 1])
  }

  function CreatedOf(s: State, id: int): seq<Effect> {
    if Positions(s, id) != [] then [] else [Created(s.next, 1, id, None)]
  }

  function Replenishments(s: State, e: Env, ids: seq<int>, n: nat): seq<Effect>
    requires n <= |ids|
  {
    if n == 0 then []
    else Replenishments(s, e, ids, n - 1) + CreatedOf(Replenish(s, e, ids, n - 1), ids[n - 1])
  }

  function DurableName(e: Env, o: int): string {
    if o == e.fallback then e.fallbackName
    else if o in Ids(e.live) then NameOf(e.live, o)
    else ""
  }

  /** Step 4: the remembered workspace if it lives here, else the first one. */
  function Choice(s: State, e: Env, o: int): Handle
    requires Positions(s, o) != []
  {
    var name := DurableName(e, o);
    if name != "" && name in s.memory && s.memory[name] in Positions(s, o) then s.memory[name]
    else Positions(s, o)[0]
  }

  function Restored(s: State, e: Env): map<int, Handle> {
    map o | o in s.positions && s.positions[o] != [] :: if o in s.shown then s.shown[o] else Choice(s, e, o)
  }

  /** Step 7. */
  function Pruned(positions: map<int, seq<Handle>>): map<int, seq<Handle>> {
    map o | o in positions && positions[o] != [] :: positions[o]
  }

  function Refilled(s: State, e: Env): State {
    var ids := LiveIds(e.live);
    Replenish(Migrate(s, e, s.next), e, ids, |ids|)
  }

  function Recomputed(s: State, e: Env): State {
    var s2 := Refilled(s, e);
    s2.(shown := Restored(s2, e), positions := Pruned(s2.positions))
  }

  function ShownAt(s: State, o: int): Option<Handle> {
    if o in s.shown then Some(s.shown[o]) else None
  }

  /** Step 5 for one output. */
  function Diff(s: State, s': State, o: int): seq<Effect> {
    var before, after := ShownAt(s, o), ShownAt(s', o);
    if before == after then []
    else
      (if before.Some? then [Hidden(before.value, IndexIn(s', before.value, o), o)] else [])
      + (if after.Some? then [Shown(after.value, IndexIn(s', after.value, o), o)] else [])
      + [Push(s', o)]
  }

  function Diffs(s: State, s': State, order: seq<int>, n: nat): seq<Effect>
    requires n <= |order|
  {
    if n == 0 then [] else Diffs(s, s', order, n - 1) + Diff(s, s', order[n - 1])
  }

  predicate AnyShownChanged(s: State, s': State, order: seq<int>) {
    exists i :: 0 <= i < |order| && ShownAt(s, order[i]) != ShownAt(s', order[i])
  }

  /** The outputs step 5 visits: those with workspaces, the live ones and the fallback, in whatever order
      the position map happens to list them. */
  ghost predicate Visits(order: seq<int>, s: State, e: Env) {
    && Distinct(order)
    && forall o :: o in order <==> o in s.positions || o in Ids(e.live) || o == e.fallback
  }

  function Recompute(s: State, e: Env, order: seq<int>): Outcome {
    var s', ids := Recomputed(s, e), LiveIds(e.live);
    Done(s',
         Replenishments(Migrate(s, e, s.next), e, ids, |ids|)
         + Diffs(s, s', order, |order|)
         + Moves(s, e, s.next)
         + (if AnyShownChanged(s, s', order) then [RequestFocusDecision] else []))
  }

  // ----- Names and preferences -----

  lemma IdAt(live: LiveOutputs, i: nat)
    requires i < |live| && ValidLive(live)
    ensures live[i].id in Ids(live) && NameOf(live, live[i].id) == live[i].name
  {
    assert Ids(live)[i] == live[i].id;
    IndexOfDistinct(Ids(live), i);
  }

  lemma ResolveLive(preferred: seq<string>, live: LiveOutputs)
    ensures var r := Resolve(preferred, live); r.Some? ==> r.value in Ids(live)
  {
    if preferred != [] {
      var i := LastNamed(live, preferred[0]);
      if i >= 0 {
        assert Ids(live)[i] == live[i].id;
      } else {
        ResolveLive(preferred[1..], live);
      }
    }
  }

  /** Remembering more, at lower priority, never changes a resolved home. */
  lemma {:induction false} ResolvePrefix(p: seq<string>, q: seq<string>, live: LiveOutputs)
    ensures Resolve(p + q, live) == if Resolve(p, live).Some? then Resolve(p, live) else Resolve(q, live)
  {
    if p == [] {
      assert p + q == q;
    } else {
      ResolvePrefix(p[1..], q, live);
      assert (p + q)[1..] == p[1..] + q;
    }
  }

  lemma NothingResolves(preferred: seq<string>)
    ensures Resolve(preferred, []).None?
  {
  }

  lemma RehomedFacts(w: Workspace, e: Env)
    ensures var w' := Rehomed(w, e);
            && w.preferred <= w'.preferred && w'.members == w.members
            && w'.output in (if e.live != [] then Elements(Ids(e.live)) else {e.fallback})
  {
    ResolveLive(w.preferred, e.live);
  }

  ghost predicate Unaliased(live: LiveOutputs, id: int)
    requires id in Ids(live)
  {
    ByName(live, NameOf(live, id)) == Some(id)
  }

  lemma DistinctNamesUnaliased(live: LiveOutputs, id: int)
    requires ValidLive(live) && DistinctNames(live) && id in Ids(live)
    ensures Unaliased(live, id)
  {
  }

  /** A home, once derived, is derived again. */
  lemma RehomedTwice(w: Workspace, e: Env)
    requires ValidLive(e.live) && DistinctNames(e.live)
    ensures Rehomed(Rehomed(w, e), e) == Rehomed(w, e)
  {
    NothingResolves(w.preferred);
    NothingResolves(Rehomed(w, e).preferred);
    if Resolve(w.preferred, e.live).None? && e.live != [] {
      var id := Lowest(e.live);
      var name := NameOf(e.live, id);
      DistinctNamesUnaliased(e.live, id);
      ResolvePrefix(w.preferred, [name], e.live);
      if name in w.preferred { NamedResolves(w.preferred, name, e.live); }
    }
  }

  lemma NamedResolves(p: seq<string>, name: string, live: LiveOutputs)
    requires name in p && ByName(live, name).Some?
    ensures Resolve(p, live).Some?
  {
    if p[0] != name { NamedResolves(p[1..], name, live); }
  }

  /** A longer memory gives the same home wherever the shorter one resolved. */
  lemma RehomedSame(w: Workspace, v: Workspace, e: Env)
    requires w.preferred <= v.preferred
    requires Resolve(w.preferred, e.live).Some? || e.live == []
    ensures Rehomed(v, e).output == Rehomed(w, e).output
  {
    NothingResolves(w.preferred);
    NothingResolves(v.preferred);
    ResolvePrefix(w.preferred, v.preferred[|w.preferred|..], e.live);
    assert v.preferred == w.preferred + v.preferred[|w.preferred|..];
  }

  // ----- Migration keeps the weak invariant -----

  lemma MigrateOneInv(s: State, h: Handle, e: Env)
    requires WeakInv(s) && h in s.ws
    ensures WeakInv(MigrateOne(s, h, e))
  {
    var w, w' := s.ws[h], Rehomed(s.ws[h], e);
    RehomedFacts(w, e);
    PutRecord(s.ws, h, w');
    if w'.output != w.output {
      assert h in Outputs(s.ws) && Outputs(s.ws)[h] == w.output;
      Move(s.positions, Outputs(s.ws), h, w'.output);
      MigrateOneShown(s, h, e);
    }
  }

  lemma MigrateOneShown(s: State, h: Handle, e: Env)
    requires WeakInv(s) && h in s.ws && Rehomed(s.ws[h], e).output != s.ws[h].output
    ensures ShownPlaced(MigrateOne(s, h, e).positions, MigrateOne(s, h, e).shown)
  {
    var s1 := MigrateOne(s, h, e);
    var from, to := s.ws[h].output, Rehomed(s.ws[h], e).output;
    RemoveFacts(At(s.positions, from), h);
    forall o | o in s1.shown ensures s1.shown[o] in At(s1.positions, o) {
      assert s.shown[o] in At(s.positions, o);
      if o != from && o != to { assert At(s1.positions, o) == At(s.positions, o); }
    }
  }

  lemma {:induction false} MigrateInv(s: State, e: Env, k: nat)
    requires WeakInv(s)
    ensures WeakInv(Migrate(s, e, k))
  {
    if k > 0 {
      MigrateInv(s, e, k - 1);
      if k - 1 in s.ws { MigrateOneInv(Migrate(s, e, k - 1), k - 1, e); }
    }
  }

  /** Windows, counter and focus memory stay put. */
  lemma {:induction false} MigrateFrame(s: State, e: Env, k: nat)
    ensures var r := Migrate(s, e, k); r.owner == s.owner && r.next == s.next && r.memory == s.memory
  {
    if k > 0 { MigrateFrame(s, e, k - 1); }
  }

  /** Each record is rehomed on its own. */
  lemma {:induction false} MigrateRecord(s: State, e: Env, k: nat, h: Handle)
    requires h in s.ws
    ensures Migrate(s, e, k).ws[h] == if h < k then Rehomed(s.ws[h], e) else s.ws[h]
  {
    if k > 0 { MigrateRecord(s, e, k - 1, h); }
  }

  /** An output stops showing exactly when what it showed moved away. */
  lemma {:induction false} MigrateShown(s: State, e: Env, k: nat, o: int)
    requires o in s.shown ==> s.shown[o] in s.ws && s.ws[s.shown[o]].output == o
    ensures ShownAt(Migrate(s, e, k), o) ==
            if o in s.shown && s.shown[o] < k && Rehomed(s.ws[s.shown[o]], e).output != o
            then None else ShownAt(s, o)
  {
    if k > 0 {
      MigrateShown(s, e, k - 1, o);
      if k - 1 in s.ws { MigrateRecord(s, e, k - 1, k - 1); }
    }
  }
}
