/** What the registry's methods need to know about the transition functions. */
module RegistrySteps {
  import opened Seqs
  import opened Index
  import opened Registry
  import opened Hotplug
  import opened Mirror
  import opened Settling
  import opened Runs

  lemma {:induction false} NamedStays(s: State, name: string, k: nat, n: nat)
    requires k < n && FindNamed(s, name, k) == None && k in s.ws && s.ws[k].name == Some(name)
    ensures FindNamed(s, name, n) == Some(k)
  {
    if n > k + 1 { NamedStays(s, name, k, n - 1); }
  }

  lemma LogKeeps(log: seq<Effect>, s: State, op: Op, r: State, effects: seq<Effect>)
    requires Inv(s) && Mirrors(Replay(BLANK, log), s) && Possible(s, op)
    requires r == Transition(s, op).state && effects == Transition(s, op).effects
    ensures Inv(r) && Mirrors(Replay(BLANK, log + effects), r)
  {
    TransitionInv(s, op);
    TransitionMirrors(Replay(BLANK, log), s, op);
    ReplayConcat(BLANK, log, effects);
  }

  lemma Ensured(s: State, o: int, seed: string)
    requires Inv(s)
    ensures var e := EnsureOutput(s, o, seed).state; o in e.positions && o in e.shown
  {
    EnsureOutputInv(s, o, seed);
    Showing(EnsureOutput(s, o, seed).state, o);
  }

  /** One more of a list that shares nothing with the list it joins. */
  lemma NextMember(list: seq<int>, members: seq<int>, k: nat, owner: map<int, Handle>, t: Handle)
    requires k < |members| && Distinct(members) && forall x :: x in members ==> x !in list
    ensures members[k] !in list + members[..k]
    ensures list + members[..k] + [members[k]] == list + members[..k + 1]
    ensures BagMoves(members[..k], t) + [SetStateBag(members[k], t)] == BagMoves(members[..k + 1], t)
    ensures (owner + Sent(members[..k], t))[members[k] := t] == owner + Sent(members[..k + 1], t)
  {
  }

  // ----- Destroying -----

  /** What `destroy` relies on. */
  ghost predicate Removable(s: State, h: Handle) {
    && h in s.ws && s.ws[h].output in s.positions && s.ws[h].output in s.shown
    && h in s.positions[s.ws[h].output] && Distinct(s.positions[s.ws[h].output]) && Distinct(s.ws[h].members)
    && s.next !in s.ws && s.next !in s.positions[s.ws[h].output]
    && (forall k :: k in s.positions[s.ws[h].output] ==> k in s.ws)
    && (forall k, x :: k in s.ws && k != h && x in s.ws[h].members ==> x !in s.ws[k].members)
  }

  ghost predicate Mergeable(s: State, h: Handle, t: Handle) {
    && h in s.ws && t in s.ws && h != t && s.ws[h].output in s.positions && s.ws[h].output in s.shown
    && forall x :: x in s.ws[h].members ==> x !in s.ws[t].members
  }

  lemma InvRemovable(s: State, h: Handle)
    requires Inv(s) && h in s.ws
    ensures Removable(s, h)
  {
    Listed(s, h);
    assert At(MemberLists(s.ws), h) == s.ws[h].members;
    forall k, x | k in s.ws && k != h && x in s.ws[h].members ensures x !in s.ws[k].members {
      Member(s, h, x);
      if x in s.ws[k].members { Member(s, k, x); }
    }
    forall k | k in s.positions[s.ws[h].output] ensures k in s.ws && k != s.next { OnOutput(s, s.ws[h].output, k); }
  }

  function Shifted(s: State, h: Handle): seq<Renumber>
    requires OnList(s, h)
  {
    var p := s.positions[s.ws[h].output];
    if |p| == 1 then [] else Changes(p, h)
  }

  lemma RelocationMerges(s: State, h: Handle, seed: string)
    requires Removable(s, h)
    ensures var (s1, t) := Relocation(s, h, seed); Mergeable(s1, h, t) && s1.ws[h] == s.ws[h]
  {
    var p := s.positions[s.ws[h].output];
    var pos0 := IndexOf(p, h);
    var rest := RemoveAt(p, pos0);
    RemoveFacts(p, h);
    if |p| > 1 {
      var t := if pos0 < |rest| then rest[pos0] else rest[|rest| - 1];
      assert t in Remove(p, h);
    }
  }

  /** The workspace is off its list, and a replacement made if it was alone there. */
  ghost predicate Unlisted(s: State, h: Handle, seed: string, t: Handle, r: State)
    requires OnList(s, h)
  {
    var o, p := s.ws[h].output, s.positions[s.ws[h].output];
    r == s.(ws := if |p| == 1 then (s.ws - {h})[t := Blank(o, seed)] else s.ws - {h},
            positions := s.positions[o := if |p| == 1 then [t] else RemoveAt(p, IndexOf(p, h))],
            next := if |p| == 1 then s.next + 1 else s.next)
  }

  lemma TargetReady(s: State, h: Handle, seed: string, r: State)
    requires Removable(s, h) && Unlisted(s, h, seed, Relocation(s, h, seed).1, r)
    ensures var t := Relocation(s, h, seed).1;
            t in r.ws && forall x :: x in s.ws[h].members ==> x !in r.ws[t].members
  {
    RelocationMerges(s, h, seed);
  }

  /** The plugin removes first and then makes a replacement; the other order gives the same state. */
  lemma RetiredIs(s: State, h: Handle, seed: string, u: State, r: State)
    requires Removable(s, h) && Unlisted(s, h, seed, Relocation(s, h, seed).1, u)
    requires var t, o := Relocation(s, h, seed).1, s.ws[h].output;
             && t in u.ws
             && r == u.(ws := u.ws[t := u.ws[t].(members := u.ws[t].members + s.ws[h].members)],
                        owner := u.owner + Sent(s.ws[h].members, t),
                        shown := if s.shown[o] == h then s.shown[o := t] else s.shown)
    ensures var (s1, t) := Relocation(s, h, seed); Mergeable(s1, h, t) && r == Retired(s1, h, t)
  {
    RelocationMerges(s, h, seed);
    var (s1, t) := Relocation(s, h, seed);
    UnlistedRecords(s, h, seed, u);
    UnlistedLists(s, h, seed, u);
    assert r.ws == Retired(s1, h, t).ws;
  }

  lemma UnlistedRecords(s: State, h: Handle, seed: string, u: State)
    requires Removable(s, h) && Unlisted(s, h, seed, Relocation(s, h, seed).1, u)
    ensures u.ws == Relocation(s, h, seed).0.ws - {h}
  {
  }

  lemma UnlistedLists(s: State, h: Handle, seed: string, u: State)
    requires Removable(s, h) && Unlisted(s, h, seed, Relocation(s, h, seed).1, u)
    ensures var s1, o := Relocation(s, h, seed).0, s.ws[h].output;
            o in s1.positions && u.positions == s1.positions[o := Remove(s1.positions[o], h)]
  {
    var (s1, t) := Relocation(s, h, seed);
    var o, p := s.ws[h].output, s.positions[s.ws[h].output];
    if |p| == 1 {
      assert p == [h];
      assert s1.positions[o] == [h, t];
      assert Remove([h, t], h) == [t];
    }
  }

  lemma DemolishIs(s: State, h: Handle, seed: string)
    requires Inv(s) && h in s.ws
    ensures Removable(s, h)
    ensures var (s1, t) := Relocation(s, h, seed);
            && Mergeable(s1, h, t)
            && DestroyHandle(s, h, seed)
               == (DestroyInto(Announced(s, s.ws[h].output, s.positions[s.ws[h].output]), s1, h, t,
                               IndexOf(s.positions[s.ws[h].output], h) + 1, Shifted(s, h)),
                   Shifted(s, h))
  {
    InvRemovable(s, h);
    RelocationMerges(s, h, seed);
    var created, s1, t, formerIndex, changes := DestroyIs(s, h, seed);
  }

  /** The events of a retirement, put together. */
  lemma Assembled(s1: State, h: Handle, t: Handle, index: int, changes: seq<Renumber>, r: State,
                  moves: seq<Effect>, news: seq<Effect>)
    requires Mergeable(s1, h, t) && r == Retired(s1, h, t) && s1.ws[h].output in r.shown
    requires var w, o := s1.ws[h], s1.ws[h].output;
             && moves == BagMoves(w.members, t)
             && news == [Destroyed(h, index, o)] + (if changes != [] then [Renumbered(o, changes)] else [])
                        + (if s1.shown[o] == h then [Push(r, o), RequestFocusDecision]
                           else PushIf(r, o, w.members != [] && r.shown[o] == t))
    ensures moves + news == RetireEffects(s1, h, t, index, changes)
  {
  }

  // ----- Windows -----

  lemma AlreadyFirst(list: seq<string>, name: string)
    requires IndexOf(list, name) == 0
    ensures Promoted(list, name) == list
  {
  }

  /** The order of the record updates does not matter. */
  lemma RehousedWs(s: State, x: int, from: Handle, t: Handle, outputName: string, ws: map<Handle, Workspace>)
    requires from in s.ws && t in s.ws && from != t
    requires var l, m := Remove(s.ws[from].members, x), s.ws[t].members + [x];
             var p := if s.ws[t].output != s.ws[from].output && outputName != ""
                      then Promoted(s.ws[t].preferred, outputName) else s.ws[t].preferred;
             && ws.Keys == s.ws.Keys
             && ws[from] == s.ws[from].(members := l) && ws[t] == s.ws[t].(members := m, preferred := p)
             && forall k :: k in ws && k != from && k != t ==> ws[k] == s.ws[k]
    ensures ws == Rehoused(s, x, from, t, outputName).ws
  {
  }

  lemma NotMember(s: State, x: int, h: Handle)
    requires Inv(s) && h in s.ws && (x !in s.owner || s.owner[x] != h)
    ensures x !in s.ws[h].members
  {
    if x in s.ws[h].members { Member(s, h, x); }
  }

  lemma Movable(s: State, x: int, t: Handle)
    requires Inv(s) && x in s.owner && t in s.ws && s.owner[x] != t
    ensures var from := s.owner[x];
            && from in s.ws && x !in s.ws[t].members && s.ws[from].output in s.shown && s.ws[t].output in s.shown
            && from in Positions(s, s.ws[from].output)
  {
    Owner(s, x);
    Listed(s, s.owner[x]);
    Listed(s, t);
    NotMember(s, x, t);
  }

  lemma Mappable(s: State, x: int, o: int, outputName: string)
    requires Inv(s) && x !in s.owner
    ensures var e := EnsureOutput(s, o, outputName).state;
            && o in e.shown && e.shown[o] in e.ws && e.ws[e.shown[o]].output == o
            && x !in e.ws[e.shown[o]].members && e.owner == s.owner
  {
    EnsureOutputInv(s, o, outputName);
    var e := EnsureOutput(s, o, outputName).state;
    Showing(e, o);
    NotMember(e, x, e.shown[o]);
  }

  lemma FrontIsMove(m: seq<int>, i: nat)
    requires i < |m|
    ensures Reordered(m, i, 0) == [m[i]] + RemoveAt(m, i)
  {
  }

  /** Swapping neighbours is moving the first one place on. */
  lemma SwapIsMove(m: seq<int>, i: nat)
    requires i + 1 < |m|
    ensures var r := m[i := m[i + 1]][i + 1 := m[i]]; r == Reordered(m, i, i + 1) && r == Reordered(m, i + 1, i)
  {
  }

  lemma MappableAt(s: State, x: int, h: Handle)
    requires Inv(s) && h in s.ws && x !in s.owner
    ensures x !in s.ws[h].members && s.ws[h].output in s.shown
  {
    Listed(s, h);
    NotMember(s, x, h);
  }

  /** The list really changes. */
  predicate Moved(s: State, x: int, how: ReorderOp)
    requires Arrangeable(s, x)
  {
    var m := s.ws[s.owner[x]].members;
    !Staying(s, x, how) && Reordered(m, Places(s, x, how).0, Places(s, x, how).1) != m
  }

  lemma MovedDiffers(m: seq<int>, i: nat, j: nat)
    requires Distinct(m) && i < |m| && j < |m| && i != j
    ensures Reordered(m, i, j) != m
  {
    assert Reordered(m, i, j)[j] == m[i] && m[j] != m[i];
  }

  lemma Rearranging(s: State, x: int, how: ReorderOp)
    requires Inv(s) && x in s.owner
    ensures Arrangeable(s, x) && (Moved(s, x, how) || Staying(s, x, how)) && Reorder(s, x, how) == Shuffled(s, x, how)
  {
    Owner(s, x);
    var h := s.owner[x];
    Listed(s, h);
    assert Distinct(At(MemberLists(s.ws), h));
    if !Staying(s, x, how) { MovedDiffers(s.ws[h].members, Places(s, x, how).0, Places(s, x, how).1); }
  }

  // ----- Hotplug -----

  lemma NonEmpty(s: set<int>)
    ensures s != {} ==> exists o :: o in s
  {
    if forall o :: o !in s { assert s == {}; }
  }

  lemma RestoredIs(s: State, e: Env, shown: map<int, Handle>)
    requires forall o :: o in shown ==> o in s.positions && s.positions[o] != []
    requires forall o :: o in s.positions ==>
      if s.positions[o] == [] then o !in shown
      else o in shown && shown[o] == if o in s.shown then s.shown[o] else Choice(s, e, o)
    ensures shown == Restored(s, e)
  {
    var r := Restored(s, e);
    forall o ensures o in shown <==> o in r { }
    forall o | o in shown ensures shown[o] == r[o] { }
  }

  lemma PrunedIs(before: map<int, seq<Handle>>, after: map<int, seq<Handle>>)
    requires forall o :: o in after ==> o in before && after[o] == before[o]
    requires forall o :: o in before ==> (o in after <==> before[o] != [])
    ensures after == Pruned(before)
  {
    var r := Pruned(before);
    forall o ensures o in after <==> o in r { }
    forall o | o in after ensures after[o] == r[o] { }
  }

  /** After migration and replenishment, an output that still shows something has a list. */
  ghost predicate ShownHasList(s: State) {
    forall o :: o in s.shown ==> Positions(s, o) != []
  }

  lemma RefilledShown(s: State, e: Env)
    requires Inv(s)
    ensures ShownHasList(Refilled(s, e))
  {
    RefilledInv(s, e);
  }

  /** Empty lists answer every lookup as absent ones do. */
  lemma DiffPruned(s: State, u: State, p: State, o: int)
    requires p == u.(positions := Pruned(u.positions))
    ensures Diff(s, u, o) == Diff(s, p, o)
  {
    assert Positions(u, o) == Positions(p, o);
  }

  lemma {:induction false} DiffsPruned(s: State, u: State, p: State, order: seq<int>, n: nat)
    requires n <= |order| && p == u.(positions := Pruned(u.positions))
    ensures Diffs(s, u, order, n) == Diffs(s, p, order, n)
  {
    if n > 0 {
      DiffsPruned(s, u, p, order, n - 1);
      DiffPruned(s, u, p, order[n - 1]);
    }
  }

  lemma AnyShownPruned(s: State, u: State, p: State, order: seq<int>)
    requires u.shown == p.shown
    ensures AnyShownChanged(s, u, order) == AnyShownChanged(s, p, order)
  {
    assert forall i :: 0 <= i < |order| ==> ShownAt(u, order[i]) == ShownAt(p, order[i]);
  }
}
