/** How workspaces end: an explicit destroy conserves windows and reports exact renumbering, and evaporation takes
    exactly the dynamic workspaces that were left empty and hidden.
 */
module Lifecycle {
  import opened Seqs
  import opened Index
  import opened Registry
  import opened Settling
  import opened Mirror
  import opened Runs

  // ----- Destroy -----

  /** Who inherits: the right neighbour, else the left one, else a fresh workspace. */
  function Heir(s: State, h: Handle): Handle
    requires h in s.ws
  {
    var p := Positions(s, s.ws[h].output);
    var i := IndexOf(p, h);
    if 0 <= i < |p| - 1 then p[i + 1] else if 0 < i < |p| then p[i - 1] else s.next
  }

  lemma HeirIsTarget(s: State, h: Handle, seed: string)
    requires Inv(s) && h in s.ws
    ensures OnList(s, h) && Relocation(s, h, seed).1 == Heir(s, h)
  {
    Listed(s, h);
    var p := s.positions[s.ws[h].output];
    if |p| > 1 {
      var i := IndexOf(p, h);
      var rest := Remove(p, h);
      assert |rest| == |p| - 1;
      if i < |rest| { assert rest[i] == p[i + 1]; } else { assert rest[|rest| - 1] == p[i - 1]; }
    }
  }

  lemma AppendedKeeps(s: State, w: Workspace)
    requires s.next !in s.ws && w.output in s.shown
    ensures Grown(s, Appended(s, w), s.next, w.members, w.output)
  {
    var s1 := Appended(s, w);
    assert forall p :: p != w.output ==> Positions(s1, p) == Positions(s, p);
  }

  /** `s1` is `s` with, at most, the workspace `t` added to output `o`. */
  ghost predicate Grown(s: State, s1: State, t: Handle, members: seq<int>, o: int) {
    && s1.owner == s.owner && s1.shown == s.shown && s1.ws.Keys == s.ws.Keys + {t} && s1.ws[t].members == members
    && (forall k :: k in s.ws ==> s1.ws[k] == s.ws[k])
    && (forall p :: p != o ==> Positions(s1, p) == Positions(s, p))
  }

  lemma RelocationKeeps(s: State, h: Handle, seed: string, s1: State, t: Handle)
    requires Inv(s) && OnList(s, h) && (s1, t) == Relocation(s, h, seed) && t in s1.ws
    ensures t == Heir(s, h) && Grown(s, s1, t, if t in s.ws then s.ws[t].members else [], s.ws[h].output)
  {
    Listed(s, h);
    HeirIsTarget(s, h, seed);
    if |s.positions[s.ws[h].output]| == 1 {
      AppendedKeeps(s, Blank(s.ws[h].output, seed));
    } else {
      assert s.ws.Keys + {t} == s.ws.Keys;
    }
  }

  /** `r` is `s` with `h` gone, its windows at the tail of `t`, and `t` shown on output `o` if `h` was. */
  ghost predicate Absorbed(s: State, r: State, h: Handle, t: Handle, o: int)
    requires h in s.ws && o in s.shown
  {
    && r.owner.Keys == s.owner.Keys && t in r.ws && h !in r.ws && r.ws.Keys == s.ws.Keys - {h} + {t}
    && r.ws[t].output == o
    && r.ws[t].members == (if t in s.ws then s.ws[t].members else []) + s.ws[h].members
    && (forall k :: k in s.ws && k != h && k != t ==> r.ws[k] == s.ws[k])
    && r.shown == s.shown[o := if s.shown[o] == h then t else s.shown[o]]
    && (forall p :: p != o ==> Positions(r, p) == Positions(s, p))
  }

  lemma RetiredKeeps(s: State, h: Handle, t: Handle)
    requires h in s.ws && t in s.ws && t != h && s.ws[t].output == s.ws[h].output
    requires s.ws[h].output in s.positions && s.ws[h].output in s.shown
    requires forall x :: x in s.ws[h].members ==> x in s.owner
    ensures Absorbed(s, Retired(s, h, t), h, t, s.ws[h].output)
  {
    var r := Retired(s, h, t);
    assert forall x :: x in r.owner <==> x in s.owner;
  }

  lemma GrownAbsorbed(s: State, s1: State, r: State, h: Handle, t: Handle, o: int)
    requires h in s.ws && h in s1.ws && o in s.shown && o in s1.shown && t in s1.ws && t != h
    requires Grown(s, s1, t, if t in s.ws then s.ws[t].members else [], o) && Absorbed(s1, r, h, t, o)
    ensures Absorbed(s, r, h, t, o)
  {
  }

  /** The windows of a destroyed workspace join the tail of its heir, which is shown where it was; every other
      workspace, every other output and the set of tracked windows stay as they were. */
  lemma DestroyConserves(s: State, h: Handle, seed: string)
    requires Inv(s) && h in s.ws
    ensures s.ws[h].output in s.shown
    ensures Absorbed(s, DestroyHandle(s, h, seed).0.state, h, Heir(s, h), s.ws[h].output)
  {
    Listed(s, h);
    var created, s1, t, formerIndex, changes := DestroyIs(s, h, seed);
    RelocationKeeps(s, h, seed, s1, t);
    forall x | x in s1.ws[h].members ensures x in s1.owner { Member(s1, h, x); }
    RetiredKeeps(s1, h, t);
    GrownAbsorbed(s, s1, Retired(s1, h, t), h, t, s.ws[h].output);
  }

  lemma SurvivorIndex(p: seq<Handle>, h: Handle, j: nat)
    requires Distinct(p) && h in p && j < |p| && p[j] != h
    ensures var i, rest := IndexOf(p, h), Remove(p, h);
            IndexOf(p, p[j]) == j && IndexOf(rest, p[j]) == if j < i then j else j - 1
  {
    var i, rest := IndexOf(p, h), Remove(p, h);
    RemoveFacts(p, h);
    IndexOfDistinct(p, j);
    var k := if j < i then j else j - 1;
    assert rest[k] == p[j];
    IndexOfDistinct(rest, k);
  }

  lemma RenumberedSound(p: seq<Handle>, h: Handle, c: Renumber)
    requires Distinct(p) && h in p && c in Changes(p, h)
    ensures c.handle in p && c.handle != h && c.oldIndex == c.newIndex + 1
    ensures c.oldIndex == IndexOf(p, c.handle) + 1 && c.newIndex == IndexOf(Remove(p, h), c.handle) + 1
  {
    var i, rest := IndexOf(p, h), Remove(p, h);
    assert |rest| == |p| - 1;
    var k :| 0 <= k < |rest| - i && Changes(p, h)[k] == c;
    assert c.handle == rest[i + k] == p[i + k + 1];
    assert p[i] == h;
    SurvivorIndex(p, h, i + k + 1);
  }

  /** `renumbered` lists exactly the surviving workspaces whose index changed, with the old and the new index. */
  lemma RenumberedExactly(p: seq<Handle>, h: Handle, c: Renumber)
    requires Distinct(p) && h in p
    ensures c in Changes(p, h) <==>
            && c.handle in p && c.handle != h && c.oldIndex != c.newIndex
            && c.oldIndex == IndexOf(p, c.handle) + 1 && c.newIndex == IndexOf(Remove(p, h), c.handle) + 1
  {
    if c in Changes(p, h) { RenumberedSound(p, h, c); }
    var j, k := IndexOf(p, c.handle), IndexOf(Remove(p, h), c.handle);
    if c.handle in p && c.handle != h && c.oldIndex == j + 1 && c.newIndex == k + 1 && j != k {
      RenumberedComplete(p, h, c);
    }
  }

  lemma RenumberedComplete(p: seq<Handle>, h: Handle, c: Renumber)
    requires Distinct(p) && h in p && c.handle in p && c.handle != h && c.oldIndex != c.newIndex
    requires c.oldIndex == IndexOf(p, c.handle) + 1 && c.newIndex == IndexOf(Remove(p, h), c.handle) + 1
    ensures c in Changes(p, h)
  {
    var i, j := IndexOf(p, h), IndexOf(p, c.handle);
    SurvivorIndex(p, h, j);
    assert Changes(p, h)[j - 1 - i] == c;
  }

  lemma RenumberCases(p: seq<Handle>, q: seq<Handle>, h: Handle, next: Handle, changes: seq<Renumber>, c: Renumber)
    requires Distinct(p) && h in p
    requires q == (if |p| == 1 then [next] else Remove(p, h)) && changes == if |p| == 1 then [] else Changes(p, h)
    ensures c in changes <==>
            && c.handle in p && c.handle != h && c.oldIndex != c.newIndex
            && c.oldIndex == IndexOf(p, c.handle) + 1 && c.newIndex == IndexOf(q, c.handle) + 1 && c.newIndex >= 1
  {
    if |p| > 1 {
      RenumberedExactly(p, h, c);
      RemoveFacts(p, h);
    }
  }

  /** The two lookups are inverse: an index finds the handle that has it. */
  lemma LookupsInverse(s: State, h: Handle, index: int, o: int)
    requires Inv(s)
    ensures FindHandle(s, index, o) == Some(h) <==> FindIndex(s, h, o) == Some(index)
  {
    var p := Positions(s, o);
    assert Distinct(p);
    if FindHandle(s, index, o) == Some(h) { IndexOfDistinct(p, index - 1); }
  }

  /** The same about the reported list of a destroy: indices are the ones `findIndex` gives before and after. */
  lemma DestroyRenumbers(s: State, h: Handle, seed: string, c: Renumber)
    requires Inv(s) && h in s.ws
    ensures var (r, changes) := DestroyHandle(s, h, seed);
            var o := s.ws[h].output;
            c in changes <==>
            && c.handle in s.ws && c.handle != h && c.oldIndex != c.newIndex
            && FindIndex(s, c.handle, o) == Some(c.oldIndex) && FindIndex(r.state, c.handle, o) == Some(c.newIndex)
  {
    var r, changes := DestroyHandle(s, h, seed).0.state, DestroyHandle(s, h, seed).1;
    DestroyPositions(s, h, seed);
    DestroyChanges(s, h, seed);
    forall k | k in Positions(s, s.ws[h].output) ensures k in s.ws { OnOutput(s, s.ws[h].output, k); }
    DestroyReports(s, h, r, changes, c);
  }

  lemma DestroyReports(s: State, h: Handle, r: State, changes: seq<Renumber>, c: Renumber)
    requires h in s.ws
    requires var p, q := Positions(s, s.ws[h].output), Positions(r, s.ws[h].output);
             && Distinct(p) && h in p && (forall k :: k in p ==> k in s.ws)
             && q == (if |p| == 1 then [s.next] else Remove(p, h))
             && changes == (if |p| == 1 then [] else Changes(p, h))
    ensures var o := s.ws[h].output;
            c in changes <==>
            && c.handle in s.ws && c.handle != h && c.oldIndex != c.newIndex
            && FindIndex(s, c.handle, o) == Some(c.oldIndex) && FindIndex(r, c.handle, o) == Some(c.newIndex)
  {
    var o := s.ws[h].output;
    RenumberCases(Positions(s, o), Positions(r, o), h, s.next, changes, c);
  }

  lemma DestroyChanges(s: State, h: Handle, seed: string)
    requires Inv(s) && h in s.ws
    ensures var p := Positions(s, s.ws[h].output);
            h in p && Distinct(p) && DestroyHandle(s, h, seed).1 == if |p| == 1 then [] else Changes(p, h)
  {
    var created, s1, t, formerIndex, changes := DestroyIs(s, h, seed);
  }

  lemma DestroyPositions(s: State, h: Handle, seed: string)
    requires Inv(s) && h in s.ws
    ensures var r, p := DestroyHandle(s, h, seed).0.state, Positions(s, s.ws[h].output);
            Positions(r, s.ws[h].output) == if |p| == 1 then [s.next] else Remove(p, h)
  {
    Listed(s, h);
    var o := s.ws[h].output;
    var p := s.positions[o];
    if |p| == 1 {
      assert p == [h];
      RemoveFromFront(p, [s.next], h);
      assert Remove([h], h) == [];
    }
  }

  // ----- Evaporation -----

  /** The output shows this workspace. */
  predicate OnScreen(s: State, h: Handle) {
    h in s.ws && s.ws[h].output in s.shown && s.shown[s.ws[h].output] == h
  }

  lemma ReapRemoves(s: State, h: Handle, k: Handle)
    requires Inv(s) && k in s.ws
    ensures k !in ReapIfEmpty(s, h).state.ws <==> k == h && Reapable(s, h)
  {
    if Reapable(s, h) { DestroyRemoves(s, h, k); }
  }

  lemma DestroyRemoves(s: State, h: Handle, k: Handle)
    requires Inv(s) && h in s.ws && k in s.ws
    ensures k !in DestroyHandle(s, h, "").0.state.ws <==> k == h
  {
    var created, s1, t, formerIndex, changes := DestroyIs(s, h, "");
    RelocationHas(s, h, k);
    RetiredHas(created, s1, h, t, formerIndex, changes, k);
  }

  lemma RetiredHas(created: seq<Effect>, s: State, h: Handle, t: Handle, formerIndex: int, changes: seq<Renumber>, k: Handle)
    requires h in s.ws && t in s.ws && t != h && s.ws[h].output in s.positions && s.ws[h].output in s.shown && k in s.ws
    ensures k !in DestroyInto(created, s, h, t, formerIndex, changes).state.ws <==> k == h
  {
  }

  lemma RelocationHas(s: State, h: Handle, k: Handle)
    requires OnList(s, h) && k in s.ws
    ensures k in Relocation(s, h, "").0.ws
  {
  }

  lemma LastOne(m: seq<int>, x: int)
    requires Distinct(m) && x in m
    ensures Remove(m, x) == [] <==> m == [x]
  {
    RemoveFacts(m, x);
    if |m| == 1 { assert m == [m[0]]; }
  }

  /** When a workspace goes away without being destroyed: it is dynamic, and either the user navigated away from it
      while it was empty, or its last window left it while it was hidden. */
  predicate Evaporates(s: State, op: Op, h: Handle)
    requires h in s.ws
  {
    && !s.ws[h].persistent
    && match op
       case OpShow(index, o, _) =>
         var k := FindHandle(s, index, o);
         s.ws[h].members == [] && s.ws[h].output == o && OnScreen(s, h) && k.Some? && k != Some(h)
       case OpMoveWindow(x, index, o, _) =>
         var k := FindHandle(s, index, o);
         s.ws[h].members == [x] && !OnScreen(s, h) && k.Some? && k != Some(h)
       case OpUnmap(x) => s.ws[h].members == [x] && !OnScreen(s, h)
       case _ => false
  }

  lemma NavigateEvaporates(s: State, k: Handle, index: int, o: int, outputName: string, h: Handle)
    requires Inv(s) && h in s.ws && k in s.ws && s.ws[k].output == o && o in s.shown && s.shown[o] != k
    ensures h !in Navigate(s, k, index, o, outputName).state.ws
       <==> h == s.shown[o] && !s.ws[h].persistent && s.ws[h].members == []
  {
    ShownNowInv(s, k, o, outputName);
    Showing(s, o);
    ReapRemoves(ShownNow(s, k, o, outputName), s.shown[o], h);
  }

  lemma ShowEvaporates(s: State, index: int, o: int, outputName: string, h: Handle)
    requires Inv(s) && h in s.ws
    ensures h !in Show(s, index, o, outputName).state.ws <==> Evaporates(s, OpShow(index, o, outputName), h)
  {
    match FindHandle(s, index, o)
    case None =>
    case Some(k) =>
      OnOutput(s, o, k);
      Showing(s, o);
      if s.shown[o] != k { NavigateEvaporates(s, k, index, o, outputName, h); }
  }

  lemma UnmapTracked(s: State, x: int, h: Handle)
    requires Inv(s) && h in s.ws && x in s.owner
    ensures h !in ApplyUnmap(s, x).state.ws
       <==> h == s.owner[x] && !s.ws[h].persistent && s.ws[h].members == [x] && !OnScreen(s, h)
  {
    Owner(s, x);
    var from := s.owner[x];
    Listed(s, from);
    LeftInv(s, x);
    ReapRemoves(Left(s, x), from, h);
    assert At(MemberLists(s.ws), from) == s.ws[from].members;
    LastOne(s.ws[from].members, x);
  }

  lemma UnmapUntracked(s: State, x: int)
    requires Inv(s) && x !in s.owner
    ensures ApplyUnmap(s, x).state == s
  {
  }

  lemma UnmapCase(s: State, x: int, h: Handle)
    requires h in s.ws && (s.ws[h].members == [x] ==> x in s.owner && s.owner[x] == h)
    ensures Evaporates(s, OpUnmap(x), h)
       <==> x in s.owner && h == s.owner[x] && !s.ws[h].persistent && s.ws[h].members == [x] && !OnScreen(s, h)
  {
  }

  lemma UnmapEvaporates(s: State, x: int, h: Handle)
    requires Inv(s) && h in s.ws
    ensures h !in ApplyUnmap(s, x).state.ws <==> Evaporates(s, OpUnmap(x), h)
  {
    OnlyOwner(s, h, x);
    UnmapCase(s, x, h);
    if x in s.owner { UnmapTracked(s, x, h); } else { UnmapUntracked(s, x); }
  }

  lemma OnlyOwner(s: State, h: Handle, x: int)
    requires Inv(s) && h in s.ws
    ensures s.ws[h].members == [x] ==> x in s.owner && s.owner[x] == h
  {
    if s.ws[h].members == [x] { Member(s, h, x); }
  }

  lemma MoveCase(s: State, x: int, index: int, o: int, outputName: string, h: Handle)
    requires h in s.ws && (s.ws[h].members == [x] ==> x in s.owner && s.owner[x] == h)
    ensures var k := FindHandle(s, index, o);
            Evaporates(s, OpMoveWindow(x, index, o, outputName), h)
            <==> && k.Some? && x in s.owner && s.owner[x] != k.value
                 && h == s.owner[x] && !s.ws[h].persistent && s.ws[h].members == [x] && !OnScreen(s, h)
  {
  }

  lemma MoveStays(s: State, x: int, index: int, o: int, outputName: string)
    requires Inv(s)
    requires var k := FindHandle(s, index, o); k.None? || x !in s.owner || s.owner[x] == k.value
    ensures MoveWindow(s, x, index, o, outputName).state == s
  {
  }

  lemma MoveEvaporates(s: State, x: int, index: int, o: int, outputName: string, h: Handle)
    requires Inv(s) && h in s.ws
    ensures h !in MoveWindow(s, x, index, o, outputName).state.ws <==> Evaporates(s, OpMoveWindow(x, index, o, outputName), h)
  {
    OnlyOwner(s, h, x);
    MoveCase(s, x, index, o, outputName, h);
    var k := FindHandle(s, index, o);
    if k.None? || x !in s.owner || s.owner[x] == k.value {
      MoveStays(s, x, index, o, outputName);
    } else {
      MoveWindowIs(s, x, index, o, outputName, k.value);
      MoveToEvaporates(s, x, k.value, index, outputName, h);
    }
  }

  lemma MoveToEvaporates(s: State, x: int, t: Handle, index: int, outputName: string, h: Handle)
    requires Inv(s) && h in s.ws && x in s.owner && t in s.ws && s.owner[x] != t
    ensures h !in MoveTo(s, x, t, index, outputName).state.ws
       <==> h == s.owner[x] && !s.ws[h].persistent && s.ws[h].members == [x] && !OnScreen(s, h)
  {
    var from := s.owner[x];
    Owner(s, x);
    Listed(s, from);
    RehousedInv(s, x, t, outputName);
    ReapRemoves(Rehoused(s, x, from, t, outputName), from, h);
    assert At(MemberLists(s.ws), from) == s.ws[from].members;
    LastOne(s.ws[from].members, x);
  }

  /** A workspace disappears other than by `destroy` exactly when it evaporates: never while it is persistent, holds a
      window, or is the one on screen. */
  lemma EvaporatesExactly(s: State, op: Op, h: Handle)
    requires Inv(s) && h in s.ws && !op.OpDestroy?
    ensures h !in Transition(s, op).state.ws <==> Evaporates(s, op, h)
  {
    if op.OpShow? {
      ShowEvaporates(s, op.index, op.o, op.outputName, h);
    } else if op.OpMoveWindow? {
      MoveEvaporates(s, op.surface, op.index, op.o, op.outputName, h);
    } else if op.OpUnmap? {
      UnmapEvaporates(s, op.surface, h);
    } else {
      OthersRemain(s, op, h);
    }
  }

  lemma OthersRemain(s: State, op: Op, h: Handle)
    requires Inv(s) && h in s.ws && !op.OpDestroy? && !op.OpShow? && !op.OpMoveWindow? && !op.OpUnmap?
    ensures h in Transition(s, op).state.ws
  {
    if op.OpRecompute? { RecomputedRecord(s, op.e, h); }
  }
}
