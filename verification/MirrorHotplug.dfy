/** The effect log across a recompute. The events arrive in a different order from the changes they report
    (fresh workspaces are announced before the migrations that drained their outputs), and still replay exactly.
 */
module MirrorHotplug {
  import opened Seqs
  import opened Index
  import opened Registry
  import opened Hotplug
  import opened Settling
  import opened Mirror

  // ----- One output's share of a replay -----

  function StackStep(ids: seq<int>, f: Effect, o: int): seq<int> {
    if f.SetOutputStack? && f.output == o then f.ids else ids
  }

  function StackAfter(ids: seq<int>, fs: seq<Effect>, o: int): seq<int> {
    if fs == [] then ids else StackStep(StackAfter(ids, fs[..|fs| - 1], o), fs[|fs| - 1], o)
  }

  function ListStep(l: seq<Handle>, f: Effect, o: int): seq<Handle> {
    match f
    case Created(h, _, p, _) => if p == o then l + [h] else l
    case Destroyed(h, _, p) => if p == o then Remove(l, h) else l
    case Migrated(h, from, to) =>
      var gone := if from == o then Remove(l, h) else l;
      if to == o then gone + [h] else gone
    case _ => l
  }

  function ListAfter(l: seq<Handle>, fs: seq<Effect>, o: int): seq<Handle> {
    if fs == [] then l else ListStep(ListAfter(l, fs[..|fs| - 1], o), fs[|fs| - 1], o)
  }

  lemma ObserveAt(v: View, f: Effect, o: int)
    ensures At(Observe(v, f).stacks, o) == StackStep(At(v.stacks, o), f, o)
    ensures At(Observe(v, f).lists, o) == ListStep(At(v.lists, o), f, o)
  {
  }

  lemma {:induction false} ReplayAt(v: View, fs: seq<Effect>, o: int)
    ensures At(Replay(v, fs).stacks, o) == StackAfter(At(v.stacks, o), fs, o)
    ensures At(Replay(v, fs).lists, o) == ListAfter(At(v.lists, o), fs, o)
  {
    if fs != [] {
      ReplayAt(v, fs[..|fs| - 1], o);
      ObserveAt(Replay(v, fs[..|fs| - 1]), fs[|fs| - 1], o);
    }
  }

  lemma {:induction false} StackConcat(ids: seq<int>, a: seq<Effect>, b: seq<Effect>, o: int)
    ensures StackAfter(ids, a + b, o) == StackAfter(StackAfter(ids, a, o), b, o)
  {
    if b == [] {
      assert a + b == a;
    } else {
      StackConcat(ids, a, b[..|b| - 1], o);
      assert (a + b)[..|a + b| - 1] == a + b[..|b| - 1];
    }
  }

  lemma {:induction false} ListConcat(l: seq<Handle>, a: seq<Effect>, b: seq<Effect>, o: int)
    ensures ListAfter(l, a + b, o) == ListAfter(ListAfter(l, a, o), b, o)
  {
    if b == [] {
      assert a + b == a;
    } else {
      ListConcat(l, a, b[..|b| - 1], o);
      assert (a + b)[..|a + b| - 1] == a + b[..|b| - 1];
    }
  }

  lemma OneEffect(ids: seq<int>, l: seq<Handle>, f: Effect, o: int)
    ensures StackAfter(ids, [f], o) == StackStep(ids, f, o) && ListAfter(l, [f], o) == ListStep(l, f, o)
  {
    assert [f][..0] == [];
  }

  /** No stack is pushed. */
  ghost predicate NoPush(fs: seq<Effect>) { forall i :: 0 <= i < |fs| ==> !fs[i].SetOutputStack? }

  /** No list changes. */
  ghost predicate NoList(fs: seq<Effect>) {
    forall i :: 0 <= i < |fs| ==> !fs[i].Created? && !fs[i].Destroyed? && !fs[i].Migrated?
  }

  /** No window changes hands. */
  ghost predicate NoBag(fs: seq<Effect>) { forall i :: 0 <= i < |fs| ==> !fs[i].SetStateBag? && !fs[i].DeleteStateBag? }

  /** No workspace is announced. */
  ghost predicate NoNew(fs: seq<Effect>) { forall i :: 0 <= i < |fs| ==> !fs[i].Created? }

  lemma {:induction false} StackSame(ids: seq<int>, fs: seq<Effect>, o: int)
    requires NoPush(fs)
    ensures StackAfter(ids, fs, o) == ids
  {
    if fs != [] { StackSame(ids, fs[..|fs| - 1], o); }
  }

  lemma {:induction false} ListSame(l: seq<Handle>, fs: seq<Effect>, o: int)
    requires NoList(fs)
    ensures ListAfter(l, fs, o) == l
  {
    if fs != [] { ListSame(l, fs[..|fs| - 1], o); }
  }

  lemma {:induction false} BagsSame(v: View, fs: seq<Effect>)
    requires NoBag(fs)
    ensures Replay(v, fs).bags == v.bags
  {
    if fs != [] { BagsSame(v, fs[..|fs| - 1]); }
  }

  /** The handles announced, in order. */
  function Announcements(fs: seq<Effect>): seq<Handle> {
    if fs == [] then []
    else Announcements(fs[..|fs| - 1]) + (if fs[|fs| - 1].Created? then [fs[|fs| - 1].handle] else [])
  }

  lemma {:induction false} ReplayIssued(v: View, fs: seq<Effect>)
    ensures Replay(v, fs).issued == v.issued + Announcements(fs)
  {
    if fs != [] { ReplayIssued(v, fs[..|fs| - 1]); }
  }

  lemma {:induction false} AnnouncementsConcat(a: seq<Effect>, b: seq<Effect>)
    ensures Announcements(a + b) == Announcements(a) + Announcements(b)
  {
    if b == [] {
      assert a + b == a;
    } else {
      AnnouncementsConcat(a, b[..|b| - 1]);
      assert (a + b)[..|a + b| - 1] == a + b[..|b| - 1];
    }
  }

  lemma {:induction false} NoAnnouncements(fs: seq<Effect>)
    requires NoNew(fs)
    ensures Announcements(fs) == []
  {
    if fs != [] { NoAnnouncements(fs[..|fs| - 1]); }
  }

  // ----- Created events -----

  lemma {:induction false} CreatedOnly(s: State, e: Env, ids: seq<int>, n: nat)
    requires n <= |ids|
    ensures var fs := Replenishments(s, e, ids, n); NoPush(fs) && NoBag(fs)
  {
    if n > 0 { CreatedOnly(s, e, ids, n - 1); }
  }

  lemma {:induction false} CreatedIssued(issued: seq<Handle>, s: State, e: Env, ids: seq<int>, n: nat)
    requires n <= |ids| && Counts(issued, s.next)
    ensures Counts(issued + Announcements(Replenishments(s, e, ids, n)), Replenish(s, e, ids, n).next)
  {
    if n > 0 {
      CreatedIssued(issued, s, e, ids, n - 1);
      var fs, fs', p, r := ReplenishIs(s, e, ids, n);
      IssueStep(issued, fs, fs', p, r, e, ids[n - 1]);
    } else {
      assert issued + [] == issued;
    }
  }

  lemma IssueStep(issued: seq<Handle>, fs: seq<Effect>, fs': seq<Effect>, p: State, r: State, e: Env, id: int)
    requires r == ReplenishOne(p, e, id) && fs' == fs + CreatedOf(p, id)
    requires Counts(issued + Announcements(fs), p.next)
    ensures Counts(issued + Announcements(fs'), r.next)
  {
    AnnouncementsConcat(fs, CreatedOf(p, id));
    if Positions(p, id) == [] {
      var news := [Created(p.next, 1, id, None)];
      assert CreatedOf(p, id) == news && news[..0] == [];
      assert Announcements(news) == [p.next];
      CountsNext(issued + Announcements(fs), p.next);
      assert issued + Announcements(fs') == issued + Announcements(fs) + [p.next];
    } else {
      assert CreatedOf(p, id) == [] && fs' == fs && r == p;
    }
  }

  lemma {:induction false} ReplenishOthers(s: State, e: Env, ids: seq<int>, n: nat, o: int)
    requires n <= |ids| && Positions(s, o) != []
    ensures Positions(Replenish(s, e, ids, n), o) == Positions(s, o)
  {
    if n > 0 { ReplenishOthers(s, e, ids, n - 1, o); }
  }

  lemma ReplenishOneAt(s: State, e: Env, id: int, o: int)
    ensures Positions(ReplenishOne(s, e, id), o) == if o == id && Positions(s, o) == [] then [s.next] else Positions(s, o)
  {
  }

  /** What replenishment adds to an output. */
  function Fresh(before: State, after: State, o: int): seq<Handle> {
    if Positions(before, o) == [] then Positions(after, o) else []
  }

  /** One unfolding of the replenishment and of what it reports. */
  lemma ReplenishIs(s: State, e: Env, ids: seq<int>, n: nat)
    returns (fs: seq<Effect>, fs': seq<Effect>, p: State, r: State)
    requires 0 < n <= |ids|
    ensures fs == Replenishments(s, e, ids, n - 1) && fs' == Replenishments(s, e, ids, n)
    ensures p == Replenish(s, e, ids, n - 1) && r == Replenish(s, e, ids, n)
    ensures r == ReplenishOne(p, e, ids[n - 1]) && fs' == fs + CreatedOf(p, ids[n - 1])
  {
    fs, fs' := Replenishments(s, e, ids, n - 1), Replenishments(s, e, ids, n);
    p, r := Replenish(s, e, ids, n - 1), Replenish(s, e, ids, n);
  }

  /** The effects put what is new on output `o` behind the list. */
  ghost predicate Grown(l: seq<Handle>, fs: seq<Effect>, s: State, p: State, o: int) {
    ListAfter(l, fs, o) == l + Fresh(s, p, o)
  }

  lemma CreateStep(l: seq<Handle>, fs: seq<Effect>, fs': seq<Effect>, s: State, p: State, r: State, e: Env, id: int, o: int)
    requires r == ReplenishOne(p, e, id) && fs' == fs + CreatedOf(p, id)
    requires Positions(s, o) != [] ==> Positions(p, o) == Positions(s, o)
    requires Grown(l, fs, s, p, o)
    ensures Grown(l, fs', s, r, o)
  {
    ListConcat(l, fs, CreatedOf(p, id), o);
    ReplenishOneAt(p, e, id, o);
    OneEffect([], l + Fresh(s, p, o), Created(p.next, 1, id, None), o);
  }

  lemma CreatedListsNext(l: seq<Handle>, s: State, e: Env, ids: seq<int>, n: nat, o: int)
    requires 0 < n <= |ids| && GrownTo(l, s, e, ids, n - 1, o)
    ensures GrownTo(l, s, e, ids, n, o)
  {
    if Positions(s, o) != [] { ReplenishOthers(s, e, ids, n - 1, o); }
    var fs, fs', p, r := ReplenishIs(s, e, ids, n);
    CreateStep(l, fs, fs', s, p, r, e, ids[n - 1], o);
  }

  /** The first `n` replenishments do. */
  ghost predicate GrownTo(l: seq<Handle>, s: State, e: Env, ids: seq<int>, n: nat, o: int)
    requires n <= |ids|
  {
    Grown(l, Replenishments(s, e, ids, n), s, Replenish(s, e, ids, n), o)
  }

  lemma GrownNone(l: seq<Handle>, s: State, e: Env, ids: seq<int>, o: int)
    ensures GrownTo(l, s, e, ids, 0, o)
  {
    assert l + [] == l;
  }

  lemma {:induction false} CreatedLists(l: seq<Handle>, s: State, e: Env, ids: seq<int>, n: nat, o: int)
    requires n <= |ids|
    ensures GrownTo(l, s, e, ids, n, o)
  {
    if n == 0 {
      GrownNone(l, s, e, ids, o);
    } else {
      CreatedLists(l, s, e, ids, n - 1, o);
      CreatedListsNext(l, s, e, ids, n, o);
    }
  }

  // ----- Migrated events -----

  lemma {:induction false} MovesOnly(s: State, e: Env, k: nat)
    ensures var fs := Moves(s, e, k); NoPush(fs) && NoBag(fs) && NoNew(fs)
  {
    if k > 0 { MovesOnly(s, e, k - 1); }
  }

  lemma ListedMidway(s: State, e: Env, k: nat, h: Handle)
    requires WeakInv(s) && h in s.ws && k <= h
    ensures h in Positions(Migrate(s, e, k), s.ws[h].output)
  {
    MigrateInv(s, e, k);
    MigrateRecord(s, e, k, h);
    assert h in Outputs(Migrate(s, e, k).ws);
  }

  /** One workspace's step: its event and its migration, side by side. */
  lemma MoveStep(extra: seq<Handle>, p: State, e: Env, h: Handle, from: int, to: int, o: int)
    requires h in p.ws && p.ws[h].output == from && Rehomed(p.ws[h], e).output == to && h in Positions(p, from)
    requires to == o ==> extra == []
    ensures ListAfter(Positions(p, o) + extra, if from != to then [Migrated(h, from, to)] else [], o)
         == Positions(MigrateOne(p, h, e), o) + extra
  {
    if from != to {
      OneEffect([], Positions(p, o) + extra, Migrated(h, from, to), o);
      if o == from { RemoveFromFront(Positions(p, o), extra, h); }
    }
  }

  /** The first migrations' events leave the migrated list of the output, with `extra` behind it. */
  ghost predicate Moved(s: State, e: Env, fs: seq<Effect>, p: State, extra: seq<Handle>, o: int) {
    ListAfter(Positions(s, o) + extra, fs, o) == Positions(p, o) + extra
  }

  lemma MoveListStep(fs: seq<Effect>, extra: seq<Handle>, s: State, e: Env, h: Handle, o: int)
    requires WeakInv(s) && h in s.ws && (Rehomed(s.ws[h], e).output == o ==> extra == [])
    requires Moved(s, e, fs, Migrate(s, e, h), extra, o)
    ensures Moved(s, e, fs + MoveOf(s, e, h), MigrateOne(Migrate(s, e, h), h, e), extra, o)
  {
    var p := Migrate(s, e, h);
    MigrateRecord(s, e, h, h);
    ListedMidway(s, e, h, h);
    MoveStep(extra, p, e, h, s.ws[h].output, Rehomed(s.ws[h], e).output, o);
    ListConcat(Positions(s, o) + extra, fs, MoveOf(s, e, h), o);
  }

  lemma MovesIs(s: State, e: Env, k: nat)
    requires k > 0
    ensures Moves(s, e, k) == Moves(s, e, k - 1) + MoveOf(s, e, k - 1)
    ensures k - 1 !in s.ws ==> Moves(s, e, k) == Moves(s, e, k - 1) && Migrate(s, e, k) == Migrate(s, e, k - 1)
    ensures k - 1 in s.ws ==> Migrate(s, e, k) == MigrateOne(Migrate(s, e, k - 1), k - 1, e)
  {
  }

  lemma {:induction false} MoveLists(extra: seq<Handle>, s: State, e: Env, k: nat, o: int)
    requires WeakInv(s) && forall h :: h in s.ws && Rehomed(s.ws[h], e).output == o ==> extra == []
    ensures Moved(s, e, Moves(s, e, k), Migrate(s, e, k), extra, o)
  {
    if k > 0 {
      MoveLists(extra, s, e, k - 1, o);
      MovesIs(s, e, k);
      if k - 1 in s.ws { MoveListStep(Moves(s, e, k - 1), extra, s, e, k - 1, o); }
    }
  }

  // ----- Shown, hidden and stack pushes -----

  lemma DiffOnly(s: State, s': State, o: int)
    ensures var fs := Diff(s, s', o); NoList(fs) && NoBag(fs) && NoNew(fs)
  {
  }

  lemma QuietConcat(a: seq<Effect>, b: seq<Effect>)
    requires NoList(a) && NoBag(a) && NoNew(a) && NoList(b) && NoBag(b) && NoNew(b)
    ensures NoList(a + b) && NoBag(a + b) && NoNew(a + b)
  {
  }

  lemma {:induction false} DiffsOnly(s: State, s': State, order: seq<int>, n: nat)
    requires n <= |order|
    ensures var fs := Diffs(s, s', order, n); NoList(fs) && NoBag(fs) && NoNew(fs)
  {
    if n > 0 {
      DiffsOnly(s, s', order, n - 1);
      DiffOnly(s, s', order[n - 1]);
      QuietConcat(Diffs(s, s', order, n - 1), Diff(s, s', order[n - 1]));
    }
  }

  lemma DiffStack(ids: seq<int>, s: State, s': State, p: int, o: int)
    ensures StackAfter(ids, Diff(s, s', p), o)
         == if p == o && ShownAt(s, o) != ShownAt(s', o) then StackFor(s', o) else ids
  {
    var before, after := ShownAt(s, p), ShownAt(s', p);
    var a := (if before.Some? then [Hidden(before.value, IndexIn(s', before.value, p), p)] else [])
             + (if after.Some? then [Shown(after.value, IndexIn(s', after.value, p), p)] else []);
    StackSame(ids, a, o);
    StackConcat(ids, a, [Push(s', p)], o);
    OneEffect(ids, [], Push(s', p), o);
  }

  predicate Visited(order: seq<int>, n: nat, o: int)
    requires n <= |order|
  {
    n > 0 && (order[n - 1] == o || Visited(order, n - 1, o))
  }

  lemma {:induction false} VisitedAll(order: seq<int>, n: nat, o: int)
    requires n <= |order|
    ensures Visited(order, n, o) <==> exists i :: 0 <= i < n && order[i] == o
  {
    if n > 0 { VisitedAll(order, n - 1, o); }
  }

  lemma {:induction false} DiffStacks(s: State, s': State, order: seq<int>, n: nat, o: int)
    requires n <= |order| && (ShownAt(s, o) == ShownAt(s', o) ==> StackFor(s, o) == StackFor(s', o))
    ensures StackAfter(StackFor(s, o), Diffs(s, s', order, n), o)
         == if Visited(order, n, o) then StackFor(s', o) else StackFor(s, o)
  {
    if n > 0 {
      DiffStacks(s, s', order, n - 1, o);
      StackThenDiff(StackFor(s, o), Diffs(s, s', order, n - 1), s, s', order[n - 1], o);
    }
  }

  lemma StackThenDiff(ids: seq<int>, a: seq<Effect>, s: State, s': State, p: int, o: int)
    ensures StackAfter(ids, a + Diff(s, s', p), o)
         == if p == o && ShownAt(s, o) != ShownAt(s', o) then StackFor(s', o) else StackAfter(ids, a, o)
  {
    StackConcat(ids, a, Diff(s, s', p), o);
    DiffStack(StackAfter(ids, a, o), s, s', p, o);
  }

  /** An output that shows what it showed has the stack it had. */
  lemma SameShownSameStack(s: State, e: Env, o: int)
    requires Inv(s) && ShownAt(s, o) == ShownAt(Recomputed(s, e), o)
    ensures StackFor(s, o) == StackFor(Recomputed(s, e), o)
  {
    if o in s.shown {
      Showing(s, o);
      RecomputedRecord(s, e, s.shown[o]);
      RehomedFacts(s.ws[s.shown[o]], e);
    }
  }

  // ----- The whole call, output by output -----

  /** No migration ends on an output that needed a fresh workspace. */
  lemma FreshUntouched(s: State, e: Env, o: int, h: Handle)
    requires Inv(s) && h in s.ws && Rehomed(s.ws[h], e).output == o
    ensures Fresh(Migrate(s, e, s.next), Refilled(s, e), o) == []
  {
    var s1 := Migrate(s, e, s.next);
    MigrateInv(s, e, s.next);
    MigrateRecord(s, e, s.next, h);
    assert h in Outputs(s1.ws);
  }

  /** What replenishment added stays in front of nothing that migrates in. */
  lemma RefilledList(s: State, e: Env, o: int)
    requires Inv(s)
    ensures Positions(Refilled(s, e), o) == Positions(Migrate(s, e, s.next), o) + Fresh(Migrate(s, e, s.next), Refilled(s, e), o)
  {
    var s1, ids := Migrate(s, e, s.next), LiveIds(e.live);
    if Positions(s1, o) != [] { ReplenishOthers(s1, e, ids, |ids|, o); }
  }

  lemma MovedLists(s: State, e: Env, o: int, extra: seq<Handle>)
    requires Inv(s) && extra == Fresh(Migrate(s, e, s.next), Refilled(s, e), o)
    ensures ListAfter(Positions(s, o) + extra, Moves(s, e, s.next), o) == Positions(Migrate(s, e, s.next), o) + extra
  {
    forall h | h in s.ws && Rehomed(s.ws[h], e).output == o ensures extra == [] { FreshUntouched(s, e, o, h); }
    MoveLists(extra, s, e, s.next, o);
  }

  lemma RecomputeList(s: State, e: Env, o: int)
    requires Inv(s)
    ensures var s1, ids := Migrate(s, e, s.next), LiveIds(e.live);
            var l := ListAfter(Positions(s, o), Replenishments(s1, e, ids, |ids|), o);
            ListAfter(l, Moves(s, e, s.next), o) == Positions(Recomputed(s, e), o)
  {
    var s1, ids := Migrate(s, e, s.next), LiveIds(e.live);
    var extra := Fresh(s1, Refilled(s, e), o);
    CreatedLists(Positions(s, o), s1, e, ids, |ids|, o);
    MovedLists(s, e, o, extra);
    RefilledList(s, e, o);
    RecomputedPositions(s, e, o);
  }

  lemma RecomputeStack(s: State, e: Env, order: seq<int>, o: int)
    requires Inv(s) && Visits(order, s, e)
    ensures StackAfter(StackFor(s, o), Diffs(s, Recomputed(s, e), order, |order|), o) == StackFor(Recomputed(s, e), o)
  {
    var r := Recomputed(s, e);
    if ShownAt(s, o) == ShownAt(r, o) { SameShownSameStack(s, e, o); }
    DiffStacks(s, r, order, |order|, o);
    VisitedAll(order, |order|, o);
    if o !in order {
      NotShownElsewhere(s, e, o);
      if o in s.shown { Showing(s, o); }
    }
  }

  lemma FourStacks(ids: seq<int>, a: seq<Effect>, b: seq<Effect>, c: seq<Effect>, d: seq<Effect>, o: int)
    requires NoPush(a) && NoPush(c) && NoPush(d)
    ensures StackAfter(ids, a + b + c + d, o) == StackAfter(ids, b, o)
  {
    StackConcat(ids, a + b + c, d, o);
    StackConcat(ids, a + b, c, o);
    StackConcat(ids, a, b, o);
    StackSame(ids, a, o);
    StackSame(StackAfter(ids, b, o), c, o);
    StackSame(StackAfter(ids, b, o), d, o);
  }

  lemma FourLists(l: seq<Handle>, a: seq<Effect>, b: seq<Effect>, c: seq<Effect>, d: seq<Effect>, o: int)
    requires NoList(b) && NoList(d)
    ensures ListAfter(l, a + b + c + d, o) == ListAfter(ListAfter(l, a, o), c, o)
  {
    ListConcat(l, a + b + c, d, o);
    ListConcat(l, a + b, c, o);
    ListConcat(l, a, b, o);
    ListSame(ListAfter(l, a, o), b, o);
    ListSame(ListAfter(ListAfter(l, a, o), c, o), d, o);
  }

  lemma ReplayFourAt(v: View, a: seq<Effect>, b: seq<Effect>, c: seq<Effect>, d: seq<Effect>, o: int)
    requires NoPush(a) && NoPush(c) && NoPush(d) && NoList(b) && NoList(d)
    ensures var v' := Replay(v, a + b + c + d);
            && At(v'.stacks, o) == StackAfter(At(v.stacks, o), b, o)
            && At(v'.lists, o) == ListAfter(ListAfter(At(v.lists, o), a, o), c, o)
  {
    ReplayAt(v, a + b + c + d, o);
    FourStacks(At(v.stacks, o), a, b, c, d, o);
    FourLists(At(v.lists, o), a, b, c, d, o);
  }

  /** The four parts of a recompute's effects, and what the middle ones leave on output `o`. */
  lemma RecomputeChunks(s: State, e: Env, order: seq<int>)
    returns (a: seq<Effect>, b: seq<Effect>, c: seq<Effect>, d: seq<Effect>)
    ensures Recompute(s, e, order).effects == a + b + c + d
    ensures var s1, ids := Migrate(s, e, s.next), LiveIds(e.live);
            && a == Replenishments(s1, e, ids, |ids|) && c == Moves(s, e, s.next)
            && b == Diffs(s, Recomputed(s, e), order, |order|)
    ensures NoPush(a) && NoPush(c) && NoPush(d) && NoList(b) && NoList(d)
    ensures NoBag(a) && NoBag(b) && NoBag(c) && NoBag(d) && NoNew(b) && NoNew(c) && NoNew(d)
  {
    var s1, r, ids := Migrate(s, e, s.next), Recomputed(s, e), LiveIds(e.live);
    a, b, c := Replenishments(s1, e, ids, |ids|), Diffs(s, r, order, |order|), Moves(s, e, s.next);
    d := if AnyShownChanged(s, r, order) then [RequestFocusDecision] else [];
    CreatedOnly(s1, e, ids, |ids|);
    DiffsOnly(s, r, order, |order|);
    MovesOnly(s, e, s.next);
  }

  lemma RecomputeAt(v: View, s: State, e: Env, order: seq<int>, o: int)
    requires Inv(s) && Visits(order, s, e)
    requires At(v.stacks, o) == StackFor(s, o) && At(v.lists, o) == Positions(s, o)
    ensures var v' := Replay(v, Recompute(s, e, order).effects);
            At(v'.stacks, o) == StackFor(Recomputed(s, e), o) && At(v'.lists, o) == Positions(Recomputed(s, e), o)
  {
    var a, b, c, d := RecomputeChunks(s, e, order);
    ReplayFourAt(v, a, b, c, d, o);
    RecomputeStack(s, e, order, o);
    RecomputeList(s, e, o);
  }

  lemma ReplayFour(v: View, a: seq<Effect>, b: seq<Effect>, c: seq<Effect>, d: seq<Effect>)
    requires NoBag(a) && NoBag(b) && NoBag(c) && NoBag(d) && NoNew(b) && NoNew(c) && NoNew(d)
    ensures var v' := Replay(v, a + b + c + d); v'.bags == v.bags && v'.issued == v.issued + Announcements(a)
  {
    BagsSame(v, a + b + c + d);
    ReplayIssued(v, a + b + c + d);
    AnnouncementsConcat(a + b + c, d);
    AnnouncementsConcat(a + b, c);
    AnnouncementsConcat(a, b);
    NoAnnouncements(b);
    NoAnnouncements(c);
    NoAnnouncements(d);
  }

  lemma RecomputeRest(v: View, s: State, e: Env, order: seq<int>)
    requires v.bags == s.owner && Counts(v.issued, s.next)
    ensures var v', r := Replay(v, Recompute(s, e, order).effects), Recomputed(s, e);
            v'.bags == r.owner && Counts(v'.issued, r.next)
  {
    var a, b, c, d := RecomputeChunks(s, e, order);
    ReplayFour(v, a, b, c, d);
    RecomputeCounts(v.issued, s, e);
  }

  lemma RecomputeCounts(issued: seq<Handle>, s: State, e: Env)
    requires Counts(issued, s.next)
    ensures var s1, ids, r := Migrate(s, e, s.next), LiveIds(e.live), Recomputed(s, e);
            r.owner == s.owner && Counts(issued + Announcements(Replenishments(s1, e, ids, |ids|)), r.next)
  {
    RecomputedFrame(s, e);
    MigrateFrame(s, e, s.next);
    CreatedIssued(issued, Migrate(s, e, s.next), e, LiveIds(e.live), |LiveIds(e.live)|);
  }

  lemma Assemble(v: View, s: State)
    requires v.bags == s.owner && Counts(v.issued, s.next)
    requires forall o :: At(v.stacks, o) == StackFor(s, o) && At(v.lists, o) == Positions(s, o)
    ensures Mirrors(v, s)
  {
    forall o ensures At(v.lists, o) == At(s.positions, o) {
      assert At(v.lists, o) == Positions(s, o);
    }
  }

  /** A recompute's effects, replayed, rebuild the recomputed registry. */
  lemma MirrorRecompute(v: View, s: State, e: Env, order: seq<int>)
    requires Inv(s) && Mirrors(v, s) && Visits(order, s, e)
    ensures Mirrors(Replay(v, Recompute(s, e, order).effects), Recomputed(s, e))
  {
    RecomputeRest(v, s, e, order);
    forall o
      ensures var v' := Replay(v, Recompute(s, e, order).effects);
              At(v'.stacks, o) == StackFor(Recomputed(s, e), o) && At(v'.lists, o) == Positions(Recomputed(s, e), o)
    {
      MirrorsAt(v, s, o);
      RecomputeAt(v, s, e, order, o);
    }
    Assemble(Replay(v, Recompute(s, e, order).effects), Recomputed(s, e));
  }

  lemma MirrorsAt(v: View, s: State, o: int)
    requires Mirrors(v, s)
    ensures At(v.stacks, o) == StackFor(s, o) && At(v.lists, o) == Positions(s, o)
  {
  }
}
