/** The effect log as a mirror: replaying what the registry reported rebuilds what the registry holds. */
module Mirror {
  import opened Seqs
  import opened Index
  import opened Registry

  /** What a subscriber of the effects can keep: the last stack pushed per output, the window state bags, the
      ordered workspace list per output, and the handles announced so far. */
  datatype View = View(stacks: map<int, seq<int>>, bags: map<int, Handle>,
                       lists: map<int, seq<Handle>>, issued: seq<Handle>)

  const BLANK := View(map[], map[], map[], [])

  function Observe(v: View, f: Effect): View {
    match f
    case SetOutputStack(o, ids) => v.(stacks := v.stacks[o := ids])
    case SetStateBag(x, h) => v.(bags := v.bags[x := h])
    case DeleteStateBag(x) => v.(bags := v.bags - {x})
    case Created(h, _, o, _) => v.(lists := v.lists[o := At(v.lists, o) + [h]], issued := v.issued + [h])
    case Destroyed(h, _, o) => v.(lists := v.lists[o := Remove(At(v.lists, o), h)])
    case Migrated(h, from, to) =>
      var gone := v.lists[from := Remove(At(v.lists, from), h)];
      v.(lists := gone[to := At(gone, to) + [h]])
    case _ => v
  }

  function Replay(v: View, fs: seq<Effect>): View {
    if fs == [] then v else Observe(Replay(v, fs[..|fs| - 1]), fs[|fs| - 1])
  }

  /** All handles below `next`, each once, in order: 1, 2, 3, ... */
  ghost predicate Counts(issued: seq<Handle>, next: Handle) {
    next >= 1 && |issued| == next - 1 && forall i :: 0 <= i < |issued| ==> issued[i] == i + 1
  }

  ghost predicate Stacked(stacks: map<int, seq<int>>, s: State) {
    forall o :: At(stacks, o) == StackFor(s, o)
  }

  /** The view shows exactly the registry: every output's stack, every window's workspace, every output's ordered
      list, and all handles in the order issued, each once. */
  ghost predicate Mirrors(v: View, s: State) {
    && v.bags == s.owner
    && Agree(v.lists, s.positions)
    && Stacked(v.stacks, s)
    && Counts(v.issued, s.next)
  }

  // ----- Replaying -----

  lemma {:induction false} ReplayConcat(v: View, a: seq<Effect>, b: seq<Effect>)
    ensures Replay(v, a + b) == Replay(Replay(v, a), b)
  {
    if b == [] {
      assert a + b == a;
    } else {
      ReplayConcat(v, a, b[..|b| - 1]);
      assert (a + b)[..|a + b| - 1] == a + b[..|b| - 1];
    }
  }

  lemma ReplayOne(v: View, f: Effect)
    ensures Replay(v, [f]) == Observe(v, f)
  {
    assert [f][..0] == [];
  }

  lemma ReplayMore(v: View, a: seq<Effect>, f: Effect)
    ensures Replay(v, a + [f]) == Observe(Replay(v, a), f)
  {
    ReplayConcat(v, a, [f]);
    ReplayOne(Replay(v, a), f);
  }

  lemma {:induction false} ReplayBags(v: View, members: seq<int>, t: Handle)
    ensures Replay(v, BagMoves(members, t)) == v.(bags := v.bags + map x | x in members :: t)
  {
    if members != [] {
      ReplayBags(v, Seqs.Init(members), t);
      BagsNext(v.bags, Seqs.Init(members), Last(members), t);
      assert members == Seqs.Init(members) + [Last(members)];
      ReplayMore(v, BagMoves(Seqs.Init(members), t), SetStateBag(Last(members), t));
    }
  }

  lemma BagsNext(bags: map<int, Handle>, front: seq<int>, x: int, t: Handle)
    ensures BagMoves(front + [x], t) == BagMoves(front, t) + [SetStateBag(x, t)]
    ensures bags + (map y | y in front + [x] :: t) == (bags + map y | y in front :: t)[x := t]
  {
  }

  // ----- The building blocks -----

  lemma AppendedStacks(s: State, w: Workspace, o: int)
    requires Inv(s) && w.members == []
    ensures StackFor(Appended(s, w), o) == StackFor(s, o)
  {
    if o in s.shown { Showing(s, o); }
  }

  lemma CountsNext(issued: seq<Handle>, next: Handle)
    requires Counts(issued, next)
    ensures Counts(issued + [next], next + 1)
  {
  }

  lemma SameStacks(stacks: map<int, seq<int>>, s: State, s1: State)
    requires Stacked(stacks, s) && forall o :: StackFor(s1, o) == StackFor(s, o)
    ensures Stacked(stacks, s1)
  {
  }

  lemma MirrorAppended(v: View, s: State, w: Workspace, index: int, name: Option<string>)
    requires Inv(s) && Mirrors(v, s) && w.members == []
    ensures Mirrors(Observe(v, Created(s.next, index, w.output, name)), Appended(s, w))
  {
    CountsNext(v.issued, s.next);
    AgreeUpdate(v.lists, s.positions, w.output, At(s.positions, w.output) + [s.next]);
    forall o ensures StackFor(Appended(s, w), o) == StackFor(s, o) { AppendedStacks(s, w, o); }
    SameStacks(v.stacks, s, Appended(s, w));
  }

  lemma EnsureIs(s: State, o: int, seed: string)
    requires Inv(s) && Positions(s, o) == []
    ensures EnsureOutput(s, o, seed)
            == Done(Appended(s, Blank(o, seed)), [Created(s.next, 1, o, None), Shown(s.next, 1, o)])
  {
    assert o !in s.shown;
  }

  lemma MirrorEnsure(v: View, s: State, o: int, seed: string)
    requires Inv(s) && Mirrors(v, s)
    ensures Mirrors(Replay(v, EnsureOutput(s, o, seed).effects), EnsureOutput(s, o, seed).state)
  {
    if Positions(s, o) == [] {
      EnsureIs(s, o, seed);
      MirrorAppended(v, s, Blank(o, seed), 1, None);
      ReplayCreated(v, Created(s.next, 1, o, None), Shown(s.next, 1, o));
    }
  }

  lemma ReplayCreated(v: View, c: Effect, d: Effect)
    requires d.Shown?
    ensures Replay(v, [c, d]) == Observe(v, c)
  {
    ReplayOne(v, c);
    ReplayMore(v, [c], d);
    assert [c, d] == [c] + [d];
  }

  /** Only the output that `h` and `t` share can change its stack. */
  lemma RetiredStacks(s: State, h: Handle, t: Handle, o: int)
    requires Inv(s) && h in s.ws && t in s.ws && t != h && s.ws[t].output == s.ws[h].output
    ensures s.ws[h].output in s.positions && s.ws[h].output in s.shown
    ensures var home := s.ws[h].output;
            o != home || (s.shown[home] != h && (s.shown[home] != t || s.ws[h].members == []))
            ==> StackFor(Retired(s, h, t), o) == StackFor(s, o)
  {
    Listed(s, h);
    if o in s.shown { Showing(s, o); }
  }

  lemma MirrorMoved(v: View, s: State, h: Handle, t: Handle, formerIndex: int)
    requires Mirrors(v, s)
    requires h in s.ws && t in s.ws && s.ws[h].output in s.positions && s.ws[h].output in s.shown
    ensures var s1, o := Retired(s, h, t), s.ws[h].output;
            var v1 := Replay(v, BagMoves(s.ws[h].members, t) + [Destroyed(h, formerIndex, o)]);
            MirrorsRest(v1, s1) && v1.stacks == v.stacks
  {
    var o := s.ws[h].output;
    ReplayBags(v, s.ws[h].members, t);
    ReplayMore(v, BagMoves(s.ws[h].members, t), Destroyed(h, formerIndex, o));
    AgreeUpdate(v.lists, s.positions, o, Remove(Positions(s, o), h));
  }

  /** Everything but the stacks is up to date. */
  ghost predicate MirrorsRest(v: View, s: State) {
    v.bags == s.owner && Agree(v.lists, s.positions) && Counts(v.issued, s.next)
  }

  /** Pushing the one output whose stack may differ restores the mirror. */
  lemma MirrorPushed(v: View, s: State, s1: State, o: int)
    requires MirrorsRest(v, s1) && Stacked(v.stacks, s)
    requires forall p :: p != o ==> StackFor(s1, p) == StackFor(s, p)
    ensures Mirrors(Observe(v, Push(s1, o)), s1)
    ensures StackFor(s1, o) == StackFor(s, o) ==> Mirrors(v, s1)
  {
    var v1 := Observe(v, Push(s1, o));
    forall p ensures At(v1.stacks, p) == StackFor(s1, p) {
      if p != o { assert At(v1.stacks, p) == At(v.stacks, p); }
    }
  }

  lemma MirrorRetired(v: View, s: State, h: Handle, t: Handle, formerIndex: int, changes: seq<Renumber>)
    requires Inv(s) && Mirrors(v, s)
    requires h in s.ws && t in s.ws && t != h && s.ws[t].output == s.ws[h].output
    ensures s.ws[h].output in s.positions && s.ws[h].output in s.shown
    ensures Mirrors(Replay(v, RetireEffects(s, h, t, formerIndex, changes)), Retired(s, h, t))
  {
    Listed(s, h);
    var o, s1 := s.ws[h].output, Retired(s, h, t);
    var a := BagMoves(s.ws[h].members, t) + [Destroyed(h, formerIndex, o)];
    MirrorMoved(v, s, h, t, formerIndex);
    var b := if changes != [] then [Renumbered(o, changes)] else [];
    ReplayNumbers(Replay(v, a), o, changes);
    ReplayConcat(v, a, b);
    ReplayConcat(v, a + b, StackNews(s, h, t));
    MirrorNews(Replay(v, a + b), s, h, t);
  }

  lemma ReplayNumbers(v: View, o: int, changes: seq<Renumber>)
    ensures Replay(v, if changes != [] then [Renumbered(o, changes)] else []) == v
  {
    ReplayOne(v, Renumbered(o, changes));
  }

  lemma MirrorNews(v: View, s: State, h: Handle, t: Handle)
    requires Inv(s) && h in s.ws && t in s.ws && t != h && s.ws[t].output == s.ws[h].output
    requires s.ws[h].output in s.positions && s.ws[h].output in s.shown
    requires MirrorsRest(v, Retired(s, h, t)) && Stacked(v.stacks, s)
    ensures Mirrors(Replay(v, StackNews(s, h, t)), Retired(s, h, t))
  {
    var o, s1 := s.ws[h].output, Retired(s, h, t);
    forall q ensures q != o ==> StackFor(s1, q) == StackFor(s, q) { RetiredStacks(s, h, t, q); }
    RetiredStacks(s, h, t, o);
    MirrorPushed(v, s, s1, o);
    ReplayNews(v, s, h, t);
  }

  lemma ReplayNews(v: View, s: State, h: Handle, t: Handle)
    requires h in s.ws && t in s.ws && s.ws[h].output in s.positions && s.ws[h].output in s.shown
    ensures var c := StackNews(s, h, t);
            Replay(v, c) == if c == [] then v else Observe(v, Push(Retired(s, h, t), s.ws[h].output))
  {
    var c := StackNews(s, h, t);
    if c != [] {
      ReplayOne(v, c[0]);
      if |c| == 2 {
        ReplayMore(v, [c[0]], c[1]);
        assert c == [c[0]] + [c[1]];
      }
    }
  }

  lemma MirrorRelocation(v: View, s: State, h: Handle, seed: string)
    requires Inv(s) && OnList(s, h) && Mirrors(v, s)
    ensures var o := s.ws[h].output;
            Mirrors(Replay(v, Announced(s, o, s.positions[o])), Relocation(s, h, seed).0)
  {
    var o := s.ws[h].output;
    ReplayOne(v, Created(s.next, 1, o, None));
    if |s.positions[o]| == 1 { MirrorAppended(v, s, Blank(o, seed), 1, None); }
  }

  lemma MirrorInto(v: View, r: Outcome, a: seq<Effect>, s: State, h: Handle, t: Handle,
                   formerIndex: int, changes: seq<Renumber>)
    requires Inv(s) && Mirrors(Replay(v, a), s)
    requires h in s.ws && t in s.ws && t != h && s.ws[t].output == s.ws[h].output
    requires s.ws[h].output in s.positions && s.ws[h].output in s.shown
    requires r == DestroyInto(a, s, h, t, formerIndex, changes)
    ensures Mirrors(Replay(v, r.effects), r.state)
  {
    MirrorRetired(Replay(v, a), s, h, t, formerIndex, changes);
    ReplayConcat(v, a, RetireEffects(s, h, t, formerIndex, changes));
  }

  lemma MirrorDestroy(v: View, s: State, h: Handle, seed: string)
    requires Inv(s) && h in s.ws && Mirrors(v, s)
    ensures var r := DestroyHandle(s, h, seed).0; Mirrors(Replay(v, r.effects), r.state)
  {
    var created, s1, t, formerIndex, changes := DestroyIs(s, h, seed);
    MirrorRelocation(v, s, h, seed);
    MirrorInto(v, DestroyHandle(s, h, seed).0, created, s1, h, t, formerIndex, changes);
  }

  lemma MirrorReap(v: View, s: State, h: Handle)
    requires Inv(s) && Mirrors(v, s)
    ensures Mirrors(Replay(v, ReapIfEmpty(s, h).effects), ReapIfEmpty(s, h).state)
  {
    if Reapable(s, h) { MirrorDestroy(v, s, h, ""); }
  }

  // ----- The transitions -----

  /** Effects a view has nothing to record for. */
  predicate Quiet(f: Effect) {
    !f.SetOutputStack? && !f.SetStateBag? && !f.DeleteStateBag? && !f.Created? && !f.Destroyed? && !f.Migrated?
  }

  lemma {:induction false} ReplayQuiet(v: View, fs: seq<Effect>)
    requires forall i :: 0 <= i < |fs| ==> Quiet(fs[i])
    ensures Replay(v, fs) == v
  {
    if fs != [] { ReplayQuiet(v, fs[..|fs| - 1]); }
  }

  lemma ReplayAmid(v: View, a: seq<Effect>, f: Effect, b: seq<Effect>)
    requires forall i :: 0 <= i < |a| ==> Quiet(a[i])
    requires forall i :: 0 <= i < |b| ==> Quiet(b[i])
    ensures Replay(v, a + [f] + b) == Observe(v, f)
  {
    ReplayQuiet(v, a);
    ReplayMore(v, a, f);
    ReplayConcat(v, a + [f], b);
    ReplayQuiet(Observe(v, f), b);
  }

  /** Stacks are up to date but for the outputs in `stale`. */
  ghost predicate StackedBut(stacks: map<int, seq<int>>, s: State, stale: set<int>) {
    forall o :: o !in stale ==> At(stacks, o) == StackFor(s, o)
  }

  lemma PushStale(stacks: map<int, seq<int>>, s: State, stale: set<int>, o: int)
    requires StackedBut(stacks, s, stale)
    ensures StackedBut(stacks[o := StackFor(s, o)], s, stale - {o})
  {
    var stacks' := stacks[o := StackFor(s, o)];
    forall p | p !in stale - {o} ensures At(stacks', p) == StackFor(s, p) {
      if p != o { assert At(stacks', p) == At(stacks, p); }
    }
  }

  lemma ReplayPush(v: View, s: State, stale: set<int>, o: int, push: bool)
    requires MirrorsRest(v, s) && StackedBut(v.stacks, s, stale)
    ensures var v' := Replay(v, PushIf(s, o, push));
            MirrorsRest(v', s) && StackedBut(v'.stacks, s, if push then stale - {o} else stale)
  {
    ReplayOne(v, Push(s, o));
    PushStale(v.stacks, s, stale, o);
  }

  lemma NoneStale(v: View, s: State, stale: set<int>)
    requires MirrorsRest(v, s) && StackedBut(v.stacks, s, stale) && stale == {}
    ensures Mirrors(v, s)
  {
  }

  /** A view that mirrors a state after some effects still does after an evaporation check. */
  lemma ThenReap(v: View, a: seq<Effect>, s: State, h: Handle)
    requires Inv(s) && Mirrors(Replay(v, a), s)
    ensures Mirrors(Replay(v, a + ReapIfEmpty(s, h).effects), ReapIfEmpty(s, h).state)
  {
    MirrorReap(Replay(v, a), s, h);
    ReplayConcat(v, a, ReapIfEmpty(s, h).effects);
  }

  lemma ThenAppended(v: View, a: seq<Effect>, s: State, w: Workspace, index: int, name: Option<string>)
    requires Inv(s) && Mirrors(Replay(v, a), s) && w.members == []
    ensures Mirrors(Replay(v, a + [Created(s.next, index, w.output, name)]), Appended(s, w))
  {
    MirrorAppended(Replay(v, a), s, w, index, name);
    ReplayMore(v, a, Created(s.next, index, w.output, name));
  }

  lemma MirrorCreate(v: View, s: State, name: Option<string>, o: int, preferred: Option<seq<string>>,
                     persistent: bool, outputName: string)
    requires Inv(s) && Mirrors(v, s)
    ensures var r := Create(s, name, o, preferred, persistent, outputName).0; Mirrors(Replay(v, r.effects), r.state)
  {
    if !(name.Some? && FindNamed(s, name.value, s.next).Some?) {
      var e := EnsureOutput(s, o, outputName);
      var w := Workspace(o, name, SeedList(preferred, outputName), [], false, persistent);
      MirrorNew(v, s, outputName, w, |Positions(e.state, o)| + 1);
      NewIs(s, name, o, preferred, persistent, outputName, e.state, e.effects, w);
    }
  }

  lemma MirrorNew(v: View, s: State, outputName: string, w: Workspace, index: int)
    requires Inv(s) && Mirrors(v, s) && w.members == []
    ensures var e := EnsureOutput(s, w.output, outputName);
            Mirrors(Replay(v, e.effects + [Created(e.state.next, index, w.output, w.name)]), Appended(e.state, w))
  {
    var e := EnsureOutput(s, w.output, outputName);
    EnsureOutputInv(s, w.output, outputName);
    MirrorEnsure(v, s, w.output, outputName);
    ThenAppended(v, e.effects, e.state, w, index, w.name);
  }

  lemma NewIs(s: State, name: Option<string>, o: int, preferred: Option<seq<string>>, persistent: bool,
              outputName: string, e: State, effects: seq<Effect>, w: Workspace)
    requires !(name.Some? && FindNamed(s, name.value, s.next).Some?)
    requires e == EnsureOutput(s, o, outputName).state && effects == EnsureOutput(s, o, outputName).effects
    requires w == Workspace(o, name, SeedList(preferred, outputName), [], false, persistent)
    ensures Create(s, name, o, preferred, persistent, outputName)
            == (Done(Appended(e, w), effects + [Created(e.next, |Positions(e, o)| + 1, o, name)]), e.next)
  {
  }

  lemma ReplayShowNews(v: View, s: State, s1: State, h: Handle, index: int, o: int)
    requires h in s.ws && o in s.shown
    ensures Replay(v, ShowNews(s, s1, h, index, o)) == Observe(v, Push(s1, o))
  {
    var a := (if s.ws[h].urgent then [UrgencyChanged(h, false, o)] else [])
             + [Hidden(s.shown[o], IndexIn(s1, s.shown[o], o), o), Shown(h, index, o)];
    ReplayAmid(v, a, Push(s1, o), [RequestFocusDecision]);
  }

  lemma MirrorNavigate(v: View, s: State, h: Handle, index: int, o: int, outputName: string)
    requires Inv(s) && Mirrors(v, s) && h in s.ws && s.ws[h].output == o && o in s.shown
    ensures var r := Navigate(s, h, index, o, outputName); Mirrors(Replay(v, r.effects), r.state)
  {
    var s1 := ShownNow(s, h, o, outputName);
    ShownNowInv(s, h, o, outputName);
    ShownStale(v, s, h, o, outputName);
    ReplayShowNews(v, s, s1, h, index, o);
    ThenReap(v, ShowNews(s, s1, h, index, o), s1, s.shown[o]);
  }

  lemma MirrorShow(v: View, s: State, index: int, o: int, outputName: string)
    requires Inv(s) && Mirrors(v, s)
    ensures var r := Show(s, index, o, outputName); Mirrors(Replay(v, r.effects), r.state)
  {
    var found := FindHandle(s, index, o);
    if found.Some? {
      OnOutput(s, o, found.value);
      if s.shown[o] != found.value { MirrorNavigate(v, s, found.value, index, o, outputName); }
    }
  }

  lemma ShownStale(v: View, s: State, h: Handle, o: int, outputName: string)
    requires Inv(s) && Mirrors(v, s) && h in s.ws && s.ws[h].output == o
    ensures var s1 := ShownNow(s, h, o, outputName); Mirrors(Observe(v, Push(s1, o)), s1)
  {
    var s1 := ShownNow(s, h, o, outputName);
    forall p | p !in {o} ensures At(v.stacks, p) == StackFor(s1, p) {
      assert At(v.stacks, p) == StackFor(s, p);
    }
    PushStale(v.stacks, s1, {o}, o);
    NoneStale(Observe(v, Push(s1, o)), s1, {o} - {o});
  }

  lemma MirrorSameShape(v: View, s: State, h: Handle, w: Workspace)
    requires Mirrors(v, s) && h in s.ws && w.members == s.ws[h].members
    ensures Mirrors(v, s.(ws := s.ws[h := w]))
  {
    var s1 := s.(ws := s.ws[h := w]);
    forall o ensures StackFor(s1, o) == StackFor(s, o) {
    }
    SameStacks(v.stacks, s, s1);
  }

  lemma RehousedStacks(s: State, x: int, from: Handle, t: Handle, outputName: string, o: int)
    requires Inv(s) && from in s.ws && t in s.ws && from != t
    requires o in s.shown ==> s.shown[o] != from && s.shown[o] != t
    ensures StackFor(Rehoused(s, x, from, t, outputName), o) == StackFor(s, o)
  {
  }

  lemma ReplayMoveBag(v: View, x: int, t: Handle, moved: Effect)
    requires Quiet(moved)
    ensures Replay(v, [SetStateBag(x, t), moved]) == v.(bags := v.bags[x := t])
  {
    ReplayOne(v, SetStateBag(x, t));
    ReplayMore(v, [SetStateBag(x, t)], moved);
    assert [SetStateBag(x, t), moved] == [SetStateBag(x, t)] + [moved];
  }

  /** The outputs whose stacks a move leaves out of date. */
  lemma RehousedStale(stacks: map<int, seq<int>>, s: State, x: int, from: Handle, t: Handle, outputName: string)
    requires Inv(s) && Stacked(stacks, s) && from in s.ws && t in s.ws && from != t
    requires s.ws[from].output in s.shown && s.ws[t].output in s.shown
    ensures var home, o := s.ws[from].output, s.ws[t].output;
            StackedBut(stacks, Rehoused(s, x, from, t, outputName),
                       (if s.shown[home] == from then {home} else {}) + (if s.shown[o] == t then {o} else {}))
  {
    var home, o, s1 := s.ws[from].output, s.ws[t].output, Rehoused(s, x, from, t, outputName);
    forall p | p !in (if s.shown[home] == from then {home} else {}) + (if s.shown[o] == t then {o} else {})
      ensures At(stacks, p) == StackFor(s1, p)
    {
      if p in s.shown { Showing(s, p); }
      RehousedStacks(s, x, from, t, outputName, p);
    }
  }

  lemma PushTwo(v: View, s: State, a: int, b: int, pa: bool, pb: bool)
    requires MirrorsRest(v, s)
    requires StackedBut(v.stacks, s, (if pa then {a} else {}) + (if pb then {b} else {}))
    ensures Mirrors(Replay(v, PushIf(s, a, pa) + PushIf(s, b, pb)), s)
  {
    var stale := (if pa then {a} else {}) + (if pb then {b} else {});
    ReplayPush(v, s, stale, a, pa);
    var stale1 := if pa then stale - {a} else stale;
    ReplayPush(Replay(v, PushIf(s, a, pa)), s, stale1, b, pb);
    ReplayConcat(v, PushIf(s, a, pa), PushIf(s, b, pb));
    NoneStale(Replay(v, PushIf(s, a, pa) + PushIf(s, b, pb)), s, if pb then stale1 - {b} else stale1);
  }

  lemma ReplayMove(v: View, s: State, x: int, t: Handle, moved: Effect, a: int, b: int, pa: bool, pb: bool)
    requires Quiet(moved) && MirrorsRest(v.(bags := v.bags[x := t]), s)
    requires StackedBut(v.stacks, s, (if pa then {a} else {}) + (if pb then {b} else {}))
    ensures Mirrors(Replay(v, [SetStateBag(x, t), moved] + (PushIf(s, a, pa) + PushIf(s, b, pb))), s)
  {
    ReplayMoveBag(v, x, t, moved);
    PushTwo(v.(bags := v.bags[x := t]), s, a, b, pa, pb);
    ReplayConcat(v, [SetStateBag(x, t), moved], PushIf(s, a, pa) + PushIf(s, b, pb));
  }

  lemma RehousedRest(v: View, s: State, x: int, from: Handle, t: Handle, outputName: string)
    requires MirrorsRest(v, s) && from in s.ws && t in s.ws
    ensures MirrorsRest(v.(bags := v.bags[x := t]), Rehoused(s, x, from, t, outputName))
  {
  }

  lemma MirrorRehoused(v: View, s: State, x: int, t: Handle, index: int, outputName: string)
    requires Inv(s) && Mirrors(v, s) && x in s.owner && s.owner[x] in s.ws && s.owner[x] != t && t in s.ws
    requires s.ws[s.owner[x]].output in s.shown && s.ws[t].output in s.shown
    ensures var s1 := Rehoused(s, x, s.owner[x], t, outputName);
            Mirrors(Replay(v, MoveNews(s, s1, x, t, index)), s1)
  {
    var from := s.owner[x];
    var home, o, s1 := s.ws[from].output, s.ws[t].output, Rehoused(s, x, from, t, outputName);
    var moved := WindowMoved(x, from, t, IndexIn(s, from, home), index, home, o);
    RehousedStale(v.stacks, s, x, from, t, outputName);
    RehousedRest(v, s, x, from, t, outputName);
    var pa := s.shown[home] == from;
    var pb := (o != home || !pa) && s.shown[o] == t;
    assert pb == (s.shown[o] == t);
    ReplayMove(v, s1, x, t, moved, home, o, pa, pb);
    assert MoveNews(s, s1, x, t, index) == [SetStateBag(x, t), moved] + (PushIf(s1, home, pa) + PushIf(s1, o, pb));
  }

  lemma MirrorMoveTo(v: View, s: State, r: Outcome, x: int, t: Handle, index: int, outputName: string)
    requires Inv(s) && Mirrors(v, s) && x in s.owner && t in s.ws && s.owner[x] != t
    requires r == MoveTo(s, x, t, index, outputName)
    ensures Mirrors(Replay(v, r.effects), r.state)
  {
    Owner(s, x);
    Listed(s, s.owner[x]);
    Listed(s, t);
    RehousedInv(s, x, t, outputName);
    var s1 := Rehoused(s, x, s.owner[x], t, outputName);
    MirrorRehoused(v, s, x, t, index, outputName);
    ThenReap(v, MoveNews(s, s1, x, t, index), s1, s.owner[x]);
  }

  lemma MoveWindowIs(s: State, x: int, index: int, o: int, outputName: string, t: Handle)
    requires Inv(s) && FindHandle(s, index, o) == Some(t) && x in s.owner && s.owner[x] != t
    ensures t in s.ws && MoveWindow(s, x, index, o, outputName) == MoveTo(s, x, t, index, outputName)
  {
    OnOutput(s, o, t);
  }

  lemma MoveWindowOk(s: State, x: int, index: int, o: int, outputName: string)
    requires Inv(s)
    ensures MoveWindow(s, x, index, o, outputName).ok <==> FindHandle(s, index, o).Some? && x in s.owner
  {
  }

  lemma MoveWindowIdle(s: State, x: int, index: int, o: int, outputName: string)
    requires Inv(s)
    requires FindHandle(s, index, o).None? || x !in s.owner || s.owner[x] == FindHandle(s, index, o).value
    ensures var r := MoveWindow(s, x, index, o, outputName); r.state == s && r.effects == []
  {
  }

  lemma MirrorMove(v: View, s: State, x: int, index: int, o: int, outputName: string)
    requires Inv(s) && Mirrors(v, s)
    ensures var r := MoveWindow(s, x, index, o, outputName); Mirrors(Replay(v, r.effects), r.state)
  {
    var found := FindHandle(s, index, o);
    if found.Some? && x in s.owner && s.owner[x] != found.value {
      MoveWindowIs(s, x, index, o, outputName, found.value);
      MirrorMoveTo(v, s, MoveWindow(s, x, index, o, outputName), x, found.value, index, outputName);
    } else {
      MoveWindowIdle(s, x, index, o, outputName);
    }
  }

  /** One workspace's member list changes, and its output is pushed if it shows it. */
  lemma MirrorMembers(v: View, s: State, s1: State, h: Handle)
    requires Inv(s) && h in s.ws && s1.ws.Keys == s.ws.Keys && s1.shown == s.shown
    requires forall k :: k in s.ws && k != h ==> s1.ws[k].members == s.ws[k].members
    requires MirrorsRest(v, s1) && Stacked(v.stacks, s)
    requires s.ws[h].output in s.shown
    ensures var o := s.ws[h].output; Mirrors(Replay(v, PushIf(s1, o, s.shown[o] == h)), s1)
  {
    var o := s.ws[h].output;
    var push := s.shown[o] == h;
    var stale := if push then {o} else {};
    forall p | p !in stale ensures At(v.stacks, p) == StackFor(s1, p) {
      if p in s.shown { Showing(s, p); }
      assert At(v.stacks, p) == StackFor(s, p);
    }
    ReplayPush(v, s1, stale, o, push);
    NoneStale(Replay(v, PushIf(s1, o, push)), s1, if push then stale - {o} else stale);
  }

  lemma MirrorRearranged(v: View, s: State, h: Handle, members: seq<int>)
    requires Inv(s) && Mirrors(v, s) && h in s.ws && s.ws[h].output in s.shown
    ensures var r := Rearranged(s, h, members); Mirrors(Replay(v, r.effects), r.state)
  {
    MirrorMembers(v, s, WithMembers(s, h, members), h);
  }

  lemma MirrorReorder(v: View, s: State, x: int, op: ReorderOp)
    requires Inv(s) && Mirrors(v, s)
    ensures var r := Reorder(s, x, op); Mirrors(Replay(v, r.effects), r.state)
  {
    if x in s.owner {
      Owner(s, x);
      var h := s.owner[x];
      Listed(s, h);
      var m := s.ws[h].members;
      var i := IndexOf(m, x);
      var j := ReorderTarget(op, i, |m|);
      if i != j { MirrorRearranged(v, s, h, Reordered(m, i, j)); }
    }
  }

  lemma MirrorJoined(v: View, s: State, x: int, h: Handle, tail: bool)
    requires Inv(s) && Mirrors(v, s) && h in s.ws && s.ws[h].output in s.shown
    ensures Mirrors(Replay(v, JoinNews(s, x, h, tail)), Joined(s, x, h, tail))
  {
    var s1, o := Joined(s, x, h, tail), s.ws[h].output;
    ReplayOne(v, SetStateBag(x, h));
    MirrorMembers(Observe(v, SetStateBag(x, h)), s, s1, h);
    ReplayConcat(v, [SetStateBag(x, h)], PushIf(s1, o, s.shown[o] == h));
  }

  lemma ThenJoined(v: View, a: seq<Effect>, s: State, x: int, h: Handle, tail: bool)
    requires Inv(s) && Mirrors(Replay(v, a), s) && h in s.ws && s.ws[h].output in s.shown
    ensures Mirrors(Replay(v, a + JoinNews(s, x, h, tail)), Joined(s, x, h, tail))
  {
    MirrorJoined(Replay(v, a), s, x, h, tail);
    ReplayConcat(v, a, JoinNews(s, x, h, tail));
  }

  lemma MirrorMapAt(v: View, s: State, x: int, h: Handle, tail: bool)
    requires Inv(s) && Mirrors(v, s)
    ensures var r := ApplyMapAt(s, x, h, tail); Mirrors(Replay(v, r.effects), r.state)
  {
    if x !in s.owner && h in s.ws {
      Listed(s, h);
      MirrorJoined(v, s, x, h, tail);
    }
  }

  lemma MirrorMap(v: View, s: State, x: int, o: int, outputName: string, tail: bool)
    requires Inv(s) && Mirrors(v, s)
    ensures var r := ApplyMap(s, x, o, outputName, tail); Mirrors(Replay(v, r.effects), r.state)
  {
    if x !in s.owner {
      var e := EnsureOutput(s, o, outputName);
      EnsureOutputInv(s, o, outputName);
      MirrorEnsure(v, s, o, outputName);
      Showing(e.state, o);
      ThenJoined(v, e.effects, e.state, x, e.state.shown[o], tail);
    }
  }

  lemma MirrorTaken(v: View, s: State, x: int, h: Handle, members: seq<int>)
    requires Inv(s) && Mirrors(v, s) && h in s.ws && s.ws[h].output in s.shown
    ensures var s1, o := WithMembers(s, h, members).(owner := s.owner - {x}), s.ws[h].output;
            Mirrors(Replay(v, [DeleteStateBag(x)] + PushIf(s1, o, s.shown[o] == h)), s1)
  {
    var s1, o := WithMembers(s, h, members).(owner := s.owner - {x}), s.ws[h].output;
    ReplayOne(v, DeleteStateBag(x));
    MirrorMembers(Observe(v, DeleteStateBag(x)), s, s1, h);
    ReplayConcat(v, [DeleteStateBag(x)], PushIf(s1, o, s.shown[o] == h));
  }

  lemma MirrorUnmap(v: View, s: State, x: int)
    requires Inv(s) && Mirrors(v, s)
    ensures var r := ApplyUnmap(s, x); Mirrors(Replay(v, r.effects), r.state)
  {
    if x in s.owner {
      Owner(s, x);
      var h := s.owner[x];
      Listed(s, h);
      MirrorTaken(v, s, x, h, Remove(s.ws[h].members, x));
      LeftInv(s, x);
      var o, s1 := s.ws[h].output, Left(s, x);
      ThenReap(v, [DeleteStateBag(x)] + PushIf(s1, o, s.shown[o] == h), s1, h);
    }
  }
}
