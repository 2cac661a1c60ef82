/** Every effect says something true of the registry before and after its transition, indices included. */
module Announcements {
  import opened Seqs
  import opened Registry
  import opened Hotplug
  import opened Settling
  import opened Mirror
  import opened MirrorHotplug
  import opened Runs
  import opened Lifecycle
  import opened Outcomes
  import opened Requests
  import opened Homes

  /** The output's windows as a new compositor would be told them. */
  ghost predicate OnScreenAre(r: State, o: int, ids: seq<int>) {
    if o in r.shown then r.shown[o] in r.ws && ids == r.ws[r.shown[o]].members else ids == []
  }

  /** What the effect claims, `at` being the state whose indices a shown or hidden event gives. */
  ghost predicate Holds(s: State, r: State, at: State, f: Effect) {
    match f
    case SetOutputStack(o, ids) => OnScreenAre(r, o, ids)
    case SetStateBag(x, h) => x in r.owner && r.owner[x] == h
    case DeleteStateBag(x) => x in s.owner && x !in r.owner
    case RequestFocusDecision => r.shown != s.shown
    case Created(h, i, o, name) =>
      h !in s.ws && h in r.ws && r.ws[h].output == o && r.ws[h].name == name && FindIndex(r, h, o) == Some(i)
    case Shown(h, i, o) =>
      && o in r.shown && r.shown[o] == h && !(o in s.shown && s.shown[o] == h)
      && FindIndex(at, h, o) == Some(i)
    case Hidden(h, i, o) =>
      && o in s.shown && s.shown[o] == h && !(o in r.shown && r.shown[o] == h)
      && (if h in at.ws && at.ws[h].output == o then FindIndex(at, h, o) == Some(i) else i == 0)
    case Destroyed(h, i, o) =>
      h in s.ws && h !in r.ws && s.ws[h].output == o && FindIndex(s, h, o) == Some(i)
    case Renumbered(o, changes) =>
      forall c :: c in changes ==>
        c.oldIndex != c.newIndex && FindIndex(s, c.handle, o) == Some(c.oldIndex) && FindIndex(r, c.handle, o) == Some(c.newIndex)
    case UrgencyChanged(h, urgent, o) =>
      h in s.ws && h in r.ws && s.ws[h].output == o && s.ws[h].urgent != urgent && r.ws[h].urgent == urgent
    case Renamed(h, i, o, name) =>
      h in s.ws && h in r.ws && s.ws[h].name != name && r.ws[h].name == name && FindIndex(s, h, o) == Some(i)
    case WindowMoved(x, from, to, i, j, home, o) =>
      && x in s.owner && s.owner[x] == from && x in r.owner && r.owner[x] == to && from != to
      && from in s.ws && s.ws[from].output == home && FindIndex(s, from, home) == Some(i)
      && to in s.ws && s.ws[to].output == o && FindIndex(s, to, o) == Some(j)
    case Migrated(h, from, to) =>
      h in s.ws && h in r.ws && s.ws[h].output == from && r.ws[h].output == to && from != to
  }

  ghost predicate AllHold(s: State, r: State, at: State, fs: seq<Effect>) {
    forall i :: 0 <= i < |fs| ==> Holds(s, r, at, fs[i])
  }

  lemma Together(s: State, r: State, at: State, a: seq<Effect>, b: seq<Effect>)
    requires AllHold(s, r, at, a) && AllHold(s, r, at, b)
    ensures AllHold(s, r, at, a + b)
  {
  }

  lemma One(s: State, r: State, at: State, f: Effect)
    requires Holds(s, r, at, f)
    ensures AllHold(s, r, at, [f])
  {
  }

  lemma PushHolds(s: State, r: State, at: State, o: int)
    requires Inv(r)
    ensures AllHold(s, r, at, [Push(r, o)])
  {
    if o in r.shown { Showing(r, o); }
  }

  lemma PushIfHolds(s: State, r: State, at: State, o: int, push: bool)
    requires Inv(r)
    ensures AllHold(s, r, at, PushIf(r, o, push))
  {
    PushHolds(s, r, at, o);
  }

  lemma IndexOfHandle(s: State, h: Handle)
    requires Inv(s) && h in s.ws
    ensures var o := s.ws[h].output; FindIndex(s, h, o) == Some(IndexIn(s, h, o)) && IndexIn(s, h, o) == IndexOf(Positions(s, o), h) + 1
  {
    Listed(s, h);
  }

  lemma OnlyIndex(s: State, h: Handle, o: int)
    requires Positions(s, o) == [h]
    ensures FindIndex(s, h, o) == Some(1)
  {
    IndexOfDistinct([h], 0);
  }

  lemma NextIsNew(s: State)
    requires Inv(s)
    ensures s.next !in s.ws && forall o :: o in s.shown ==> s.shown[o] != s.next
  {
    forall o | o in s.shown ensures s.shown[o] != s.next { Showing(s, o); }
  }

  // ----- Creating -----

  /** A first workspace, announced and shown. */
  lemma PairHolds(s: State, r: State, h: Handle, o: int)
    requires h !in s.ws && h in r.ws && r.ws[h].output == o && r.ws[h].name == None && FindIndex(r, h, o) == Some(1)
    requires o in r.shown && r.shown[o] == h && !(o in s.shown && s.shown[o] == h)
    ensures AllHold(s, r, r, [Created(h, 1, o, None), Shown(h, 1, o)])
  {
  }

  lemma FirstIs(s: State, o: int, seed: string)
    requires Positions(s, o) == []
    ensures var r := EnsureOutput(s, o, seed).state; var h := s.next;
            && Positions(r, o) == [h] && r.next == h + 1
            && h in r.ws && r.ws[h].output == o && r.ws[h].name == None && o in r.shown && r.shown[o] == h
            && EnsureOutput(s, o, seed).effects == [Created(h, 1, o, None), Shown(h, 1, o)]
  {
    assert [] + [s.next] == [s.next];
  }

  lemma EnsureHolds(s: State, o: int, seed: string)
    requires Inv(s)
    ensures var r := EnsureOutput(s, o, seed); AllHold(s, r.state, r.state, r.effects)
  {
    if Positions(s, o) == [] {
      var r := EnsureOutput(s, o, seed).state;
      FirstIs(s, o, seed);
      NextIsNew(s);
      OnlyIndex(r, s.next, o);
      PairHolds(s, r, s.next, o);
    }
  }

  lemma AppendedIs(e: State, w: Workspace)
    ensures var r := Appended(e, w);
            && Positions(r, w.output) == Positions(e, w.output) + [e.next]
            && e.next in r.ws && r.ws[e.next] == w
            && (forall k :: k in e.ws && k != e.next ==> k in r.ws && r.ws[k] == e.ws[k])
            && (w.output in e.shown ==> r.shown == e.shown)
  {
  }

  /** What `ensureOutput` said stays true when another workspace is appended. */
  lemma EnsureStillHolds(s: State, o: int, seed: string, w: Workspace)
    requires Inv(s) && w.output == o
    ensures var e := EnsureOutput(s, o, seed);
            AllHold(s, Appended(e.state, w), Appended(e.state, w), e.effects)
  {
    if Positions(s, o) == [] {
      var e := EnsureOutput(s, o, seed).state;
      FirstIs(s, o, seed);
      NextIsNew(s);
      AppendedIs(e, w);
      FirstOfTwo(Appended(e, w), s.next, e.next, o);
      PairHolds(s, Appended(e, w), s.next, o);
    }
  }

  lemma FirstOfTwo(r: State, h: Handle, k: Handle, o: int)
    requires Positions(r, o) == [h] + [k]
    ensures FindIndex(r, h, o) == Some(1)
  {
    IndexOfPrefix([h], [k], h);
    IndexOfDistinct([h], 0);
  }

  lemma LastHolds(s: State, e: State, w: Workspace)
    requires Inv(e) && e.next !in s.ws
    ensures var r := Appended(e, w); AllHold(s, r, r, [Created(e.next, |Positions(e, w.output)| + 1, w.output, w.name)])
  {
    var p, r := Positions(e, w.output), Appended(e, w);
    if e.next in p { OnOutput(e, w.output, e.next); }
    AppendedIs(e, w);
    DistinctAppend(p, e.next);
    IndexOfDistinct(p + [e.next], |p|);
    One(s, r, r, Created(e.next, |p| + 1, w.output, w.name));
  }

  lemma EnsureNext(s: State, o: int, seed: string)
    requires Inv(s)
    ensures var e := EnsureOutput(s, o, seed).state; Inv(e) && e.next !in s.ws
  {
    EnsureOutputInv(s, o, seed);
    NextIsNew(EnsureOutput(s, o, seed).state);
  }

  lemma CreateHolds(s: State, name: Option<string>, o: int, preferred: Option<seq<string>>, persistent: bool, outputName: string)
    requires Inv(s)
    ensures var r := Create(s, name, o, preferred, persistent, outputName).0; AllHold(s, r.state, r.state, r.effects)
  {
    if !(name.Some? && FindNamed(s, name.value, s.next).Some?) {
      var e := EnsureOutput(s, o, outputName);
      var w := Workspace(o, name, SeedList(preferred, outputName), [], false, persistent);
      NewIs(s, name, o, preferred, persistent, outputName, e.state, e.effects, w);
      NewHolds(s, outputName, w);
    }
  }

  lemma NewHolds(s: State, outputName: string, w: Workspace)
    requires Inv(s)
    ensures var e := EnsureOutput(s, w.output, outputName);
            var r := Appended(e.state, w);
            AllHold(s, r, r, e.effects + [Created(e.state.next, |Positions(e.state, w.output)| + 1, w.output, w.name)])
  {
    var e := EnsureOutput(s, w.output, outputName);
    var r := Appended(e.state, w);
    EnsureNext(s, w.output, outputName);
    EnsureStillHolds(s, w.output, outputName, w);
    LastHolds(s, e.state, w);
    Together(s, r, r, e.effects, [Created(e.state.next, |Positions(e.state, w.output)| + 1, w.output, w.name)]);
  }

  // ----- Destroying -----

  lemma BagsHold(s: State, h: Handle, t: Handle, at: State, r: State)
    requires h in s.ws && t in s.ws && s.ws[h].output in s.positions && s.ws[h].output in s.shown && r == Retired(s, h, t)
    ensures AllHold(s, r, at, BagMoves(s.ws[h].members, t))
  {
  }

  lemma ReplacementIs(s: State, o: int, seed: string, h: Handle, t: Handle, s1: State)
    requires h in s.ws && s.ws[h].output == o && OnList(s, h) && |s.positions[o]| == 1 && (s1, t) == Relocation(s, h, seed)
    requires h in s1.ws && t in s1.ws && t != h && o in s1.positions && o in s1.shown
    ensures t == s.next && t in Retired(s1, h, t).ws && Retired(s1, h, t).ws[t].output == o && Retired(s1, h, t).ws[t].name == None
  {
  }

  lemma ReplacementHolds(s: State, h: Handle, seed: string, s1: State, t: Handle, r: State)
    requires Inv(s) && OnList(s, h) && (s1, t) == Relocation(s, h, seed) && h in s1.ws && t in s1.ws && t != h
    requires s.ws[h].output in s1.positions && s.ws[h].output in s1.shown && s1.ws[h].output == s.ws[h].output
    requires r == Retired(s1, h, t) && r == DestroyHandle(s, h, seed).0.state
    ensures var o := s.ws[h].output; AllHold(s, r, r, Announced(s, o, s.positions[o]))
  {
    var o := s.ws[h].output;
    if |s.positions[o]| == 1 {
      DestroyPositions(s, h, seed);
      NextIsNew(s);
      OnlyIndex(r, s.next, o);
      ReplacementIs(s, o, seed, h, t, s1);
      One(s, r, r, Created(s.next, 1, o, None));
    }
  }

  lemma GoneHolds(s: State, h: Handle, s1: State, t: Handle, r: State, i: int)
    requires h in s.ws && h in s1.ws && t in s1.ws && t != h && s1.ws[h].output in s1.positions && s1.ws[h].output in s1.shown
    requires r == Retired(s1, h, t) && FindIndex(s, h, s.ws[h].output) == Some(i)
    ensures AllHold(s, r, r, [Destroyed(h, i, s.ws[h].output)])
  {
  }

  lemma StackNewsHolds(s: State, s1: State, h: Handle, t: Handle, r: State)
    requires h in s1.ws && t in s1.ws && t != h && s1.ws[h].output in s1.positions && s1.ws[h].output in s1.shown
    requires r == Retired(s1, h, t) && Inv(r) && s1.shown == s.shown
    ensures AllHold(s, r, r, StackNews(s1, h, t))
  {
    var o := s1.ws[h].output;
    PushHolds(s, r, r, o);
    if s1.shown[o] == h { NewlyShown(s, s1, h, t, r); }
  }

  lemma NewlyShown(s: State, s1: State, h: Handle, t: Handle, r: State)
    requires h in s1.ws && t in s1.ws && t != h && s1.ws[h].output in s1.positions && s1.ws[h].output in s1.shown
    requires r == Retired(s1, h, t) && s1.shown == s.shown && s1.shown[s1.ws[h].output] == h
    ensures r.shown != s.shown
  {
    assert r.shown[s1.ws[h].output] == t;
  }

  /** Effects that do not speak of the state before. */
  lemma BeforeIdle(s: State, s1: State, r: State, at: State, members: seq<int>, t: Handle)
    requires AllHold(s1, r, at, BagMoves(members, t))
    ensures AllHold(s, r, at, BagMoves(members, t))
  {
    forall i | 0 <= i < |BagMoves(members, t)| ensures Holds(s, r, at, BagMoves(members, t)[i]) {
      assert Holds(s1, r, at, BagMoves(members, t)[i]);
    }
  }

  lemma RenumberHolds(s: State, h: Handle, seed: string, r: State, changes: seq<Renumber>)
    requires Inv(s) && h in s.ws && r == DestroyHandle(s, h, seed).0.state && changes == DestroyHandle(s, h, seed).1
    ensures AllHold(s, r, r, [Renumbered(s.ws[h].output, changes)])
  {
    var o := s.ws[h].output;
    forall c | c in changes
      ensures c.oldIndex != c.newIndex && FindIndex(s, c.handle, o) == Some(c.oldIndex) && FindIndex(r, c.handle, o) == Some(c.newIndex)
    {
      DestroyRenumbers(s, h, seed, c);
    }
    One(s, r, r, Renumbered(o, changes));
  }

  lemma Four(s: State, r: State, at: State, a: seq<Effect>, b: seq<Effect>, c: seq<Effect>, d: seq<Effect>, e: seq<Effect>)
    requires AllHold(s, r, at, a) && AllHold(s, r, at, b) && AllHold(s, r, at, c) && AllHold(s, r, at, d) && AllHold(s, r, at, e)
    ensures AllHold(s, r, at, a + (b + c + d + e))
  {
    Together(s, r, at, b, c);
    Together(s, r, at, b + c, d);
    Together(s, r, at, b + c + d, e);
    Together(s, r, at, a, b + c + d + e);
  }

  lemma PlaceIsIndex(s: State, h: Handle)
    requires OnList(s, h)
    ensures FindIndex(s, h, s.ws[h].output) == Some(IndexOf(s.positions[s.ws[h].output], h) + 1)
  {
  }

  /** A destroy in its parts. */
  lemma DestroyParts(s: State, h: Handle, seed: string)
    returns (created: seq<Effect>, s1: State, t: Handle, formerIndex: int, changes: seq<Renumber>, r: State)
    requires Inv(s) && h in s.ws
    ensures OnList(s, h) && (s1, t) == Relocation(s, h, seed) && created == Announced(s, s.ws[h].output, s.positions[s.ws[h].output])
    ensures h in s1.ws && t in s1.ws && t != h && s1.ws[h] == s.ws[h] && s1.shown == s.shown
    ensures s1.ws[h].output in s1.positions && s1.ws[h].output in s1.shown
    ensures r == DestroyHandle(s, h, seed).0.state && changes == DestroyHandle(s, h, seed).1
    ensures r == Retired(s1, h, t) && Inv(r)
    ensures DestroyHandle(s, h, seed).0.effects == created + RetireEffects(s1, h, t, formerIndex, changes)
    ensures FindIndex(s, h, s.ws[h].output) == Some(formerIndex)
  {
    created, s1, t, formerIndex, changes := DestroyIs(s, h, seed);
    PlaceIsIndex(s, h);
    r := DestroyHandle(s, h, seed).0.state;
    DestroyHandleInv(s, h, seed);
    RelocationKeeps(s, h, seed, s1, t);
  }

  lemma DestroyHolds(s: State, h: Handle, seed: string)
    requires Inv(s) && h in s.ws
    ensures var r := DestroyHandle(s, h, seed).0; AllHold(s, r.state, r.state, r.effects)
  {
    var fs, r := DestroySays(s, h, seed);
  }

  /** Its effects and its state, by name. */
  lemma DestroySays(s: State, h: Handle, seed: string) returns (fs: seq<Effect>, r: State)
    requires Inv(s) && h in s.ws
    ensures fs == DestroyHandle(s, h, seed).0.effects && r == DestroyHandle(s, h, seed).0.state
    ensures AllHold(s, r, r, fs)
  {
    var created, s1, t, formerIndex, changes;
    created, s1, t, formerIndex, changes, r := DestroyPrelude(s, h, seed);
    RetireHolds(s, h, s1, t, formerIndex, changes, r, created);
    fs := created + RetireEffects(s1, h, t, formerIndex, changes);
  }

  /** The parts, of which the replacement and the renumbering are told truly. */
  lemma DestroyPrelude(s: State, h: Handle, seed: string)
    returns (created: seq<Effect>, s1: State, t: Handle, formerIndex: int, changes: seq<Renumber>, r: State)
    requires Inv(s) && h in s.ws
    ensures Inv(r) && h in s1.ws && t in s1.ws && t != h && s1.shown == s.shown && s1.ws[h] == s.ws[h]
    ensures s1.ws[h].output in s1.positions && s1.ws[h].output in s1.shown && r == Retired(s1, h, t)
    ensures FindIndex(s, h, s.ws[h].output) == Some(formerIndex)
    ensures AllHold(s, r, r, [Renumbered(s.ws[h].output, changes)]) && AllHold(s, r, r, created)
    ensures r == DestroyHandle(s, h, seed).0.state
    ensures DestroyHandle(s, h, seed).0.effects == created + RetireEffects(s1, h, t, formerIndex, changes)
  {
    created, s1, t, formerIndex, changes, r := DestroyParts(s, h, seed);
    ReplacementHolds(s, h, seed, s1, t, r);
    RenumberHolds(s, h, seed, r, changes);
  }

  lemma RetireHolds(s: State, h: Handle, s1: State, t: Handle, formerIndex: int, changes: seq<Renumber>, r: State, created: seq<Effect>)
    requires h in s.ws && Inv(r) && h in s1.ws && t in s1.ws && t != h && s1.shown == s.shown && s1.ws[h] == s.ws[h]
    requires s1.ws[h].output in s1.positions && s1.ws[h].output in s1.shown && r == Retired(s1, h, t)
    requires FindIndex(s, h, s.ws[h].output) == Some(formerIndex)
    requires AllHold(s, r, r, [Renumbered(s.ws[h].output, changes)]) && AllHold(s, r, r, created)
    ensures AllHold(s, r, r, created + RetireEffects(s1, h, t, formerIndex, changes))
  {
    var a, b := BagMoves(s1.ws[h].members, t), [Destroyed(h, formerIndex, s.ws[h].output)];
    var c := if changes != [] then [Renumbered(s.ws[h].output, changes)] else [];
    BagsHold(s1, h, t, r, r);
    BeforeIdle(s, s1, r, r, s1.ws[h].members, t);
    GoneHolds(s, h, s1, t, r, formerIndex);
    StackNewsHolds(s, s1, h, t, r);
    Four(s, r, r, created, a, b, c, StackNews(s1, h, t));
  }

  // ----- Evaporation -----

  /** An evaporation says who went and who was renumbered, nothing else. */
  ghost predicate Partings(fs: seq<Effect>) { forall i :: 0 <= i < |fs| ==> fs[i].Destroyed? || fs[i].Renumbered? }

  lemma ReapSays(s: State, h: Handle)
    requires Inv(s)
    ensures Partings(ReapIfEmpty(s, h).effects)
    ensures AllHold(s, ReapIfEmpty(s, h).state, ReapIfEmpty(s, h).state, ReapIfEmpty(s, h).effects)
  {
    if Reapable(s, h) {
      Listed(s, h);
      NotAlone(s, h);
      DestroyHolds(s, h, "");
      var created, s1, t, formerIndex, changes, r := DestroyParts(s, h, "");
      QuietRetire(s1, h, t, formerIndex, changes);
    }
  }

  lemma QuietRetire(s: State, h: Handle, t: Handle, formerIndex: int, changes: seq<Renumber>)
    requires h in s.ws && t in s.ws && s.ws[h].output in s.positions && s.ws[h].output in s.shown
    requires s.ws[h].members == [] && s.shown[s.ws[h].output] != h
    ensures Partings(RetireEffects(s, h, t, formerIndex, changes))
  {
  }

  /** The state before may be any with the same lists. */
  lemma Earlier(s: State, s1: State, r: State, at: State, fs: seq<Effect>)
    requires AllHold(s1, r, r, fs) && Partings(fs) && s.positions == s1.positions && s.ws.Keys == s1.ws.Keys
    requires forall k :: k in s.ws ==> s.ws[k].output == s1.ws[k].output
    ensures AllHold(s, r, at, fs)
  {
    forall i | 0 <= i < |fs| ensures Holds(s, r, at, fs[i]) {
      assert Holds(s1, r, r, fs[i]);
      SameIndices(s, s1, fs[i].output);
    }
  }

  lemma SameIndices(s: State, s1: State, o: int)
    requires s.positions == s1.positions
    ensures forall k :: FindIndex(s, k, o) == FindIndex(s1, k, o)
  {
  }

  /** What the plain part of a transition says, then the evaporation. */
  lemma ThenReaps(s: State, s1: State, h: Handle, at: State, fs: seq<Effect>)
    requires Inv(s1) && s.positions == s1.positions && s.ws.Keys == s1.ws.Keys
    requires forall k :: k in s.ws ==> s.ws[k].output == s1.ws[k].output
    requires AllHold(s, ReapIfEmpty(s1, h).state, at, fs)
    ensures AllHold(s, ReapIfEmpty(s1, h).state, at, fs + ReapIfEmpty(s1, h).effects)
  {
    var r := ReapIfEmpty(s1, h);
    ReapSays(s1, h);
    Earlier(s, s1, r.state, at, r.effects);
    Together(s, r.state, at, fs, r.effects);
  }

  /** Stacks outlast an evaporation. */
  lemma StackOutlasts(s: State, s1: State, r: State, h: Handle, at: State, o: int)
    requires AtMostReaped(s1, r, h) && Inv(s1) && Inv(r)
    ensures AllHold(s, r, at, [Push(s1, o)])
  {
    if o in r.shown {
      Showing(r, o);
      Showing(s1, o);
    }
  }

  // ----- Showing -----

  lemma ShowHolds(s: State, index: int, o: int, outputName: string)
    requires Inv(s)
    ensures var r := Show(s, index, o, outputName); AllHold(s, r.state, s, r.effects)
  {
    var found := FindHandle(s, index, o);
    if found.Some? {
      OnOutput(s, o, found.value);
      LookupsInverse(s, found.value, index, o);
      if s.shown[o] != found.value {
        ShowShows(s, index, o, outputName, found.value);
        NavigateHolds(s, found.value, index, o, outputName);
      }
    }
  }

  lemma ShownNowSame(s: State, h: Handle, o: int, outputName: string)
    requires h in s.ws
    ensures var s1 := ShownNow(s, h, o, outputName);
            && s.positions == s1.positions && s.ws.Keys == s1.ws.Keys
            && forall k :: k in s.ws ==> s.ws[k].output == s1.ws[k].output
  {
  }

  lemma ReapParts(s: State, h: Handle)
    requires Inv(s)
    ensures Inv(ReapIfEmpty(s, h).state) && AtMostReaped(s, ReapIfEmpty(s, h).state, h)
  {
    ReapKeeps(s, h);
    ReapInv(s, h);
  }

  lemma FormerIndex(s: State, o: int)
    requires Inv(s) && o in s.shown
    ensures s.shown[o] in s.ws && s.ws[s.shown[o]].output == o && FindIndex(s, s.shown[o], o) == Some(IndexIn(s, s.shown[o], o))
  {
    Showing(s, o);
    IndexOfHandle(s, s.shown[o]);
  }

  lemma NavigateHolds(s: State, h: Handle, index: int, o: int, outputName: string)
    requires Inv(s) && h in s.ws && s.ws[h].output == o && o in s.shown && s.shown[o] != h && FindIndex(s, h, o) == Some(index)
    requires var r := Navigate(s, h, index, o, outputName).state;
             r.shown == s.shown[o := h] && h in r.ws && !r.ws[h].urgent
    ensures var r := Navigate(s, h, index, o, outputName); AllHold(s, r.state, s, r.effects)
  {
    var s1 := ShownNow(s, h, o, outputName);
    ShownNowInv(s, h, o, outputName);
    ShownNowSame(s, h, o, outputName);
    ReapParts(s1, s.shown[o]);
    FormerIndex(s, o);
    ShowNewsHold(s, s1, ReapIfEmpty(s1, s.shown[o]).state, h, index, o);
    ThenReaps(s, s1, s.shown[o], s, ShowNews(s, s1, h, index, o));
  }

  lemma ShowNewsHold(s: State, s1: State, r: State, h: Handle, index: int, o: int)
    requires h in s.ws && s.ws[h].output == o && o in s.shown && s.shown[o] != h && FindIndex(s, h, o) == Some(index)
    requires s.shown[o] in s.ws && s.ws[s.shown[o]].output == o && FindIndex(s, s.shown[o], o) == Some(IndexIn(s, s.shown[o], o))
    requires r.shown == s.shown[o := h] && h in r.ws && !r.ws[h].urgent && s.positions == s1.positions
    requires Inv(s1) && Inv(r) && AtMostReaped(s1, r, s.shown[o])
    ensures AllHold(s, r, s, ShowNews(s, s1, h, index, o))
  {
    var a := Switch(s, h, index, o, IndexIn(s, s.shown[o], o));
    SwitchHolds(s, r, h, index, o, IndexIn(s, s.shown[o], o));
    StackOutlasts(s, s1, r, s.shown[o], s, o);
    ShowParts(s, s1, h, index, o);
    FocusMoved(s, r, h, o);
    Together(s, r, s, a, [Push(s1, o)]);
    Together(s, r, s, a + [Push(s1, o)], [RequestFocusDecision]);
  }

  lemma FocusMoved(s: State, r: State, h: Handle, o: int)
    requires o in s.shown && s.shown[o] != h && r.shown == s.shown[o := h]
    ensures AllHold(s, r, s, [RequestFocusDecision])
  {
    assert r.shown[o] != s.shown[o];
  }

  function Switch(s: State, h: Handle, index: int, o: int, former: int): seq<Effect>
    requires h in s.ws && o in s.shown
  {
    (if s.ws[h].urgent then [UrgencyChanged(h, false, o)] else []) + [Hidden(s.shown[o], former, o), Shown(h, index, o)]
  }

  lemma ShowParts(s: State, s1: State, h: Handle, index: int, o: int)
    requires h in s.ws && o in s.shown && s.positions == s1.positions
    ensures ShowNews(s, s1, h, index, o)
            == Switch(s, h, index, o, IndexIn(s, s.shown[o], o)) + [Push(s1, o)] + [RequestFocusDecision]
  {
  }

  lemma SwitchHolds(s: State, r: State, h: Handle, index: int, o: int, former: int)
    requires h in s.ws && s.ws[h].output == o && o in s.shown && s.shown[o] != h && FindIndex(s, h, o) == Some(index)
    requires s.shown[o] in s.ws && s.ws[s.shown[o]].output == o && FindIndex(s, s.shown[o], o) == Some(former)
    requires r.shown == s.shown[o := h] && h in r.ws && !r.ws[h].urgent
    ensures AllHold(s, r, s, Switch(s, h, index, o, former))
  {
  }

  // ----- Windows -----

  lemma MoveHolds(s: State, x: int, index: int, o: int, outputName: string)
    requires Inv(s)
    ensures var r := MoveWindow(s, x, index, o, outputName); AllHold(s, r.state, s, r.effects)
  {
    var found := FindHandle(s, index, o);
    if found.Some? && x in s.owner && s.owner[x] != found.value {
      var t := found.value;
      OnOutput(s, o, t);
      LookupsInverse(s, t, index, o);
      MoveWindowIs(s, x, index, o, outputName, t);
      MoveToHolds(s, x, t, index, outputName);
    } else {
      MoveWindowIdle(s, x, index, o, outputName);
    }
  }

  lemma MoveToHolds(s: State, x: int, t: Handle, index: int, outputName: string)
    requires Inv(s) && x in s.owner && t in s.ws && s.owner[x] != t && FindIndex(s, t, s.ws[t].output) == Some(index)
    ensures var r := MoveTo(s, x, t, index, outputName); AllHold(s, r.state, s, r.effects)
  {
    Owner(s, x);
    var from := s.owner[x];
    Listed(s, from);
    Listed(s, t);
    RehousedInv(s, x, t, outputName);
    var s1 := Rehoused(s, x, from, t, outputName);
    var r := ReapIfEmpty(s1, from).state;
    ReapKeeps(s1, from);
    ReapInv(s1, from);
    IndexOfHandle(s, from);
    MovedHolds(s, s1, r, x, t, index);
    RehousedSame(s, x, from, t, outputName);
    var home, o := s.ws[from].output, s.ws[t].output;
    var fromShown := s.shown[home] == from;
    PushIfOutlasts(s, s1, r, from, s, home, fromShown);
    PushIfOutlasts(s, s1, r, from, s, o, (o != home || !fromShown) && s.shown[o] == t);
    var a := [SetStateBag(x, t), WindowMoved(x, from, t, IndexIn(s, from, home), index, home, o)];
    var b, c := PushIf(s1, home, fromShown), PushIf(s1, o, (o != home || !fromShown) && s.shown[o] == t);
    Together(s, r, s, b, c);
    Together(s, r, s, a, b + c);
    ThenReaps(s, s1, from, s, MoveNews(s, s1, x, t, index));
  }

  lemma PushIfOutlasts(s: State, s1: State, r: State, h: Handle, at: State, o: int, push: bool)
    requires AtMostReaped(s1, r, h) && Inv(s1) && Inv(r)
    ensures AllHold(s, r, at, PushIf(s1, o, push))
  {
    StackOutlasts(s, s1, r, h, at, o);
  }

  lemma MovedHolds(s: State, s1: State, r: State, x: int, t: Handle, index: int)
    requires x in s.owner && s.owner[x] in s.ws && t in s.ws && s.owner[x] != t && s1.owner == s.owner[x := t] && r.owner == s1.owner
    requires var from := s.owner[x]; FindIndex(s, from, s.ws[from].output) == Some(IndexIn(s, from, s.ws[from].output))
    requires FindIndex(s, t, s.ws[t].output) == Some(index)
    ensures var from := s.owner[x];
            var home, o := s.ws[from].output, s.ws[t].output;
            AllHold(s, r, s, [SetStateBag(x, t), WindowMoved(x, from, t, IndexIn(s, from, home), index, home, o)])
  {
  }

  lemma RehousedSame(s: State, x: int, from: Handle, t: Handle, outputName: string)
    requires from in s.ws && t in s.ws
    ensures var s1 := Rehoused(s, x, from, t, outputName);
            && s1.positions == s.positions && s1.ws.Keys == s.ws.Keys && s1.owner == s.owner[x := t]
            && forall k :: k in s.ws ==> s.ws[k].output == s1.ws[k].output
  {
  }

  lemma UnmapHolds(s: State, x: int)
    requires Inv(s)
    ensures var r := ApplyUnmap(s, x); AllHold(s, r.state, s, r.effects)
  {
    if x in s.owner {
      Owner(s, x);
      var h := s.owner[x];
      Listed(s, h);
      LeftInv(s, x);
      LeftSame(s, x);
      if s.shown[s.ws[h].output] == h { UnmapShown(s, Left(s, x), x, s.ws[h].output); } else { UnmapHidden(s, Left(s, x), x, h); }
    }
  }

  lemma UnmapShown(s: State, s1: State, x: int, o: int)
    requires x in s.owner && s1.owner == s.owner - {x} && Inv(s1)
    ensures AllHold(s, s1, s, [DeleteStateBag(x)] + PushIf(s1, o, true))
  {
    GoneWindow(s, s1, x);
    PushIfHolds(s, s1, s, o, true);
    Together(s, s1, s, [DeleteStateBag(x)], PushIf(s1, o, true));
  }

  lemma UnmapHidden(s: State, s1: State, x: int, h: Handle)
    requires x in s.owner && s1.owner == s.owner - {x} && Inv(s1) && s1.positions == s.positions && s1.ws.Keys == s.ws.Keys
    requires forall k :: k in s.ws ==> s.ws[k].output == s1.ws[k].output
    ensures var r := ReapIfEmpty(s1, h); AllHold(s, r.state, s, [DeleteStateBag(x)] + [] + r.effects)
  {
    ReapKeeps(s1, h);
    GoneWindow(s, ReapIfEmpty(s1, h).state, x);
    assert [DeleteStateBag(x)] + [] == [DeleteStateBag(x)];
    ThenReaps(s, s1, h, s, [DeleteStateBag(x)]);
  }

  lemma LeftSame(s: State, x: int)
    requires x in s.owner && s.owner[x] in s.ws
    ensures var s1 := Left(s, x);
            && s1.positions == s.positions && s1.ws.Keys == s.ws.Keys && s1.owner == s.owner - {x}
            && forall k :: k in s.ws ==> s.ws[k].output == s1.ws[k].output
  {
  }

  lemma GoneWindow(s: State, r: State, x: int)
    requires x in s.owner && r.owner == s.owner - {x}
    ensures AllHold(s, r, s, [DeleteStateBag(x)])
  {
  }

  lemma JoinHolds(s: State, e: State, x: int, h: Handle, tail: bool, at: State)
    requires Inv(e) && h in e.ws && x !in e.owner
    ensures e.ws[h].output in e.shown && AllHold(s, Joined(e, x, h, tail), at, JoinNews(e, x, h, tail))
  {
    Listed(e, h);
    var r := Joined(e, x, h, tail);
    JoinedInv(e, x, h, tail);
    PushIfHolds(s, r, at, e.ws[h].output, e.shown[e.ws[h].output] == h);
    One(s, r, at, SetStateBag(x, h));
    Together(s, r, at, [SetStateBag(x, h)], PushIf(r, e.ws[h].output, e.shown[e.ws[h].output] == h));
  }

  lemma MapHolds(s: State, x: int, o: int, outputName: string, tail: bool)
    requires Inv(s)
    ensures var r := ApplyMap(s, x, o, outputName, tail); AllHold(s, r.state, r.state, r.effects)
  {
    if x !in s.owner {
      var e := EnsureOutput(s, o, outputName);
      EnsureOutputInv(s, o, outputName);
      var h := e.state.shown[o];
      Showing(e.state, o);
      EnsureOwner(s, o, outputName);
      var r := Joined(e.state, x, h, tail);
      JoinHolds(s, e.state, x, h, tail, r);
      EnsureHoldsJoined(s, o, outputName, x, h, tail);
      Together(s, r, r, e.effects, JoinNews(e.state, x, h, tail));
    }
  }

  lemma EnsureOwner(s: State, o: int, seed: string)
    ensures EnsureOutput(s, o, seed).state.owner == s.owner
  {
  }

  lemma EnsureHoldsJoined(s: State, o: int, seed: string, x: int, h: Handle, tail: bool)
    requires Inv(s) && h in EnsureOutput(s, o, seed).state.ws
    ensures var e := EnsureOutput(s, o, seed);
            var r := Joined(e.state, x, h, tail);
            AllHold(s, r, r, e.effects)
  {
    if Positions(s, o) == [] {
      var e := EnsureOutput(s, o, seed).state;
      FirstIs(s, o, seed);
      NextIsNew(s);
      OnlyIndex(e, s.next, o);
      JoinedSame(e, x, h, tail, s.next, o);
      PairHolds(s, Joined(e, x, h, tail), s.next, o);
    }
  }

  lemma JoinedSame(e: State, x: int, h: Handle, tail: bool, k: Handle, o: int)
    requires h in e.ws && k in e.ws
    ensures var r := Joined(e, x, h, tail);
            && r.shown == e.shown && k in r.ws && r.ws[k].output == e.ws[k].output && r.ws[k].name == e.ws[k].name
            && FindIndex(r, k, o) == FindIndex(e, k, o)
  {
  }

  lemma MapAtHolds(s: State, x: int, h: Handle, tail: bool)
    requires Inv(s)
    ensures var r := ApplyMapAt(s, x, h, tail); AllHold(s, r.state, r.state, r.effects)
  {
    if x !in s.owner && h in s.ws { JoinHolds(s, s, x, h, tail, Joined(s, x, h, tail)); }
  }

  lemma ReorderHolds(s: State, x: int, op: ReorderOp)
    requires Inv(s)
    ensures var r := Reorder(s, x, op); AllHold(s, r.state, r.state, r.effects)
  {
    if x in s.owner {
      OwnerArrangeable(s, x);
      ReorderInv(s, x, op);
      var r := Reorder(s, x, op).state;
      PushIfHolds(s, r, r, s.ws[s.owner[x]].output, s.shown[s.ws[s.owner[x]].output] == s.owner[x]);
    }
  }

  // ----- Labels -----

  lemma UrgencyHolds(s: State, index: int, urgent: bool, o: int)
    requires Inv(s)
    ensures var r := SetUrgent(s, index, urgent, o); AllHold(s, r.state, r.state, r.effects)
  {
    var found := FindHandle(s, index, o);
    if found.Some? { OnOutput(s, o, found.value); }
  }

  lemma NameHolds(s: State, index: int, name: Option<string>, o: int)
    requires Inv(s)
    ensures var r := SetName(s, index, name, o); AllHold(s, r.state, r.state, r.effects)
  {
    var found := FindHandle(s, index, o);
    if found.Some? {
      OnOutput(s, o, found.value);
      LookupsInverse(s, found.value, index, o);
    }
  }

  // ----- Recompute -----

  lemma {:induction false} ReplenishSays(s: State, e: Env, ids: seq<int>, n: nat)
    requires n <= |ids| && Bounded(s)
    ensures forall i :: 0 <= i < |Replenishments(s, e, ids, n)| ==>
              var f, r := Replenishments(s, e, ids, n)[i], Replenish(s, e, ids, n);
              && f.Created? && f.index == 1 && f.name == None
              && f.handle in r.ws && f.handle >= s.next && r.ws[f.handle].output == f.output
  {
    if n > 0 {
      ReplenishSays(s, e, ids, n - 1);
      ReplenishBounded(s, e, ids, n - 1);
      ReplenishFrame(s, e, ids, n - 1);
    }
  }

  lemma NewcomerHolds(s: State, e: Env, h: Handle, o: int)
    requires Inv(s) && ValidLive(e.live) && h !in s.ws && h in Recomputed(s, e).ws && Recomputed(s, e).ws[h].output == o
    ensures var r := Recomputed(s, e); Holds(s, r, r, Created(h, 1, o, None))
  {
    NewcomerIs(s, e, h);
    OnlyIndex(Recomputed(s, e), h, o);
  }

  lemma ReplenishedHold(s: State, e: Env)
    requires Inv(s) && ValidLive(e.live)
    ensures var r, ids := Recomputed(s, e), LiveIds(e.live);
            AllHold(s, r, r, Replenishments(Migrate(s, e, s.next), e, ids, |ids|))
  {
    var s1, ids, r := Migrate(s, e, s.next), LiveIds(e.live), Recomputed(s, e);
    MigrateFrame(s, e, s.next);
    ReplenishSays(s1, e, ids, |ids|);
    var fs := Replenishments(s1, e, ids, |ids|);
    forall i | 0 <= i < |fs| ensures Holds(s, r, r, fs[i]) { NewcomerHolds(s, e, fs[i].handle, fs[i].output); }
  }

  lemma DiffHolds(s: State, r: State, o: int)
    requires Inv(s) && Inv(r)
    ensures AllHold(s, r, r, Diff(s, r, o))
  {
    var before, after := ShownAt(s, o), ShownAt(r, o);
    if before != after {
      PushHolds(s, r, r, o);
      HiddenHolds(s, r, o);
      ShownHolds(s, r, o);
      var a := if before.Some? then [Hidden(before.value, IndexIn(r, before.value, o), o)] else [];
      var b := if after.Some? then [Shown(after.value, IndexIn(r, after.value, o), o)] else [];
      Together(s, r, r, a, b);
      Together(s, r, r, a + b, [Push(r, o)]);
    }
  }

  lemma HiddenHolds(s: State, r: State, o: int)
    requires Inv(s) && Inv(r) && ShownAt(s, o) != ShownAt(r, o)
    ensures o in s.shown ==> AllHold(s, r, r, [Hidden(s.shown[o], IndexIn(r, s.shown[o], o), o)])
  {
    if o in s.shown {
      HiddenIndex(r, s.shown[o], o);
      One(s, r, r, Hidden(s.shown[o], IndexIn(r, s.shown[o], o), o));
    }
  }

  lemma HiddenIndex(r: State, h: Handle, o: int)
    requires Inv(r)
    ensures if h in r.ws && r.ws[h].output == o then FindIndex(r, h, o) == Some(IndexIn(r, h, o)) else IndexIn(r, h, o) == 0
  {
    if h in r.ws && r.ws[h].output == o { IndexOfHandle(r, h); } else { NoIndex(r, h, o); }
  }

  lemma NoIndex(r: State, h: Handle, o: int)
    requires Inv(r) && !(h in r.ws && r.ws[h].output == o)
    ensures IndexIn(r, h, o) == 0
  {
    if h in Positions(r, o) { OnOutput(r, o, h); }
  }

  lemma ShownHolds(s: State, r: State, o: int)
    requires Inv(r) && ShownAt(s, o) != ShownAt(r, o)
    ensures o in r.shown ==> AllHold(s, r, r, [Shown(r.shown[o], IndexIn(r, r.shown[o], o), o)])
  {
    if o in r.shown {
      Showing(r, o);
      IndexOfHandle(r, r.shown[o]);
    }
  }

  lemma {:induction false} DiffsHold(s: State, r: State, order: seq<int>, n: nat)
    requires Inv(s) && Inv(r) && n <= |order|
    ensures AllHold(s, r, r, Diffs(s, r, order, n))
  {
    if n > 0 {
      DiffsHold(s, r, order, n - 1);
      DiffHolds(s, r, order[n - 1]);
      Together(s, r, r, Diffs(s, r, order, n - 1), Diff(s, r, order[n - 1]));
    }
  }

  /** Every workspace is where its preferences put it. */
  ghost predicate AllRehomed(s: State, e: Env, r: State) {
    forall h :: h in s.ws ==> h in r.ws && r.ws[h] == Rehomed(s.ws[h], e)
  }

  ghost predicate MovesTrue(s: State, e: Env, r: State, k: nat) { AllHold(s, r, r, Moves(s, e, k)) }

  lemma MovesNext(s: State, e: Env, r: State, h: Handle)
    requires AllRehomed(s, e, r) && MovesTrue(s, e, r, h)
    ensures MovesTrue(s, e, r, h + 1)
  {
    MovesIs(s, e, h + 1);
    MoveOfHolds(s, e, r, h);
    Together(s, r, r, Moves(s, e, h), MoveOf(s, e, h));
  }

  lemma {:induction false} MovesHold(s: State, e: Env, r: State, k: nat)
    requires AllRehomed(s, e, r)
    ensures MovesTrue(s, e, r, k)
  {
    if k > 0 {
      MovesHold(s, e, r, k - 1);
      MovesNext(s, e, r, k - 1);
    }
  }

  lemma RecomputeRehomes(s: State, e: Env)
    requires Inv(s)
    ensures AllRehomed(s, e, Recomputed(s, e))
  {
    forall h | h in s.ws ensures h in Recomputed(s, e).ws && Recomputed(s, e).ws[h] == Rehomed(s.ws[h], e) {
      RecomputedRecord(s, e, h);
    }
  }

  lemma MoveOfHolds(s: State, e: Env, r: State, h: Handle)
    requires h in s.ws ==> h in r.ws && r.ws[h] == Rehomed(s.ws[h], e)
    ensures AllHold(s, r, r, MoveOf(s, e, h))
  {
  }

  lemma RecomputeHolds(s: State, e: Env, order: seq<int>)
    requires Inv(s) && ValidLive(e.live)
    ensures var r := Recompute(s, e, order); AllHold(s, r.state, r.state, r.effects)
  {
    var r, ids := Recomputed(s, e), LiveIds(e.live);
    var a := Replenishments(Migrate(s, e, s.next), e, ids, |ids|);
    var b, c := Diffs(s, r, order, |order|), Moves(s, e, s.next);
    var d := if AnyShownChanged(s, r, order) then [RequestFocusDecision] else [];
    RecomputedInv(s, e);
    ReplenishedHold(s, e);
    DiffsHold(s, r, order, |order|);
    RecomputeRehomes(s, e);
    MovesHold(s, e, r, s.next);
    FocusHolds(s, r, order);
    Together(s, r, r, a, b);
    Together(s, r, r, a + b, c);
    Together(s, r, r, a + b + c, d);
  }

  lemma FocusHolds(s: State, r: State, order: seq<int>)
    ensures AllHold(s, r, r, if AnyShownChanged(s, r, order) then [RequestFocusDecision] else [])
  {
    if AnyShownChanged(s, r, order) {
      var i :| 0 <= i < |order| && ShownAt(s, order[i]) != ShownAt(r, order[i]);
      assert r.shown != s.shown;
    }
  }

  // ----- Every transition -----

  /** A map of live outputs has each id once. */
  ghost predicate WellFormed(op: Op) { op.OpRecompute? ==> ValidLive(op.e.live) }

  /** A show or a move gives the indices before its evaporation, every other transition those after it. */
  function IndexState(s: State, r: State, op: Op): State {
    if op.OpShow? || op.OpMoveWindow? || op.OpUnmap? then s else r
  }

  lemma WindowEffectsHold(s: State, op: Op)
    requires Inv(s) && OnWindow(op)
    ensures var r := Transition(s, op); AllHold(s, r.state, IndexState(s, r.state, op), r.effects)
  {
    if op.OpMoveWindow? {
      MoveHolds(s, op.surface, op.index, op.o, op.outputName);
    } else if op.OpUnmap? {
      UnmapHolds(s, op.surface);
    } else {
      JoinEffectsHold(s, op);
    }
  }

  lemma JoinEffectsHold(s: State, op: Op)
    requires Inv(s) && (op.OpReorder? || op.OpMap? || op.OpMapAt?)
    ensures var r := Transition(s, op); AllHold(s, r.state, r.state, r.effects)
  {
    match op
    case OpReorder(x, how) => ReorderHolds(s, x, how);
    case OpMap(x, o, outputName, tail) => MapHolds(s, x, o, outputName, tail);
    case OpMapAt(x, h, tail) => MapAtHolds(s, x, h, tail);
  }

  lemma DestroyAtHolds(s: State, index: int, o: int, outputName: string)
    requires Inv(s)
    ensures var r := Destroy(s, index, o, outputName).0; AllHold(s, r.state, r.state, r.effects)
  {
    var found := FindHandle(s, index, o);
    if found.Some? {
      OnOutput(s, o, found.value);
      DestroyHolds(s, found.value, outputName);
    }
  }

  lemma WorkspaceEffectsHold(s: State, op: Op)
    requires Inv(s) && !OnWindow(op) && !op.OpRecompute?
    ensures var r := Transition(s, op); AllHold(s, r.state, IndexState(s, r.state, op), r.effects)
  {
    match op
    case OpCreate(name, o, preferred, persistent, outputName) => CreateHolds(s, name, o, preferred, persistent, outputName);
    case OpDestroy(index, o, outputName) => DestroyAtHolds(s, index, o, outputName);
    case OpShow(index, o, outputName) => ShowHolds(s, index, o, outputName);
    case OpSetUrgent(index, urgent, o) => UrgencyHolds(s, index, urgent, o);
    case OpSetName(index, name, o) => NameHolds(s, index, name, o);
    case OpEnsureOutput(o, seed) => EnsureHolds(s, o, seed);
    case OpPreRemove(_, _) =>
  }

  /** Every effect of every transition is true. */
  lemma EveryEffectHolds(s: State, op: Op)
    requires Inv(s) && WellFormed(op)
    ensures var r := Transition(s, op); AllHold(s, r.state, IndexState(s, r.state, op), r.effects)
  {
    if op.OpRecompute? {
      RecomputeHolds(s, op.e, op.order);
    } else if OnWindow(op) {
      WindowEffectsHold(s, op);
    } else {
      WorkspaceEffectsHold(s, op);
    }
  }

  /** A move across workspaces is told first of all, after the window's new handle. */
  lemma MoveIsTold(s: State, x: int, index: int, o: int, outputName: string, t: Handle)
    requires Inv(s) && FindHandle(s, index, o) == Some(t) && x in s.owner && s.owner[x] != t
    ensures MoveTold(s, x, t, index, o, MoveWindow(s, x, index, o, outputName).effects)
  {
    OnOutput(s, o, t);
    MoveWindowIs(s, x, index, o, outputName, t);
    MoveToStarts(s, x, t, index, outputName);
    IndexOfHandle(s, s.owner[x]);
  }

  ghost predicate MoveTold(s: State, x: int, t: Handle, index: int, o: int, fs: seq<Effect>) {
    && |fs| >= 2 && x in s.owner && s.owner[x] in s.ws && fs[0] == SetStateBag(x, t)
    && var from := s.owner[x];
       var home := s.ws[from].output;
       fs[1].WindowMoved? && FindIndex(s, from, home) == Some(fs[1].fromIndex)
       && fs[1] == WindowMoved(x, from, t, fs[1].fromIndex, index, home, o)
  }

  lemma MoveToStarts(s: State, x: int, t: Handle, index: int, outputName: string)
    requires Inv(s) && x in s.owner && t in s.ws && s.owner[x] != t
    ensures var fs, from := MoveTo(s, x, t, index, outputName).effects, s.owner[x];
            && from in s.ws && |fs| >= 2 && fs[0] == SetStateBag(x, t)
            && var home := s.ws[from].output;
               fs[1] == WindowMoved(x, from, t, IndexIn(s, from, home), index, home, s.ws[t].output)
  {
    Owner(s, x);
  }

  // ----- The focus decision -----

  lemma ShowAsks(s: State, index: int, o: int, outputName: string)
    requires Inv(s) && Show(s, index, o, outputName).state.shown != s.shown
    ensures RequestFocusDecision in Show(s, index, o, outputName).effects
  {
    var h := FindHandle(s, index, o).value;
    OnOutput(s, o, h);
    var s1 := ShownNow(s, h, o, outputName);
    ShownNowInv(s, h, o, outputName);
    ShowParts(s, s1, h, index, o);
    LastIn(Switch(s, h, index, o, IndexIn(s, s.shown[o], o)) + [Push(s1, o)], RequestFocusDecision, ReapIfEmpty(s1, s.shown[o]).effects);
  }

  lemma LastIn(a: seq<Effect>, f: Effect, b: seq<Effect>)
    ensures f in a + [f] + b
  {
    assert (a + [f] + b)[|a|] == f;
  }

  lemma DestroyAsks(s: State, h: Handle, seed: string)
    requires Inv(s) && h in s.ws && DestroyHandle(s, h, seed).0.state.shown != s.shown
    ensures RequestFocusDecision in DestroyHandle(s, h, seed).0.effects
  {
    var created, s1, t, formerIndex, changes, r := DestroyParts(s, h, seed);
    RetireAsks(s1, h, t, formerIndex, changes);
  }

  lemma RetireAsks(s: State, h: Handle, t: Handle, formerIndex: int, changes: seq<Renumber>)
    requires h in s.ws && t in s.ws && s.ws[h].output in s.positions && s.ws[h].output in s.shown
    requires Retired(s, h, t).shown != s.shown
    ensures RequestFocusDecision in RetireEffects(s, h, t, formerIndex, changes)
  {
    var o := s.ws[h].output;
    assert StackNews(s, h, t) == [Push(Retired(s, h, t), o)] + [RequestFocusDecision];
    assert RequestFocusDecision in StackNews(s, h, t);
  }

  lemma ShownApart(s: State, r: State) returns (o: int)
    requires r.shown != s.shown
    ensures ShownAt(s, o) != ShownAt(r, o)
  {
    if forall p :: ShownAt(s, p) == ShownAt(r, p) {
      forall p ensures p in s.shown <==> p in r.shown { assert ShownAt(s, p) == ShownAt(r, p); }
      forall p | p in s.shown ensures s.shown[p] == r.shown[p] { assert ShownAt(s, p) == ShownAt(r, p); }
      assert false;
    }
    o :| ShownAt(s, o) != ShownAt(r, o);
  }

  lemma RecomputeAsks(s: State, e: Env, order: seq<int>)
    requires Inv(s) && Visits(order, s, e) && Recomputed(s, e).shown != s.shown
    ensures RequestFocusDecision in Recompute(s, e, order).effects
  {
    var r := Recomputed(s, e);
    var o := ShownApart(s, r);
    if o in s.shown { Showing(s, o); } else if o !in order { NotShownElsewhere(s, e, o); }
    var i :| 0 <= i < |order| && order[i] == o;
    assert AnyShownChanged(s, r, order);
  }

  lemma FocusClaim(s: State, r: State, at: State, fs: seq<Effect>)
    requires AllHold(s, r, at, fs) && RequestFocusDecision in fs
    ensures r.shown != s.shown
  {
    var i :| 0 <= i < |fs| && fs[i] == RequestFocusDecision;
    assert Holds(s, r, at, fs[i]);
  }

  predicate Navigates(op: Op) { op.OpShow? || op.OpDestroy? || op.OpRecompute? }
  predicate Seeds(op: Op) { op.OpCreate? || op.OpMap? || op.OpEnsureOutput? }

  /** A show, a destroy or a recompute asks for a focus decision exactly if some output shows something else
      afterwards; no other transition asks. */
  lemma FocusAsked(s: State, op: Op)
    requires Inv(s) && WellFormed(op) && Possible(s, op)
    ensures RequestFocusDecision in Transition(s, op).effects
            <==> Navigates(op) && Transition(s, op).state.shown != s.shown
  {
    if RequestFocusDecision in Transition(s, op).effects {
      EveryEffectHolds(s, op);
      FocusClaim(s, Transition(s, op).state, IndexState(s, Transition(s, op).state, op), Transition(s, op).effects);
      if Seeds(op) { SeedsQuietly(s, op); } else if !Navigates(op) { ShowsSame(s, op); }
    } else if Navigates(op) && Transition(s, op).state.shown != s.shown {
      ChangesAsk(s, op);
    }
  }

  lemma ChangesAsk(s: State, op: Op)
    requires Inv(s) && Possible(s, op) && Transition(s, op).state.shown != s.shown
    ensures op.OpShow? || op.OpDestroy? || op.OpRecompute? ==> RequestFocusDecision in Transition(s, op).effects
  {
    match op
    case OpShow(index, o, outputName) => ShowAsks(s, index, o, outputName);
    case OpDestroy(index, o, outputName) =>
      var h := FindHandle(s, index, o).value;
      OnOutput(s, o, h);
      DestroyAsks(s, h, outputName);
    case OpRecompute(e, order) => RecomputeAsks(s, e, order);
    case _ =>
  }

  lemma EnsureQuiet(s: State, o: int, seed: string)
    ensures RequestFocusDecision !in EnsureOutput(s, o, seed).effects
  {
  }

  lemma CreateQuiet(s: State, name: Option<string>, o: int, preferred: Option<seq<string>>, persistent: bool, outputName: string)
    ensures RequestFocusDecision !in Create(s, name, o, preferred, persistent, outputName).0.effects
  {
    EnsureQuiet(s, o, outputName);
  }

  lemma MapQuiet(s: State, x: int, o: int, outputName: string, tail: bool)
    requires Inv(s)
    ensures RequestFocusDecision !in ApplyMap(s, x, o, outputName, tail).effects
  {
    EnsureQuiet(s, o, outputName);
  }

  lemma SeedsQuietly(s: State, op: Op)
    requires Inv(s) && Seeds(op)
    ensures RequestFocusDecision !in Transition(s, op).effects
  {
    if op.OpCreate? {
      CreateQuiet(s, op.name, op.o, op.preferred, op.persistent, op.outputName);
    } else if op.OpMap? {
      MapQuiet(s, op.surface, op.o, op.outputName, op.tail);
    } else {
      EnsureQuiet(s, op.o, op.seed);
    }
  }

  lemma UnmapShowsSame(s: State, x: int)
    requires Inv(s)
    ensures ApplyUnmap(s, x).state.shown == s.shown
  {
    if x in s.owner { UnmapLeaves(s, x); }
  }

  lemma ReorderShowsSame(s: State, x: int, how: ReorderOp)
    requires Inv(s)
    ensures Reorder(s, x, how).state.shown == s.shown
  {
  }

  lemma LabelsShowSame(s: State, op: Op)
    requires Inv(s) && (op.OpSetUrgent? || op.OpSetName? || op.OpPreRemove? || op.OpMapAt?)
    ensures Transition(s, op).state.shown == s.shown
  {
    if op.OpSetUrgent? {
      UrgencyIsSet(s, op.index, op.urgent, op.o);
    } else if op.OpSetName? {
      NameIsSet(s, op.index, op.name, op.o);
    } else if op.OpMapAt? {
      MapAtShowsSame(s, op.surface, op.handle, op.tail);
    } else {
      PreRemoveShowsSame(s, op.o, op.key);
    }
  }

  lemma MapAtShowsSame(s: State, x: int, h: Handle, tail: bool)
    requires Inv(s)
    ensures ApplyMapAt(s, x, h, tail).state.shown == s.shown
  {
    if x !in s.owner { MapAtJoins(s, x, h, tail); }
  }

  lemma PreRemoveShowsSame(s: State, o: int, key: string)
    ensures PreRemove(s, o, key).state.shown == s.shown
  {
  }

  lemma ShowsSame(s: State, op: Op)
    requires Inv(s) && !Seeds(op) && !Navigates(op)
    ensures Transition(s, op).state.shown == s.shown
  {
    if op.OpMoveWindow? {
      MoveShowsSame(s, op.surface, op.index, op.o, op.outputName);
    } else if op.OpUnmap? {
      UnmapShowsSame(s, op.surface);
    } else if op.OpReorder? {
      ReorderShowsSame(s, op.surface, op.how);
    } else {
      LabelsShowSame(s, op);
    }
  }

  lemma MoveShowsSame(s: State, x: int, index: int, o: int, outputName: string)
    requires Inv(s)
    ensures MoveWindow(s, x, index, o, outputName).state.shown == s.shown
  {
    var found := FindHandle(s, index, o);
    if found.Some? && x in s.owner && s.owner[x] != found.value {
      MoveMoves(s, x, index, o, outputName, found.value);
    } else {
      MoveWindowIdle(s, x, index, o, outputName);
    }
  }
}
