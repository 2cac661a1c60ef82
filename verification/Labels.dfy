/** What a status bar keeps from the effects: each workspace's name and urgency, and what every output shows. */
module Labels {
  import opened Seqs
  import opened Registry
  import opened Hotplug
  import opened Settling
  import opened MirrorHotplug
  import opened Runs

  datatype Tag = Tag(name: Option<string>, urgent: bool)

  datatype Face = Face(tags: map<Handle, Tag>, shown: map<int, Handle>)

  function Look(face: Face, f: Effect): Face {
    match f
    case Created(h, _, _, name) => face.(tags := face.tags[h := Tag(name, false)])
    case Destroyed(h, _, _) => face.(tags := face.tags - {h})
    case Renamed(h, _, _, name) =>
      if h in face.tags then face.(tags := face.tags[h := face.tags[h].(name := name)]) else face
    case UrgencyChanged(h, urgent, _) =>
      if h in face.tags then face.(tags := face.tags[h := face.tags[h].(urgent := urgent)]) else face
    case Hidden(_, _, o) => face.(shown := face.shown - {o})
    case Shown(h, _, o) => face.(shown := face.shown[o := h])
    case _ => face
  }

  function Looks(face: Face, fs: seq<Effect>): Face {
    if fs == [] then face else Look(Looks(face, Seqs.Init(fs)), Last(fs))
  }

  function Tags(ws: map<Handle, Workspace>): map<Handle, Tag> { map h | h in ws :: Tag(ws[h].name, ws[h].urgent) }

  function FaceOf(s: State): Face { Face(Tags(s.ws), s.shown) }

  /** What the outcome reports turns the old face into the new one. */
  predicate Seen(s: State, r: Outcome) { Looks(FaceOf(s), r.effects) == FaceOf(r.state) }

  // ----- Looking -----

  lemma {:induction false} LooksConcat(face: Face, a: seq<Effect>, b: seq<Effect>)
    ensures Looks(face, a + b) == Looks(Looks(face, a), b)
  {
    if b == [] {
      assert a + b == a;
    } else {
      LooksConcat(face, a, Seqs.Init(b));
      Extend(a, b);
    }
  }

  lemma LooksOne(face: Face, f: Effect)
    ensures Looks(face, [f]) == Look(face, f)
  {
    assert Seqs.Init([f]) == [];
  }

  lemma LooksTwo(face: Face, f: Effect, g: Effect)
    ensures Looks(face, [f, g]) == Look(Look(face, f), g)
  {
    assert Seqs.Init([f, g]) == [f];
    LooksOne(face, f);
  }

  predicate Mute(f: Effect) {
    !f.Created? && !f.Destroyed? && !f.Renamed? && !f.UrgencyChanged? && !f.Hidden? && !f.Shown?
  }

  lemma {:induction false} LooksMute(face: Face, fs: seq<Effect>)
    requires forall i :: 0 <= i < |fs| ==> Mute(fs[i])
    ensures Looks(face, fs) == face
  {
    if fs != [] { LooksMute(face, Seqs.Init(fs)); }
  }

  /** Mute effects on either side make no difference. */
  lemma LooksAmid(face: Face, a: seq<Effect>, b: seq<Effect>, c: seq<Effect>)
    requires (forall i :: 0 <= i < |a| ==> Mute(a[i])) && (forall i :: 0 <= i < |c| ==> Mute(c[i]))
    ensures Looks(face, a + b + c) == Looks(face, b)
  {
    LooksConcat(face, a + b, c);
    LooksConcat(face, a, b);
    LooksMute(face, a);
    LooksMute(Looks(face, b), c);
  }

  // ----- The transitions' parts -----

  lemma TagsPut(ws: map<Handle, Workspace>, h: Handle, w: Workspace)
    ensures Tags(ws[h := w]) == Tags(ws)[h := Tag(w.name, w.urgent)]
    ensures h in ws && w.name == ws[h].name && w.urgent == ws[h].urgent ==> Tags(ws[h := w]) == Tags(ws)
  {
  }

  lemma EnsureLook(s: State, o: int, seed: string)
    ensures Seen(s, EnsureOutput(s, o, seed))
  {
    if Positions(s, o) == [] {
      LooksTwo(FaceOf(s), Created(s.next, 1, o, None), Shown(s.next, 1, o));
      TagsPut(s.ws, s.next, Blank(o, seed));
    }
  }

  lemma CreateLook(s: State, name: Option<string>, o: int, preferred: Option<seq<string>>, persistent: bool, outputName: string)
    requires Inv(s)
    ensures Seen(s, Create(s, name, o, preferred, persistent, outputName).0)
  {
    if !(name.Some? && FindNamed(s, name.value, s.next).Some?) {
      var e := EnsureOutput(s, o, outputName);
      var w := Workspace(o, name, SeedList(preferred, outputName), [], false, persistent);
      var f := Created(e.state.next, |Positions(e.state, o)| + 1, o, name);
      EnsureOutputInv(s, o, outputName);
      EnsureLook(s, o, outputName);
      LooksConcat(FaceOf(s), e.effects, [f]);
      LooksOne(FaceOf(e.state), f);
      TagsPut(e.state.ws, e.state.next, w);
    }
  }

  lemma RetireLook(s: State, h: Handle, t: Handle, formerIndex: int, changes: seq<Renumber>)
    requires h in s.ws && t in s.ws && h != t && s.ws[h].output in s.positions && s.ws[h].output in s.shown
    ensures Looks(FaceOf(s), RetireEffects(s, h, t, formerIndex, changes)) == Face(Tags(Retired(s, h, t).ws), s.shown)
  {
    var a, c := RetireParts(s, h, t, formerIndex, changes);
    var f := Destroyed(h, formerIndex, s.ws[h].output);
    LooksAmid(FaceOf(s), a, [f], c);
    LooksOne(FaceOf(s), f);
    RetiredTags(s, h, t);
  }

  lemma RetireParts(s: State, h: Handle, t: Handle, formerIndex: int, changes: seq<Renumber>)
    returns (a: seq<Effect>, c: seq<Effect>)
    requires h in s.ws && t in s.ws && s.ws[h].output in s.positions && s.ws[h].output in s.shown
    ensures RetireEffects(s, h, t, formerIndex, changes) == a + [Destroyed(h, formerIndex, s.ws[h].output)] + c
    ensures (forall i :: 0 <= i < |a| ==> Mute(a[i])) && (forall i :: 0 <= i < |c| ==> Mute(c[i]))
  {
    a := BagMoves(s.ws[h].members, t);
    c := (if changes != [] then [Renumbered(s.ws[h].output, changes)] else []) + StackNews(s, h, t);
  }

  lemma RetiredTags(s: State, h: Handle, t: Handle)
    requires h in s.ws && t in s.ws && h != t && s.ws[h].output in s.positions && s.ws[h].output in s.shown
    ensures Tags(Retired(s, h, t).ws) == Tags(s.ws) - {h}
  {
    TagsPut(s.ws - {h}, t, Retired(s, h, t).ws[t]);
    assert Tags(s.ws - {h}) == Tags(s.ws) - {h};
  }

  /** A destroy is announced in full, except that nobody is told what its output shows instead. */
  lemma DestroyLook(s: State, h: Handle, seed: string)
    requires Inv(s) && h in s.ws
    ensures var r, o := DestroyHandle(s, h, seed).0, s.ws[h].output;
            && o in s.shown && o in r.state.shown
            && Looks(FaceOf(s), r.effects) == Face(Tags(r.state.ws), s.shown)
            && (if s.shown[o] == h then r.state.shown[o] != h else r.state.shown == s.shown)
  {
    Listed(s, h);
    var created, s1, t, formerIndex, changes := DestroyIs(s, h, seed);
    var o := s.ws[h].output;
    RelocationLook(s, h, seed);
    RetireLook(s1, h, t, formerIndex, changes);
    LooksConcat(FaceOf(s), created, RetireEffects(s1, h, t, formerIndex, changes));
  }

  lemma RelocationLook(s: State, h: Handle, seed: string)
    requires OnList(s, h) && s.ws[h].output in s.shown
    ensures Looks(FaceOf(s), Announced(s, s.ws[h].output, s.positions[s.ws[h].output])) == FaceOf(Relocation(s, h, seed).0)
    ensures Relocation(s, h, seed).0.shown == s.shown
  {
    var o := s.ws[h].output;
    LooksOne(FaceOf(s), Created(s.next, 1, o, None));
    TagsPut(s.ws, s.next, Blank(o, seed));
  }

  lemma ReapLook(s: State, h: Handle)
    requires Inv(s)
    ensures Seen(s, ReapIfEmpty(s, h))
  {
    if Reapable(s, h) { DestroyLook(s, h, ""); }
  }

  /** What the plain part of a transition says, then the evaporation. */
  lemma ThenReapLook(s: State, s1: State, fs: seq<Effect>, h: Handle)
    requires Inv(s1) && Looks(FaceOf(s), fs) == FaceOf(s1)
    ensures var r := ReapIfEmpty(s1, h); Looks(FaceOf(s), fs + r.effects) == FaceOf(r.state)
  {
    ReapLook(s1, h);
    LooksConcat(FaceOf(s), fs, ReapIfEmpty(s1, h).effects);
  }

  lemma NavigateLook(s: State, h: Handle, index: int, o: int, outputName: string)
    requires Inv(s) && h in s.ws && s.ws[h].output == o && o in s.shown
    ensures Seen(s, Navigate(s, h, index, o, outputName))
  {
    ShownNowInv(s, h, o, outputName);
    var s1 := ShownNow(s, h, o, outputName);
    ShowNewsLook(s, s1, h, index, o, outputName);
    ThenReapLook(s, s1, ShowNews(s, s1, h, index, o), s.shown[o]);
  }

  lemma ShowNewsLook(s: State, s1: State, h: Handle, index: int, o: int, outputName: string)
    requires h in s.ws && o in s.shown && s1 == ShownNow(s, h, o, outputName)
    ensures Looks(FaceOf(s), ShowNews(s, s1, h, index, o)) == FaceOf(s1)
  {
    var a := if s.ws[h].urgent then [UrgencyChanged(h, false, o)] else [];
    var f, g := Hidden(s.shown[o], IndexIn(s1, s.shown[o], o), o), Shown(h, index, o);
    var c := [Push(s1, o), RequestFocusDecision];
    assert ShowNews(s, s1, h, index, o) == a + [f, g] + c;
    CalmLook(s, h, o, outputName);
    SwitchLook(FaceOf(s), a, f, g, c);
  }

  lemma CalmLook(s: State, h: Handle, o: int, outputName: string)
    requires h in s.ws
    ensures Looks(FaceOf(s), if s.ws[h].urgent then [UrgencyChanged(h, false, o)] else [])
            == Face(Tags(ShownNow(s, h, o, outputName).ws), s.shown)
  {
    LooksOne(FaceOf(s), UrgencyChanged(h, false, o));
    TagsPut(s.ws, h, s.ws[h].(urgent := false));
  }

  lemma SwitchLook(face: Face, a: seq<Effect>, f: Effect, g: Effect, c: seq<Effect>)
    requires f.Hidden? && g.Shown? && f.output == g.output && forall i :: 0 <= i < |c| ==> Mute(c[i])
    ensures Looks(face, a + [f, g] + c)
            == Looks(face, a).(shown := Looks(face, a).shown[g.output := g.handle])
  {
    LooksConcat(face, a + [f, g], c);
    LooksConcat(face, a, [f, g]);
    LooksTwo(Looks(face, a), f, g);
    LooksMute(Looks(face, a + [f, g]), c);
  }

  // ----- Recompute -----

  lemma MigrateTags(s: State, e: Env, k: nat)
    ensures Tags(Migrate(s, e, k).ws) == Tags(s.ws)
  {
    var r := Migrate(s, e, k);
    forall h | h in s.ws ensures r.ws[h].name == s.ws[h].name && r.ws[h].urgent == s.ws[h].urgent {
      MigrateRecord(s, e, k, h);
    }
  }

  /** The effects take the tags along, whatever is shown meanwhile. */
  ghost predicate Tagged(s: State, fs: seq<Effect>, r: State, shown: map<int, Handle>) {
    Looks(Face(Tags(s.ws), shown), fs) == Face(Tags(r.ws), shown)
  }

  lemma {:induction false} ReplenishLook(s: State, e: Env, ids: seq<int>, n: nat, shown: map<int, Handle>)
    requires n <= |ids|
    ensures Tagged(s, Replenishments(s, e, ids, n), Replenish(s, e, ids, n), shown)
  {
    if n > 0 {
      ReplenishLook(s, e, ids, n - 1, shown);
      var fs, fs', p, r := ReplenishIs(s, e, ids, n);
      CreatedTags(s, fs, p, e, ids[n - 1], shown);
    }
  }

  lemma CreatedTags(s: State, fs: seq<Effect>, p: State, e: Env, id: int, shown: map<int, Handle>)
    requires Tagged(s, fs, p, shown)
    ensures Tagged(s, fs + CreatedOf(p, id), ReplenishOne(p, e, id), shown)
  {
    LooksConcat(Face(Tags(s.ws), shown), fs, CreatedOf(p, id));
    CreatedLook(p, e, id, shown);
  }

  lemma CreatedLook(s: State, e: Env, id: int, shown: map<int, Handle>)
    ensures Tagged(s, CreatedOf(s, id), ReplenishOne(s, e, id), shown)
  {
    if Positions(s, id) == [] {
      LooksOne(Face(Tags(s.ws), shown), Created(s.next, 1, id, None));
      TagsPut(s.ws, s.next, Donor(id, e));
    }
  }

  function Updated(shown: map<int, Handle>, o: int, at: Option<Handle>): map<int, Handle> {
    if at.Some? then shown[o := at.value] else shown - {o}
  }

  lemma DiffLook(s: State, s': State, o: int, face: Face)
    requires ShownAt(s, o) == if o in face.shown then Some(face.shown[o]) else None
    ensures Looks(face, Diff(s, s', o)) == face.(shown := Updated(face.shown, o, ShownAt(s', o)))
  {
    var before, after := ShownAt(s, o), ShownAt(s', o);
    if before != after {
      var a := if before.Some? then [Hidden(before.value, IndexIn(s', before.value, o), o)] else [];
      var b := if after.Some? then [Shown(after.value, IndexIn(s', after.value, o), o)] else [];
      assert Diff(s, s', o) == a + b + [Push(s', o)];
      LooksConcat(face, a + b, [Push(s', o)]);
      LooksConcat(face, a, b);
      var gone := face.(shown := face.shown - {o});
      if before.Some? { LooksOne(face, a[0]); } else { assert gone == face; }
      assert Looks(face, a) == gone;
      if after.Some? { LooksOne(gone, b[0]); }
      LooksMute(Looks(gone, b), [Push(s', o)]);
    }
  }

  /** After the first `n` outputs those show what they show now, and the others what they showed. */
  ghost predicate Caught(shown: map<int, Handle>, s: State, s': State, order: seq<int>, n: nat)
    requires n <= |order|
  {
    forall o :: (if o in shown then Some(shown[o]) else None) == if o in order[..n] then ShownAt(s', o) else ShownAt(s, o)
  }

  lemma CaughtNext(shown: map<int, Handle>, s: State, s': State, order: seq<int>, n: nat)
    requires 0 < n <= |order| && Distinct(order) && Caught(shown, s, s', order, n - 1)
    ensures var o := order[n - 1];
            && ShownAt(s, o) == (if o in shown then Some(shown[o]) else None)
            && Caught(Updated(shown, o, ShownAt(s', o)), s, s', order, n)
  {
    assert order[..n] == order[..n - 1] + [order[n - 1]];
  }

  lemma {:induction false} DiffsLook(s: State, s': State, order: seq<int>, n: nat, tags: map<Handle, Tag>)
    requires n <= |order| && Distinct(order)
    ensures var r := Looks(Face(tags, s.shown), Diffs(s, s', order, n)); r.tags == tags && Caught(r.shown, s, s', order, n)
  {
    if n > 0 {
      DiffsLook(s, s', order, n - 1, tags);
      var before := Looks(Face(tags, s.shown), Diffs(s, s', order, n - 1));
      LooksConcat(Face(tags, s.shown), Diffs(s, s', order, n - 1), Diff(s, s', order[n - 1]));
      CaughtNext(before.shown, s, s', order, n);
      DiffLook(s, s', order[n - 1], before);
    }
  }

  lemma {:induction false} MovesMute(s: State, e: Env, k: nat)
    ensures forall i :: 0 <= i < |Moves(s, e, k)| ==> Mute(Moves(s, e, k)[i])
  {
    if k > 0 { MovesMute(s, e, k - 1); }
  }

  lemma CaughtUp(shown: map<int, Handle>, s: State, s': State, order: seq<int>)
    requires Caught(shown, s, s', order, |order|)
    requires forall o :: o !in order ==> o !in s.shown && o !in s'.shown
    ensures shown == s'.shown
  {
    assert order[..|order|] == order;
    forall o ensures (if o in shown then Some(shown[o]) else None) == ShownAt(s', o) {
      if o !in order { assert o !in s.shown; }
    }
    forall o ensures o in shown <==> o in s'.shown {
      assert (if o in shown then Some(shown[o]) else None) == ShownAt(s', o);
    }
    forall o | o in shown ensures shown[o] == s'.shown[o] {
      assert (if o in shown then Some(shown[o]) else None) == ShownAt(s', o);
    }
  }

  lemma RecomputeLook(s: State, e: Env, order: seq<int>)
    requires Inv(s) && Visits(order, s, e)
    ensures Seen(s, Recompute(s, e, order))
  {
    var s', ids := Recomputed(s, e), LiveIds(e.live);
    var a := Replenishments(Migrate(s, e, s.next), e, ids, |ids|);
    var b, c := Diffs(s, s', order, |order|), Moves(s, e, s.next);
    var d := if AnyShownChanged(s, s', order) then [RequestFocusDecision] else [];
    MovesMute(s, e, s.next);
    LooksFour(FaceOf(s), a, b, c, d);
    RefilledLook(s, e);
    DiffsCatchUp(s, e, order);
  }

  lemma LooksFour(face: Face, a: seq<Effect>, b: seq<Effect>, c: seq<Effect>, d: seq<Effect>)
    requires forall i :: 0 <= i < |c| ==> Mute(c[i])
    requires forall i :: 0 <= i < |d| ==> Mute(d[i])
    ensures Looks(face, a + b + c + d) == Looks(Looks(face, a), b)
  {
    LooksConcat(face, a + b + c, d);
    LooksConcat(face, a + b, c);
    LooksConcat(face, a, b);
    LooksMute(Looks(face, a + b), c);
    LooksMute(Looks(face, a + b), d);
  }

  lemma RefilledLook(s: State, e: Env)
    ensures var ids := LiveIds(e.live);
            Looks(FaceOf(s), Replenishments(Migrate(s, e, s.next), e, ids, |ids|))
            == Face(Tags(Recomputed(s, e).ws), s.shown)
  {
    MigrateTags(s, e, s.next);
    ReplenishLook(Migrate(s, e, s.next), e, LiveIds(e.live), |LiveIds(e.live)|, s.shown);
  }

  lemma DiffsCatchUp(s: State, e: Env, order: seq<int>)
    requires Inv(s) && Visits(order, s, e)
    ensures var s' := Recomputed(s, e);
            Looks(Face(Tags(s'.ws), s.shown), Diffs(s, s', order, |order|)) == FaceOf(s')
  {
    var s' := Recomputed(s, e);
    var r := Looks(Face(Tags(s'.ws), s.shown), Diffs(s, s', order, |order|));
    DiffsLook(s, s', order, |order|, Tags(s'.ws));
    OnlyVisitedShow(s, e, order);
    CaughtUp(r.shown, s, s', order);
  }

  lemma OnlyVisitedShow(s: State, e: Env, order: seq<int>)
    requires Inv(s) && Visits(order, s, e)
    ensures forall o :: o !in order ==> o !in s.shown && o !in Recomputed(s, e).shown
  {
    forall o | o !in order ensures o !in s.shown && o !in Recomputed(s, e).shown {
      if o in s.shown { Showing(s, o); }
      NotShownElsewhere(s, e, o);
    }
  }

  // ----- Every transition, every run -----

  /** The one blind spot: a destroy of what an output shows. */
  predicate Unseen(s: State, op: Op) {
    && op.OpDestroy?
    && FindHandle(s, op.index, op.o).Some?
    && op.o in s.shown && s.shown[op.o] == FindHandle(s, op.index, op.o).value
  }

  lemma FlipLook(s: State, h: Handle, urgent: bool, o: int)
    requires h in s.ws
    ensures Looks(FaceOf(s), [UrgencyChanged(h, urgent, o)]) == FaceOf(s.(ws := s.ws[h := s.ws[h].(urgent := urgent)]))
  {
    LooksOne(FaceOf(s), UrgencyChanged(h, urgent, o));
    TagsPut(s.ws, h, s.ws[h].(urgent := urgent));
  }

  lemma RenameLook(s: State, h: Handle, index: int, name: Option<string>, o: int)
    requires h in s.ws
    ensures Looks(FaceOf(s), [Renamed(h, index, o, name)]) == FaceOf(s.(ws := s.ws[h := s.ws[h].(name := name)]))
  {
    LooksOne(FaceOf(s), Renamed(h, index, o, name));
    TagsPut(s.ws, h, s.ws[h].(name := name));
  }

  lemma UrgentLook(s: State, index: int, urgent: bool, o: int)
    requires Inv(s)
    ensures Seen(s, SetUrgent(s, index, urgent, o))
  {
    match FindHandle(s, index, o)
    case None =>
    case Some(h) => OnOutput(s, o, h); FlipLook(s, h, urgent, o);
  }

  lemma NameLook(s: State, index: int, name: Option<string>, o: int)
    requires Inv(s)
    ensures Seen(s, SetName(s, index, name, o))
  {
    match FindHandle(s, index, o)
    case None =>
    case Some(h) => OnOutput(s, o, h); RenameLook(s, h, index, name, o);
  }

  lemma ShowLook(s: State, index: int, o: int, outputName: string)
    requires Inv(s)
    ensures Seen(s, Show(s, index, o, outputName))
  {
    match FindHandle(s, index, o)
    case None =>
    case Some(h) =>
      OnOutput(s, o, h);
      if s.shown[o] != h { NavigateLook(s, h, index, o, outputName); }
  }

  lemma MoveLook(s: State, x: int, index: int, o: int, outputName: string)
    requires Inv(s)
    ensures Seen(s, MoveWindow(s, x, index, o, outputName))
  {
    match FindHandle(s, index, o)
    case None =>
    case Some(t) =>
      OnOutput(s, o, t);
      if x in s.owner && s.owner[x] != t { MoveToLook(s, x, t, index, outputName); }
  }

  lemma MoveToLook(s: State, x: int, t: Handle, index: int, outputName: string)
    requires Inv(s) && x in s.owner && t in s.ws && s.owner[x] != t
    ensures Seen(s, MoveTo(s, x, t, index, outputName))
  {
    Owner(s, x);
    Listed(s, s.owner[x]);
    Listed(s, t);
    RehousedInv(s, x, t, outputName);
    var s1 := Rehoused(s, x, s.owner[x], t, outputName);
    MoveNewsLook(s, x, t, index, outputName);
    ThenReapLook(s, s1, MoveNews(s, s1, x, t, index), s.owner[x]);
  }

  lemma MoveNewsLook(s: State, x: int, t: Handle, index: int, outputName: string)
    requires x in s.owner && s.owner[x] in s.ws && t in s.ws
    requires s.ws[s.owner[x]].output in s.shown && s.ws[t].output in s.shown
    ensures var s1 := Rehoused(s, x, s.owner[x], t, outputName);
            Looks(FaceOf(s), MoveNews(s, s1, x, t, index)) == FaceOf(s1)
  {
    RehousedTags(s, x, s.owner[x], t, outputName);
    LooksMute(FaceOf(s), MoveNews(s, Rehoused(s, x, s.owner[x], t, outputName), x, t, index));
  }

  lemma RehousedTags(s: State, x: int, from: Handle, t: Handle, outputName: string)
    requires from in s.ws && t in s.ws
    ensures Tags(Rehoused(s, x, from, t, outputName).ws) == Tags(s.ws)
  {
  }

  lemma MapLook(s: State, x: int, o: int, outputName: string, tail: bool)
    requires Inv(s)
    ensures Seen(s, ApplyMap(s, x, o, outputName, tail))
  {
    if x !in s.owner {
      var e := EnsureOutput(s, o, outputName);
      EnsureOutputInv(s, o, outputName);
      Showing(e.state, o);
      EnsureLook(s, o, outputName);
      JoinLook(e.state, x, e.state.shown[o], tail);
      LooksConcat(FaceOf(s), e.effects, JoinNews(e.state, x, e.state.shown[o], tail));
    }
  }

  lemma JoinLook(s: State, x: int, h: Handle, tail: bool)
    requires h in s.ws && s.ws[h].output in s.shown
    ensures Looks(FaceOf(s), JoinNews(s, x, h, tail)) == FaceOf(Joined(s, x, h, tail))
  {
    LooksMute(FaceOf(s), JoinNews(s, x, h, tail));
    TagsPut(s.ws, h, Joined(s, x, h, tail).ws[h]);
  }

  lemma MapAtLook(s: State, x: int, h: Handle, tail: bool)
    requires Inv(s)
    ensures Seen(s, ApplyMapAt(s, x, h, tail))
  {
    if x !in s.owner && h in s.ws {
      Listed(s, h);
      JoinLook(s, x, h, tail);
    }
  }

  lemma LeftLook(s: State, x: int)
    requires x in s.owner && s.owner[x] in s.ws && s.ws[s.owner[x]].output in s.shown
    ensures var h, s1, o := s.owner[x], Left(s, x), s.ws[s.owner[x]].output;
            Looks(FaceOf(s), [DeleteStateBag(x)] + PushIf(s1, o, s.shown[o] == h)) == FaceOf(s1)
  {
    var h, s1, o := s.owner[x], Left(s, x), s.ws[s.owner[x]].output;
    TagsPut(s.ws, h, s1.ws[h]);
    LooksMute(FaceOf(s), [DeleteStateBag(x)] + PushIf(s1, o, s.shown[o] == h));
  }

  lemma UnmapLook(s: State, x: int)
    requires Inv(s)
    ensures Seen(s, ApplyUnmap(s, x))
  {
    if x in s.owner {
      Owner(s, x);
      var h, s1 := s.owner[x], Left(s, x);
      Listed(s, h);
      LeftInv(s, x);
      LeftLook(s, x);
      var o := s.ws[h].output;
      if s.shown[o] != h { ThenReapLook(s, s1, [DeleteStateBag(x)] + PushIf(s1, o, s.shown[o] == h), h); }
    }
  }

  lemma ShuffledLook(s: State, x: int, how: ReorderOp)
    requires Arrangeable(s, x)
    ensures Seen(s, Shuffled(s, x, how))
  {
    var r := Shuffled(s, x, how);
    LooksMute(FaceOf(s), r.effects);
    TagsPut(s.ws, s.owner[x], r.state.ws[s.owner[x]]);
    if r.state == s {} else { assert r.state.ws == s.ws[s.owner[x] := r.state.ws[s.owner[x]]]; }
  }

  lemma ReorderLook(s: State, x: int, how: ReorderOp)
    requires Inv(s)
    ensures Seen(s, Reorder(s, x, how))
  {
    if x in s.owner {
      OwnerArrangeable(s, x);
      ShuffledLook(s, x, how);
    }
  }

  lemma DestroyedLook(s: State, index: int, o: int, outputName: string)
    requires Inv(s)
    ensures var op := OpDestroy(index, o, outputName);
            var r := Transition(s, op);
            && Looks(FaceOf(s), r.effects).tags == Tags(r.state.ws)
            && (Looks(FaceOf(s), r.effects).shown == r.state.shown <==> !Unseen(s, op))
  {
    match FindHandle(s, index, o)
    case None =>
    case Some(h) =>
      OnOutput(s, o, h);
      DestroyLook(s, h, outputName);
  }

  lemma TransitionSeen(s: State, op: Op)
    requires Inv(s) && Possible(s, op) && !op.OpDestroy?
    ensures Seen(s, Transition(s, op))
  {
    if op.OpRecompute? {
      RecomputeLook(s, op.e, op.order);
    } else if OnWindow(op) {
      WindowOpSeen(s, op);
    } else {
      WorkspaceOpSeen(s, op);
    }
  }

  lemma WindowOpSeen(s: State, op: Op)
    requires Inv(s) && OnWindow(op)
    ensures Seen(s, Transition(s, op))
  {
    match op
    case OpMoveWindow(x, index, o, outputName) => MoveLook(s, x, index, o, outputName);
    case OpReorder(x, how) => ReorderLook(s, x, how);
    case OpMap(x, o, outputName, tail) => MapLook(s, x, o, outputName, tail);
    case OpMapAt(x, h, tail) => MapAtLook(s, x, h, tail);
    case OpUnmap(x) => UnmapLook(s, x);
  }

  lemma WorkspaceOpSeen(s: State, op: Op)
    requires Inv(s) && !OnWindow(op) && !op.OpDestroy? && !op.OpRecompute?
    ensures Seen(s, Transition(s, op))
  {
    match op
    case OpCreate(name, o, preferred, persistent, outputName) => CreateLook(s, name, o, preferred, persistent, outputName);
    case OpShow(index, o, outputName) => ShowLook(s, index, o, outputName);
    case OpSetUrgent(index, urgent, o) => UrgentLook(s, index, urgent, o);
    case OpSetName(index, name, o) => NameLook(s, index, name, o);
    case OpEnsureOutput(o, seed) => EnsureLook(s, o, seed);
    case OpPreRemove(_, _) =>
  }

  /** Every transition's effects rebuild names and urgency, and what each output shows unless a destroy hits the
      shown workspace: then, and only then, they do not. */
  lemma TransitionLook(s: State, op: Op)
    requires Inv(s) && Possible(s, op)
    ensures Looks(FaceOf(s), Transition(s, op).effects).tags == Tags(Transition(s, op).state.ws)
    ensures Seen(s, Transition(s, op)) <==> !Unseen(s, op)
  {
    if op.OpDestroy? { DestroyedLook(s, op.index, op.o, op.outputName); } else { TransitionSeen(s, op); }
  }

  /** Names and urgency do not depend on what is shown. */
  lemma {:induction false} TagsAlone(tags: map<Handle, Tag>, a: map<int, Handle>, b: map<int, Handle>, fs: seq<Effect>)
    ensures Looks(Face(tags, a), fs).tags == Looks(Face(tags, b), fs).tags
  {
    if fs != [] { TagsAlone(tags, a, b, Seqs.Init(fs)); }
  }

  /** Over every run the log rebuilds names and urgency; and what every output shows, as long as no destroy hits
      a shown workspace. */
  lemma {:induction false} EveryRunLooks(boot: string, ops: seq<Op>)
    requires Inv(Boot(boot).state) && AllPossible(Boot(boot).state, ops)
    ensures var (r, log) := Run(Boot(boot).state, ops);
            var face := Looks(Face(map[], map[]), Boot(boot).effects + log);
            && face.tags == Tags(r.ws)
            && (NeverUnseen(Boot(boot).state, ops) ==> face == FaceOf(r))
    decreases |ops|
  {
    var start := Boot(boot);
    if ops == [] {
      assert start.effects + [] == start.effects;
      BootLook(boot);
    } else {
      var before, op := ops[..|ops| - 1], ops[|ops| - 1];
      EveryRunLooks(boot, before);
      var (p, fs) := Run(start.state, before);
      TransitionLook(p, op);
      LogLooks(start.effects, fs, p, Transition(p, op));
    }
  }

  lemma BootLook(boot: string)
    ensures Looks(Face(map[], map[]), Boot(boot).effects) == FaceOf(Boot(boot).state)
  {
    EnsureLook(EMPTY, OUTPUT_DEFAULT, boot);
  }

  /** No step of the run destroys a shown workspace. */
  ghost predicate NeverUnseen(s: State, ops: seq<Op>)
    requires Inv(s)
    decreases |ops|
  {
    ops != [] ==> NeverUnseen(s, ops[..|ops| - 1]) && !Unseen(Run(s, ops[..|ops| - 1]).0, ops[|ops| - 1])
  }

  lemma LogLooks(start: seq<Effect>, fs: seq<Effect>, p: State, t: Outcome)
    requires Looks(Face(map[], map[]), start + fs).tags == Tags(p.ws)
    requires Looks(FaceOf(p), t.effects).tags == Tags(t.state.ws)
    ensures var face := Looks(Face(map[], map[]), start + (fs + t.effects));
            && face.tags == Tags(t.state.ws)
            && (Looks(Face(map[], map[]), start + fs) == FaceOf(p) ==> face == Looks(FaceOf(p), t.effects))
  {
    var mid := Looks(Face(map[], map[]), start + fs);
    LooksConcat(Face(map[], map[]), start + fs, t.effects);
    assert start + (fs + t.effects) == start + fs + t.effects;
    TagsAlone(mid.tags, mid.shown, p.shown, t.effects);
    assert mid == Face(mid.tags, mid.shown);
  }
}
