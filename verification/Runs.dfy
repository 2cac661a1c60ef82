/** Every run of the registry: any sequence of transitions from its initial state. */
module Runs {
  import opened Seqs
  import opened Index
  import opened Registry
  import opened Hotplug
  import opened Settling
  import opened Mirror
  import opened MirrorHotplug

  datatype Op =
    | OpCreate(name: Option<string>, o: int, preferred: Option<seq<string>>, persistent: bool, outputName: string)
    | OpDestroy(index: int, o: int, outputName: string)
    | OpShow(index: int, o: int, outputName: string)
    | OpSetUrgent(index: int, urgent: bool, o: int)
    | OpSetName(index: int, name: Option<string>, o: int)
    | OpMoveWindow(surface: int, index: int, o: int, outputName: string)
    | OpReorder(surface: int, how: ReorderOp)
    | OpMap(surface: int, o: int, outputName: string, tail: bool)
    | OpMapAt(surface: int, handle: Handle, tail: bool)
    | OpUnmap(surface: int)
    | OpEnsureOutput(o: int, seed: string)
    | OpPreRemove(o: int, key: string)
    | OpRecompute(e: Env, order: seq<int>)

  function Transition(s: State, op: Op): Outcome
    requires Inv(s)
  {
    match op
    case OpCreate(name, o, preferred, persistent, outputName) =>
      Create(s, name, o, preferred, persistent, outputName).0
    case OpDestroy(index, o, outputName) => Destroy(s, index, o, outputName).0
    case OpShow(index, o, outputName) => Show(s, index, o, outputName)
    case OpSetUrgent(index, urgent, o) => SetUrgent(s, index, urgent, o)
    case OpSetName(index, name, o) => SetName(s, index, name, o)
    case OpMoveWindow(x, index, o, outputName) => MoveWindow(s, x, index, o, outputName)
    case OpReorder(x, how) => Reorder(s, x, how)
    case OpMap(x, o, outputName, tail) => ApplyMap(s, x, o, outputName, tail)
    case OpMapAt(x, h, tail) => ApplyMapAt(s, x, h, tail)
    case OpUnmap(x) => ApplyUnmap(s, x)
    case OpEnsureOutput(o, seed) => EnsureOutput(s, o, seed)
    case OpPreRemove(o, key) => PreRemove(s, o, key)
    case OpRecompute(e, order) => Recompute(s, e, order)
  }

  /** A recompute visits the outputs it must, in some order. */
  ghost predicate Possible(s: State, op: Op) {
    op.OpRecompute? ==> Visits(op.order, s, op.e)
  }

  // ----- Every transition keeps the invariant -----

  lemma CreateInv(s: State, name: Option<string>, o: int, preferred: Option<seq<string>>, persistent: bool, outputName: string)
    requires Inv(s)
    ensures Inv(Create(s, name, o, preferred, persistent, outputName).0.state)
  {
    if !(name.Some? && FindNamed(s, name.value, s.next).Some?) {
      EnsureOutputInv(s, o, outputName);
      AppendedInv(EnsureOutput(s, o, outputName).state,
                  Workspace(o, name, SeedList(preferred, outputName), [], false, persistent));
    }
  }

  lemma DestroyInv(s: State, index: int, o: int, outputName: string)
    requires Inv(s)
    ensures Inv(Destroy(s, index, o, outputName).0.state)
  {
    match FindHandle(s, index, o)
    case None =>
    case Some(h) => OnOutput(s, o, h); DestroyHandleInv(s, h, outputName);
  }

  lemma ShowInv(s: State, index: int, o: int, outputName: string)
    requires Inv(s)
    ensures Inv(Show(s, index, o, outputName).state)
  {
    match FindHandle(s, index, o)
    case None =>
    case Some(h) =>
      OnOutput(s, o, h);
      if s.shown[o] != h {
        ShownNowInv(s, h, o, outputName);
        ReapInv(ShownNow(s, h, o, outputName), s.shown[o]);
      }
  }

  lemma MoveWindowInv(s: State, x: int, index: int, o: int, outputName: string)
    requires Inv(s)
    ensures Inv(MoveWindow(s, x, index, o, outputName).state)
  {
    var found := FindHandle(s, index, o);
    if found.Some? && x in s.owner && s.owner[x] != found.value {
      MoveWindowIs(s, x, index, o, outputName, found.value);
      MoveToInv(s, x, found.value, index, outputName);
    } else {
      MoveWindowIdle(s, x, index, o, outputName);
    }
  }

  lemma MoveToInv(s: State, x: int, t: Handle, index: int, outputName: string)
    requires Inv(s) && x in s.owner && t in s.ws && s.owner[x] != t
    ensures Inv(MoveTo(s, x, t, index, outputName).state)
  {
    Owner(s, x);
    RehousedInv(s, x, t, outputName);
    ReapInv(Rehoused(s, x, s.owner[x], t, outputName), s.owner[x]);
  }

  lemma SetUrgentInv(s: State, index: int, urgent: bool, o: int)
    requires Inv(s)
    ensures Inv(SetUrgent(s, index, urgent, o).state)
  {
    match FindHandle(s, index, o)
    case None =>
    case Some(h) => OnOutput(s, o, h); SameShapeInv(s, h, s.ws[h].(urgent := urgent));
  }

  lemma SetNameInv(s: State, index: int, name: Option<string>, o: int)
    requires Inv(s)
    ensures Inv(SetName(s, index, name, o).state)
  {
    match FindHandle(s, index, o)
    case None =>
    case Some(h) => OnOutput(s, o, h); SameShapeInv(s, h, s.ws[h].(name := name));
  }

  lemma MapInv(s: State, x: int, o: int, outputName: string, tail: bool)
    requires Inv(s)
    ensures Inv(ApplyMap(s, x, o, outputName, tail).state)
  {
    if x !in s.owner {
      EnsureOutputInv(s, o, outputName);
      var e := EnsureOutput(s, o, outputName).state;
      Showing(e, o);
      JoinedInv(e, x, e.shown[o], tail);
    }
  }

  lemma MapAtInv(s: State, x: int, h: Handle, tail: bool)
    requires Inv(s)
    ensures Inv(ApplyMapAt(s, x, h, tail).state)
  {
    if x !in s.owner && h in s.ws { JoinedInv(s, x, h, tail); }
  }

  lemma UnmapInv(s: State, x: int)
    requires Inv(s)
    ensures Inv(ApplyUnmap(s, x).state)
  {
    if x in s.owner {
      LeftInv(s, x);
      ReapInv(Left(s, x), s.owner[x]);
    }
  }

  lemma WorkspaceOpInv(s: State, op: Op)
    requires Inv(s)
    requires op.OpCreate? || op.OpDestroy? || op.OpShow? || op.OpSetUrgent? || op.OpSetName? || op.OpEnsureOutput?
    ensures Inv(Transition(s, op).state)
  {
    match op
    case OpCreate(name, o, preferred, persistent, outputName) =>
      CreateInv(s, name, o, preferred, persistent, outputName);
    case OpDestroy(index, o, outputName) => DestroyInv(s, index, o, outputName);
    case OpShow(index, o, outputName) => ShowInv(s, index, o, outputName);
    case OpSetUrgent(index, urgent, o) => SetUrgentInv(s, index, urgent, o);
    case OpSetName(index, name, o) => SetNameInv(s, index, name, o);
    case OpEnsureOutput(o, seed) => EnsureOutputInv(s, o, seed);
  }

  predicate OnWindow(op: Op) { op.OpMoveWindow? || op.OpReorder? || op.OpMap? || op.OpMapAt? || op.OpUnmap? }

  lemma WindowOpInv(s: State, op: Op)
    requires Inv(s) && OnWindow(op)
    ensures Inv(Transition(s, op).state)
  {
    if op.OpMoveWindow? {
      MoveWindowInv(s, op.surface, op.index, op.o, op.outputName);
    } else if op.OpReorder? {
      ReorderInv(s, op.surface, op.how);
    } else if op.OpMap? {
      MapInv(s, op.surface, op.o, op.outputName, op.tail);
    } else if op.OpMapAt? {
      MapAtInv(s, op.surface, op.handle, op.tail);
    } else {
      UnmapInv(s, op.surface);
    }
  }

  lemma TransitionInv(s: State, op: Op)
    requires Inv(s)
    ensures Inv(Transition(s, op).state)
  {
    if op.OpPreRemove? {
      PreRemoveInv(s, op.o, op.key);
    } else if op.OpRecompute? {
      RecomputedInv(s, op.e);
    } else if OnWindow(op) {
      WindowOpInv(s, op);
    } else {
      WorkspaceOpInv(s, op);
    }
  }

  // ----- Every transition's effects keep the mirror -----

  /** A record changes its name or urgency only, and says so. */
  lemma MirrorLabel(v: View, s: State, h: Handle, w: Workspace, f: Effect)
    requires Mirrors(v, s) && h in s.ws && w.members == s.ws[h].members && (f.UrgencyChanged? || f.Renamed?)
    ensures Mirrors(Replay(v, [f]), s.(ws := s.ws[h := w]))
  {
    MirrorSameShape(v, s, h, w);
    ReplayOne(v, f);
  }

  lemma UrgentIs(s: State, index: int, urgent: bool, o: int)
    requires Inv(s)
    ensures var found, r := FindHandle(s, index, o), SetUrgent(s, index, urgent, o);
            if found.None? then r.state == s && r.effects == []
            else
              && found.value in s.ws
              && if s.ws[found.value].urgent == urgent then r.state == s && r.effects == []
                 else r == Done(s.(ws := s.ws[found.value := s.ws[found.value].(urgent := urgent)]),
                                [UrgencyChanged(found.value, urgent, o)])
  {
    var found := FindHandle(s, index, o);
    if found.Some? { OnOutput(s, o, found.value); }
  }

  lemma MirrorUrgent(v: View, s: State, index: int, urgent: bool, o: int)
    requires Inv(s) && Mirrors(v, s)
    ensures var r := SetUrgent(s, index, urgent, o); Mirrors(Replay(v, r.effects), r.state)
  {
    UrgentIs(s, index, urgent, o);
    var found := FindHandle(s, index, o);
    if found.Some? {
      MirrorLabel(v, s, found.value, s.ws[found.value].(urgent := urgent), UrgencyChanged(found.value, urgent, o));
    }
  }

  lemma NameIs(s: State, index: int, name: Option<string>, o: int)
    requires Inv(s)
    ensures var found, r := FindHandle(s, index, o), SetName(s, index, name, o);
            if found.None? then r.state == s && r.effects == []
            else
              && found.value in s.ws
              && if s.ws[found.value].name == name then r.state == s && r.effects == []
                 else r == Done(s.(ws := s.ws[found.value := s.ws[found.value].(name := name)]),
                                [Renamed(found.value, index, o, name)])
  {
    var found := FindHandle(s, index, o);
    if found.Some? { OnOutput(s, o, found.value); }
  }

  lemma MirrorName(v: View, s: State, index: int, name: Option<string>, o: int)
    requires Inv(s) && Mirrors(v, s)
    ensures var r := SetName(s, index, name, o); Mirrors(Replay(v, r.effects), r.state)
  {
    NameIs(s, index, name, o);
    var found := FindHandle(s, index, o);
    if found.Some? {
      MirrorLabel(v, s, found.value, s.ws[found.value].(name := name), Renamed(found.value, index, o, name));
    }
  }

  lemma MirrorDestroyAt(v: View, s: State, index: int, o: int, outputName: string)
    requires Inv(s) && Mirrors(v, s)
    ensures var r := Destroy(s, index, o, outputName).0; Mirrors(Replay(v, r.effects), r.state)
  {
    match FindHandle(s, index, o)
    case None =>
    case Some(h) => OnOutput(s, o, h); MirrorDestroy(v, s, h, outputName);
  }

  lemma MirrorPreRemove(v: View, s: State, o: int, key: string)
    requires Mirrors(v, s)
    ensures Mirrors(v, PreRemove(s, o, key).state) && PreRemove(s, o, key).effects == []
  {
    var s1 := PreRemove(s, o, key).state;
    assert forall p :: StackFor(s1, p) == StackFor(s, p);
    SameStacks(v.stacks, s, s1);
  }

  lemma TransitionMirrors(v: View, s: State, op: Op)
    requires Inv(s) && Mirrors(v, s) && Possible(s, op)
    ensures var r := Transition(s, op); Mirrors(Replay(v, r.effects), r.state)
  {
    if op.OpPreRemove? {
      MirrorPreRemove(v, s, op.o, op.key);
    } else if op.OpRecompute? {
      MirrorRecompute(v, s, op.e, op.order);
    } else if OnWindow(op) {
      WindowOpMirrors(v, s, op);
    } else {
      WorkspaceOpMirrors(v, s, op);
    }
  }

  lemma WindowOpMirrors(v: View, s: State, op: Op)
    requires Inv(s) && Mirrors(v, s) && OnWindow(op)
    ensures var r := Transition(s, op); Mirrors(Replay(v, r.effects), r.state)
  {
    match op
    case OpMoveWindow(x, index, o, outputName) => MirrorMove(v, s, x, index, o, outputName);
    case OpReorder(x, how) => MirrorReorder(v, s, x, how);
    case OpMap(x, o, outputName, tail) => MirrorMap(v, s, x, o, outputName, tail);
    case OpMapAt(x, h, tail) => MirrorMapAt(v, s, x, h, tail);
    case OpUnmap(x) => MirrorUnmap(v, s, x);
  }

  lemma WorkspaceOpMirrors(v: View, s: State, op: Op)
    requires Inv(s) && Mirrors(v, s) && !OnWindow(op) && !op.OpPreRemove? && !op.OpRecompute?
    ensures var r := Transition(s, op); Mirrors(Replay(v, r.effects), r.state)
  {
    match op
    case OpCreate(name, o, preferred, persistent, outputName) =>
      MirrorCreate(v, s, name, o, preferred, persistent, outputName);
    case OpDestroy(index, o, outputName) => MirrorDestroyAt(v, s, index, o, outputName);
    case OpShow(index, o, outputName) => MirrorShow(v, s, index, o, outputName);
    case OpSetUrgent(index, urgent, o) => MirrorUrgent(v, s, index, urgent, o);
    case OpSetName(index, name, o) => MirrorName(v, s, index, name, o);
    case OpEnsureOutput(o, seed) => MirrorEnsure(v, s, o, seed);
  }

  // ----- Runs -----

  /** The state and the log after a sequence of transitions. */
  function Run(s: State, ops: seq<Op>): (r: (State, seq<Effect>))
    requires Inv(s)
    ensures Inv(r.0)
    decreases |ops|
  {
    if ops == [] then (s, [])
    else
      var (p, log) := Run(s, ops[..|ops| - 1]);
      TransitionInv(p, ops[|ops| - 1]);
      var t := Transition(p, ops[|ops| - 1]);
      (t.state, log + t.effects)
  }

  ghost predicate AllPossible(s: State, ops: seq<Op>)
    requires Inv(s)
    decreases |ops|
  {
    ops == [] || (AllPossible(s, ops[..|ops| - 1]) && Possible(Run(s, ops[..|ops| - 1]).0, ops[|ops| - 1]))
  }

  lemma InitInv(boot: string)
    ensures Inv(Boot(boot).state)
    ensures Mirrors(Replay(BLANK, Boot(boot).effects), Boot(boot).state)
  {
    EmptyInv();
    EnsureOutputInv(EMPTY, OUTPUT_DEFAULT, boot);
    MirrorEnsure(BLANK, EMPTY, OUTPUT_DEFAULT, boot);
    BootRemembers(Replay(BLANK, Boot(boot).effects), boot);
  }

  lemma EmptyInv()
    ensures Inv(EMPTY) && Mirrors(BLANK, EMPTY)
  {
    assert forall o :: At(EMPTY.positions, o) == [];
  }

  /** The focus memory is no one else's business. */
  lemma BootRemembers(v: View, boot: string)
    requires var s := EnsureOutput(EMPTY, OUTPUT_DEFAULT, boot).state; Inv(s) && Mirrors(v, s)
    ensures Inv(Boot(boot).state) && Mirrors(v, Boot(boot).state)
  {
    var s, s1 := EnsureOutput(EMPTY, OUTPUT_DEFAULT, boot).state, Boot(boot).state;
    assert forall p :: StackFor(s1, p) == StackFor(s, p);
    SameStacks(v.stacks, s, s1);
  }

  lemma LogExtends(log: seq<Effect>, fs: seq<Effect>, t: Outcome)
    requires Mirrors(Replay(Replay(BLANK, log + fs), t.effects), t.state)
    ensures Mirrors(Replay(BLANK, log + (fs + t.effects)), t.state)
  {
    ReplayConcat(BLANK, log + fs, t.effects);
    assert log + (fs + t.effects) == log + fs + t.effects;
  }

  /** Over every run from the initial state: the position lists partition the workspaces, exactly the listed outputs
      show one of theirs, each window is in exactly one workspace, no handle is ever issued twice, and replaying the
      log from nothing rebuilds the registry. */
  lemma {:induction false} EveryRun(boot: string, ops: seq<Op>)
    ensures Inv(Boot(boot).state)
    ensures Inv(Run(Boot(boot).state, ops).0)
    ensures AllPossible(Boot(boot).state, ops) ==>
              Mirrors(Replay(BLANK, Boot(boot).effects + Run(Boot(boot).state, ops).1), Run(Boot(boot).state, ops).0)
    decreases |ops|
  {
    var start := Boot(boot);
    InitInv(boot);
    if ops == [] {
      assert start.effects + [] == start.effects;
    } else {
      EveryRun(boot, ops[..|ops| - 1]);
      if AllPossible(start.state, ops) {
        var (p, fs) := Run(start.state, ops[..|ops| - 1]);
        TransitionMirrors(Replay(BLANK, start.effects + fs), p, ops[|ops| - 1]);
        LogExtends(start.effects, fs, Transition(p, ops[|ops| - 1]));
      }
    }
  }
}
