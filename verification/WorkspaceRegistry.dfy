/** The registry as the plugin holds it: maps updated in place by every transition. Each method is proved
    against the transition function of the same name; a ghost log collects the effects it reports. */
module WorkspaceRegistry {
  import opened Seqs
  import opened Registry
  import opened Hotplug
  import opened Mirror
  import opened Runs
  import Steps = RegistrySteps

  class WorkspaceStore {
    var ws: map<Handle, Workspace>
    var positions: map<int, seq<Handle>>
    var shown: map<int, Handle>
    var owner: map<int, Handle>
    var next: Handle
    var memory: map<string, Handle>
    ghost var log: seq<Effect>

    function Abs(): State reads this { State(ws, positions, shown, owner, next, memory) }

    /** The registry is well formed, and replaying the log rebuilds it. */
    ghost predicate Valid() reads this { Inv(Abs()) && Mirrors(Replay(BLANK, log), Abs()) }

    constructor (boot: string)
      ensures Valid() && Abs() == Boot(boot).state && log == Boot(boot).effects
    {
      var e := Boot(boot);
      ws, positions, shown, owner := e.state.ws, e.state.positions, e.state.shown, e.state.owner;
      next, memory, log := e.state.next, e.state.memory, e.effects;
      InitInv(boot);
    }

    /** The log takes a transition's effects. */
    ghost method Record(op: Op, before: State, effects: seq<Effect>)
      requires Inv(before) && Mirrors(Replay(BLANK, log), before) && Possible(before, op)
      requires Abs() == Transition(before, op).state && effects == Transition(before, op).effects
      modifies this`log
      ensures Valid() && log == old(log) + effects
    {
      var after := Abs();
      Steps.LogKeeps(log, before, op, after, effects);
      log := log + effects;
      assert Abs() == after;
    }

    // ----- Creating -----

    method AddFirst(o: int, seed: string) returns (effects: seq<Effect>)
      modifies this`ws, this`positions, this`shown, this`next
      ensures Abs() == Registry.EnsureOutput(old(Abs()), o, seed).state
      ensures effects == Registry.EnsureOutput(old(Abs()), o, seed).effects
    {
      if Positions(Abs(), o) != [] { return []; }
      var h := next;
      assert [] + [h] == [h];
      ws := ws[h := Workspace(o, None, if seed != "" then [seed] else [], [], false, false)];
      positions := positions[o := [h]];
      shown := shown[o := h];
      next := next + 1;
      effects := [Created(h, 1, o, None), Shown(h, 1, o)];
    }

    method EnsureOutput(o: int, seed: string) returns (effects: seq<Effect>)
      requires Valid()
      modifies this
      ensures Valid() && log == old(log) + effects
      ensures var t := Registry.EnsureOutput(old(Abs()), o, seed); Abs() == t.state && effects == t.effects
    {
      ghost var before := Abs();
      effects := AddFirst(o, seed);
      Record(OpEnsureOutput(o, seed), before, effects);
    }

    /** The workspace of that name, in creation order. */
    method Named(name: string) returns (r: Option<Handle>)
      ensures r == FindNamed(Abs(), name, next)
    {
      for k := 0 to next
        invariant FindNamed(Abs(), name, k) == None
      {
        if k in ws && ws[k].name == Some(name) {
          Steps.NamedStays(Abs(), name, k, next);
          return Some(k);
        }
      }
      return None;
    }

    method Create(name: Option<string>, o: int, preferred: Option<seq<string>>, persistent: bool, outputName: string)
      returns (effects: seq<Effect>, handle: Handle)
      requires Valid()
      modifies this
      ensures Valid() && log == old(log) + effects
      ensures var t := Registry.Create(old(Abs()), name, o, preferred, persistent, outputName);
              Abs() == t.0.state && effects == t.0.effects && handle == t.1
    {
      ghost var before := Abs();
      var known := None;
      if name.Some? { known := Named(name.value); }
      if known.Some? {
        effects, handle := [], known.value;
      } else {
        Steps.Ensured(before, o, outputName);
        effects, handle := Add(name, o, preferred, persistent, outputName);
      }
      Record(OpCreate(name, o, preferred, persistent, outputName), before, effects);
    }

    /** No workspace has the name yet. */
    method Add(name: Option<string>, o: int, preferred: Option<seq<string>>, persistent: bool, outputName: string)
      returns (effects: seq<Effect>, handle: Handle)
      requires name.Some? ==> FindNamed(Abs(), name.value, next) == None
      requires var e := Registry.EnsureOutput(Abs(), o, outputName).state; o in e.positions && o in e.shown
      modifies this`ws, this`positions, this`shown, this`next
      ensures var t := Registry.Create(old(Abs()), name, o, preferred, persistent, outputName);
              Abs() == t.0.state && effects == t.0.effects && handle == t.1
    {
      effects := AddFirst(o, outputName);
      var list := if preferred.Some? then preferred.value else [outputName];
      if outputName !in list { list := list + [outputName]; }
      ghost var e := Abs();
      handle := next;
      var index := AddLast(Workspace(o, name, list, [], false, persistent));
      NewIs(old(Abs()), name, o, preferred, persistent, outputName, e, effects, Workspace(o, name, list, [], false, persistent));
      effects := effects + [Created(handle, index, o, name)];
    }

    /** A new record at the end of an output's list, behind what is shown there. */
    method AddLast(w: Workspace) returns (index: nat)
      requires w.output in positions && w.output in shown
      modifies this`ws, this`positions, this`next
      ensures Abs() == Appended(old(Abs()), w) && index == |Positions(old(Abs()), w.output)| + 1
    {
      var handle := next;
      next := next + 1;
      ws := ws[handle := w];
      positions := positions[w.output := positions[w.output] + [handle]];
      index := |positions[w.output]|;
    }

    // ----- Destroying -----

    /** The members of `from` move to the tail of `t`, one by one. */
    method Relocate(members: seq<int>, t: Handle) returns (effects: seq<Effect>)
      requires t in ws && Distinct(members) && forall x :: x in members ==> x !in ws[t].members
      modifies this`ws, this`owner
      ensures ws == old(ws)[t := old(ws)[t].(members := old(ws)[t].members + members)]
      ensures owner == old(owner) + Sent(members, t)
      ensures effects == BagMoves(members, t)
    {
      effects := [];
      var list, index := ws[t].members, owner;
      for k := 0 to |members|
        invariant ws == old(ws) && owner == old(owner) && list == ws[t].members + members[..k]
        invariant index == owner + Sent(members[..k], t)
        invariant effects == BagMoves(members[..k], t)
      {
        var x := members[k];
        Steps.NextMember(ws[t].members, members, k, owner, t);
        if x !in list { list := list + [x]; }
        index := index[x := t];
        effects := effects + [SetStateBag(x, t)];
      }
      assert members[..|members|] == members;
      ws, owner := ws[t := ws[t].(members := list)], index;
    }

    /** Everything past the gap is one place further left. */
    method Renumber(rest: seq<Handle>, pos0: nat) returns (changes: seq<Registry.Renumber>)
      requires pos0 <= |rest|
      ensures changes == Renumbering(rest, pos0)
    {
      changes := [];
      for i := pos0 to |rest|
        invariant |changes| == i - pos0
        invariant forall k :: 0 <= k < |changes| ==>
          changes[k] == Registry.Renumber(rest[pos0 + k], pos0 + k + 2, pos0 + k + 1)
      {
        changes := changes + [Registry.Renumber(rest[i], i + 2, i + 1)];
      }
    }

    /** The workspace leaves its list and the table; its neighbour, or a replacement, is the target. */
    method Unlist(h: Handle, seed: string)
      returns (target: Handle, effects: seq<Effect>, changes: seq<Registry.Renumber>)
      requires Steps.Removable(Abs(), h)
      modifies this`ws, this`positions, this`next
      ensures target == Relocation(old(Abs()), h, seed).1
      ensures Steps.Unlisted(old(Abs()), h, seed, target, Abs())
      ensures effects == Announced(old(Abs()), old(ws)[h].output, old(positions)[old(ws)[h].output])
      ensures changes == Steps.Shifted(old(Abs()), h)
    {
      var o := ws[h].output;
      var pos0 := IndexOf(positions[o], h);
      var rest := RemoveAt(positions[o], pos0);
      effects, changes := [], [];
      ws := ws - {h};
      positions := positions[o := rest];
      if rest == [] {
        target := next;
        next := next + 1;
        ws := ws[target := Workspace(o, None, if seed != "" then [seed] else [], [], false, false)];
        positions := positions[o := [target]];
        effects := [Created(target, 1, o, None)];
      } else {
        target := if pos0 < |rest| then rest[pos0] else rest[|rest| - 1];
        changes := Renumber(rest, pos0);
      }
    }

    /** `destroy`, once the workspace is found: out of the list, its windows to the neighbour that takes its
        place (or to a replacement), and the rest renumbered. */
    method Demolish(h: Handle, seed: string)
      returns (effects: seq<Effect>, changes: seq<Registry.Renumber>, ghost s1: State, ghost t: Handle)
      requires Steps.Removable(Abs(), h)
      modifies this`ws, this`positions, this`shown, this`owner, this`next
      ensures (s1, t) == Relocation(old(Abs()), h, seed)
      ensures Steps.Mergeable(s1, h, t) && Abs() == Retired(s1, h, t)
      ensures changes == Steps.Shifted(old(Abs()), h)
      ensures effects == Announced(old(Abs()), old(ws)[h].output, old(positions)[old(ws)[h].output])
                         + RetireEffects(s1, h, t, IndexOf(old(positions)[old(ws)[h].output], h) + 1, changes)
    {
      ghost var s0 := Abs();
      Steps.RelocationMerges(s0, h, seed);
      s1, t := Relocation(s0, h, seed).0, Relocation(s0, h, seed).1;
      var w := ws[h];
      var o, index := w.output, IndexOf(positions[w.output], h) + 1;
      var wasShown := shown[o] == h;
      var target;
      target, effects, changes := Unlist(h, seed);
      ghost var u := Abs();
      Steps.TargetReady(s0, h, seed, u);
      var moves := Relocate(w.members, target);
      if wasShown { shown := shown[o := target]; }
      Steps.RetiredIs(s0, h, seed, u, Abs());
      var news := RetireNews(h, w, target, index, changes, wasShown);
      Steps.Assembled(s1, h, t, index, changes, Abs(), moves, news);
      effects := effects + (moves + news);
    }

    /** The closing events, once everything has moved. */
    method RetireNews(h: Handle, w: Workspace, target: Handle, index: int, changes: seq<Registry.Renumber>, wasShown: bool)
      returns (effects: seq<Effect>)
      requires w.output in shown
      ensures effects == [Destroyed(h, index, w.output)]
                         + (if changes != [] then [Renumbered(w.output, changes)] else [])
                         + (if wasShown then [Push(Abs(), w.output), RequestFocusDecision]
                            else PushIf(Abs(), w.output, w.members != [] && shown[w.output] == target))
    {
      effects := [Destroyed(h, index, w.output)];
      if changes != [] { effects := effects + [Renumbered(w.output, changes)]; }
      if wasShown {
        effects := effects + [Push(Abs(), w.output), RequestFocusDecision];
      } else if w.members != [] && shown[w.output] == target {
        effects := effects + [Push(Abs(), w.output)];
      }
    }

    method DestroyWorkspace(h: Handle, seed: string) returns (effects: seq<Effect>, changes: seq<Registry.Renumber>)
      requires Inv(Abs()) && h in ws
      modifies this`ws, this`positions, this`shown, this`owner, this`next
      ensures var t := DestroyHandle(old(Abs()), h, seed);
              Abs() == t.0.state && effects == t.0.effects && changes == t.1
    {
      Steps.DemolishIs(Abs(), h, seed);
      ghost var s1, t;
      effects, changes, s1, t := Demolish(h, seed);
    }

    /** `destroy`; it reports failure where the plugin throws. */
    method Destroy(index: int, o: int, outputName: string)
      returns (ok: bool, effects: seq<Effect>, changes: seq<Registry.Renumber>)
      requires Valid()
      modifies this
      ensures Valid() && log == old(log) + effects
      ensures var t := Registry.Destroy(old(Abs()), index, o, outputName);
              Abs() == t.0.state && effects == t.0.effects && ok == t.0.ok && changes == t.1
    {
      ghost var before := Abs();
      var found := FindHandle(Abs(), index, o);
      ok, effects, changes := found.Some?, [], [];
      if found.Some? {
        OnOutput(Abs(), o, found.value);
        effects, changes := DestroyWorkspace(found.value, outputName);
      }
      Record(OpDestroy(index, o, outputName), before, effects);
    }

    /** `reapIfEmpty`: an empty dynamic workspace that is not shown goes away. */
    method Reap(h: Handle) returns (effects: seq<Effect>)
      requires Inv(Abs())
      modifies this`ws, this`positions, this`shown, this`owner, this`next
      ensures Abs() == ReapIfEmpty(old(Abs()), h).state && effects == ReapIfEmpty(old(Abs()), h).effects
    {
      effects := [];
      if h !in ws { return; }
      if ws[h].persistent || |ws[h].members| > 0 { return; }
      if ws[h].output in shown && shown[ws[h].output] == h { return; }
      var changes;
      effects, changes := DestroyWorkspace(h, "");
    }

    // ----- Showing, naming, urgency -----

    method Remember(name: string, h: Handle)
      modifies this`memory
      ensures memory == Remembered(old(memory), name, h)
    {
      if name != "" { memory := memory[name := h]; }
    }

    /** The new workspace is up: what subscribers hear before the old one may evaporate. */
    method Reveal(h: Handle, index: int, o: int, outputName: string) returns (effects: seq<Effect>)
      requires h in ws && o in shown && shown[o] in Positions(Abs(), o)
      modifies this`ws, this`shown, this`memory
      ensures Abs() == ShownNow(old(Abs()), h, o, outputName)
      ensures effects == ShowNews(old(Abs()), Abs(), h, index, o)
    {
      var prev := shown[o];
      shown := shown[o := h];
      Remember(outputName, h);
      effects := [];
      if ws[h].urgent { effects := [UrgencyChanged(h, false, o)]; }
      ws := ws[h := ws[h].(urgent := false)];
      var i := FindIndex(Abs(), prev, o);
      effects := effects + [Hidden(prev, i.value, o), Shown(h, index, o)];
      effects := effects + [Push(Abs(), o)] + [RequestFocusDecision];
    }

    method Navigate(h: Handle, index: int, o: int, outputName: string) returns (effects: seq<Effect>)
      requires Inv(Abs()) && h in ws && ws[h].output == o && o in shown
      modifies this`ws, this`positions, this`shown, this`owner, this`next, this`memory
      ensures Abs() == Registry.Navigate(old(Abs()), h, index, o, outputName).state
      ensures effects == Registry.Navigate(old(Abs()), h, index, o, outputName).effects
    {
      ShownNowInv(Abs(), h, o, outputName);
      var prev := shown[o];
      Showing(Abs(), o);
      effects := Reveal(h, index, o, outputName);
      var reaped := Reap(prev);
      effects := effects + reaped;
    }

    method Show(index: int, o: int, outputName: string) returns (ok: bool, effects: seq<Effect>)
      requires Valid()
      modifies this
      ensures Valid() && log == old(log) + effects
      ensures var t := Registry.Show(old(Abs()), index, o, outputName);
              Abs() == t.state && effects == t.effects && ok == t.ok
    {
      ghost var before := Abs();
      ok, effects := Switch(index, o, outputName);
      Record(OpShow(index, o, outputName), before, effects);
    }

    method Switch(index: int, o: int, outputName: string) returns (ok: bool, effects: seq<Effect>)
      requires Inv(Abs())
      modifies this`ws, this`positions, this`shown, this`owner, this`next, this`memory
      ensures var t := Registry.Show(old(Abs()), index, o, outputName);
              Abs() == t.state && effects == t.effects && ok == t.ok
    {
      var found := FindHandle(Abs(), index, o);
      ok, effects := found.Some?, [];
      if found.Some? {
        OnOutput(Abs(), o, found.value);
        if shown[o] == found.value {
          Remember(outputName, found.value);
        } else {
          effects := Navigate(found.value, index, o, outputName);
        }
      }
    }

    method SetUrgent(index: int, urgent: bool, o: int) returns (ok: bool, effects: seq<Effect>)
      requires Valid()
      modifies this
      ensures Valid() && log == old(log) + effects
      ensures var t := Registry.SetUrgent(old(Abs()), index, urgent, o);
              Abs() == t.state && effects == t.effects && ok == t.ok
    {
      ghost var before := Abs();
      ok, effects := Flag(index, urgent, o);
      Record(OpSetUrgent(index, urgent, o), before, effects);
    }

    method Flag(index: int, urgent: bool, o: int) returns (ok: bool, effects: seq<Effect>)
      requires Inv(Abs())
      modifies this`ws
      ensures var t := Registry.SetUrgent(old(Abs()), index, urgent, o);
              Abs() == t.state && effects == t.effects && ok == t.ok
    {
      var found := FindHandle(Abs(), index, o);
      if found.None? { return false, []; }
      var h := found.value;
      OnOutput(Abs(), o, h);
      if ws[h].urgent == urgent { return true, []; }
      ws := ws[h := ws[h].(urgent := urgent)];
      return true, [UrgencyChanged(h, urgent, o)];
    }

    method SetName(index: int, name: Option<string>, o: int) returns (ok: bool, effects: seq<Effect>)
      requires Valid()
      modifies this
      ensures Valid() && log == old(log) + effects
      ensures var t := Registry.SetName(old(Abs()), index, name, o);
              Abs() == t.state && effects == t.effects && ok == t.ok
    {
      ghost var before := Abs();
      ok, effects := Rename(index, name, o);
      Record(OpSetName(index, name, o), before, effects);
    }

    method Rename(index: int, name: Option<string>, o: int) returns (ok: bool, effects: seq<Effect>)
      requires Inv(Abs())
      modifies this`ws
      ensures var t := Registry.SetName(old(Abs()), index, name, o);
              Abs() == t.state && effects == t.effects && ok == t.ok
    {
      var found := FindHandle(Abs(), index, o);
      if found.None? { return false, []; }
      var h := found.value;
      OnOutput(Abs(), o, h);
      if ws[h].name == name { return true, []; }
      ws := ws[h := ws[h].(name := name)];
      return true, [Renamed(h, index, o, name)];
    }

    // ----- Windows -----

    /** `promotePreferredOutput`, on the list. */
    method Promote(preferred: seq<string>, name: string) returns (list: seq<string>)
      ensures list == Promoted(preferred, name)
    {
      list := preferred;
      var i := IndexOf(list, name);
      if i == 0 {
        Steps.AlreadyFirst(list, name);
        return;
      }
      if i > 0 { list := RemoveAt(list, i); }
      list := [name] + list;
    }

    /** The surface leaves one member list for the tail of another. */
    method Shift(x: int, from: Handle, t: Handle, promote: bool, outputName: string)
      requires from in ws && t in ws && from != t && x !in ws[t].members
      requires promote == (ws[t].output != ws[from].output && outputName != "")
      modifies this`ws, this`owner
      ensures Abs() == Rehoused(old(Abs()), x, from, t, outputName)
    {
      ws := ws[from := ws[from].(members := Remove(ws[from].members, x))];
      if x !in ws[t].members { ws := ws[t := ws[t].(members := ws[t].members + [x])]; }
      owner := owner[x := t];
      if promote {
        var list := Promote(ws[t].preferred, outputName);
        ws := ws[t := ws[t].(preferred := list)];
      }
      Steps.RehousedWs(old(Abs()), x, from, t, outputName, ws);
    }

    /** A window's move; a cross-output one promotes the destination. */
    method Rehouse(x: int, t: Handle, index: int, outputName: string) returns (effects: seq<Effect>)
      requires x in owner && owner[x] in ws && t in ws && owner[x] != t
      requires x !in ws[t].members && ws[owner[x]].output in shown && ws[t].output in shown
      requires owner[x] in Positions(Abs(), ws[owner[x]].output)
      modifies this`ws, this`owner
      ensures Abs() == Rehoused(old(Abs()), x, old(owner)[x], t, outputName)
      ensures effects == MoveNews(old(Abs()), Abs(), x, t, index)
    {
      var from := owner[x];
      var home, o := ws[from].output, ws[t].output;
      var fromIndex := FindIndex(Abs(), from, home);
      effects := [SetStateBag(x, t), WindowMoved(x, from, t, fromIndex.value, index, home, o)];
      Shift(x, from, t, o != home && outputName != "", outputName);
      var pushes := [];
      if shown[home] == from { pushes := [Push(Abs(), home)]; }
      if o != home || shown[home] != from {
        if shown[o] == t { pushes := pushes + [Push(Abs(), o)]; }
      }
      effects := effects + pushes;
    }

    method MoveTo(x: int, t: Handle, index: int, outputName: string) returns (effects: seq<Effect>)
      requires Inv(Abs()) && x in owner && t in ws && owner[x] != t
      modifies this`ws, this`positions, this`shown, this`owner, this`next
      ensures Abs() == Registry.MoveTo(old(Abs()), x, t, index, outputName).state
      ensures effects == Registry.MoveTo(old(Abs()), x, t, index, outputName).effects
    {
      Steps.Movable(Abs(), x, t);
      RehousedInv(Abs(), x, t, outputName);
      var from := owner[x];
      effects := Rehouse(x, t, index, outputName);
      var reaped := Reap(from);
      effects := effects + reaped;
    }

    method MoveWindow(x: int, index: int, o: int, outputName: string) returns (ok: bool, effects: seq<Effect>)
      requires Valid()
      modifies this
      ensures Valid() && log == old(log) + effects
      ensures var t := Registry.MoveWindow(old(Abs()), x, index, o, outputName);
              Abs() == t.state && effects == t.effects && ok == t.ok
    {
      ghost var before := Abs();
      ok, effects := Move(x, index, o, outputName);
      Record(OpMoveWindow(x, index, o, outputName), before, effects);
    }

    method Move(x: int, index: int, o: int, outputName: string) returns (ok: bool, effects: seq<Effect>)
      requires Inv(Abs())
      modifies this`ws, this`positions, this`shown, this`owner, this`next
      ensures var t := Registry.MoveWindow(old(Abs()), x, index, o, outputName);
              Abs() == t.state && effects == t.effects && ok == t.ok
    {
      var found := FindHandle(Abs(), index, o);
      ok, effects := found.Some? && x in owner, [];
      MoveWindowOk(Abs(), x, index, o, outputName);
      if ok && owner[x] != found.value {
        MoveWindowIs(Abs(), x, index, o, outputName, found.value);
        effects := MoveTo(x, found.value, index, outputName);
      } else {
        MoveWindowIdle(Abs(), x, index, o, outputName);
      }
    }

    /** The member list with `x` in its new place; the same list if the request changes nothing. */
    method Rearrange(members: seq<int>, x: int, how: ReorderOp) returns (r: seq<int>)
      requires x in members
      ensures var i := IndexOf(members, x);
              var j := ReorderTarget(how, i, |members|);
              r == if i == j then members else Reordered(members, i, j)
    {
      var i := IndexOf(members, x);
      match how
      case MoveToIndex(target) =>
        var n := Clamp(0, target, |members| - 1);
        r := if n == i then members else InsertAt(RemoveAt(members, i), n, x);
      case Promote =>
        r := if i == 0 then members else [x] + RemoveAt(members, i);
        Steps.FrontIsMove(members, i);
      case SwapNext =>
        if i >= |members| - 1 { return members; }
        r := members[i := members[i + 1]][i + 1 := members[i]];
        Steps.SwapIsMove(members, i);
      case SwapPrev =>
        if i <= 0 { return members; }
        r := members[i := members[i - 1]][i - 1 := members[i]];
        Steps.SwapIsMove(members, i - 1);
    }

    method Reorder(x: int, how: ReorderOp) returns (ok: bool, effects: seq<Effect>)
      requires Valid()
      modifies this
      ensures Valid() && log == old(log) + effects
      ensures var t := Registry.Reorder(old(Abs()), x, how); Abs() == t.state && effects == t.effects && ok == t.ok
    {
      ghost var before := Abs();
      ok, effects := Arrange(x, how);
      Record(OpReorder(x, how), before, effects);
    }

    method Arrange(x: int, how: ReorderOp) returns (ok: bool, effects: seq<Effect>)
      requires Inv(Abs())
      modifies this`ws
      ensures var t := Registry.Reorder(old(Abs()), x, how); Abs() == t.state && effects == t.effects && ok == t.ok
    {
      if x !in owner { return false, []; }
      ok := true;
      Steps.Rearranging(Abs(), x, how);
      effects := Shuffle(x, how);
    }

    method Shuffle(x: int, how: ReorderOp) returns (effects: seq<Effect>)
      requires Arrangeable(Abs(), x)
      requires Steps.Moved(Abs(), x, how) || Staying(Abs(), x, how)
      modifies this`ws
      ensures var t := Shuffled(old(Abs()), x, how); Abs() == t.state && effects == t.effects
    {
      effects := [];
      var h := owner[x];
      var members := Rearrange(ws[h].members, x, how);
      if members != ws[h].members {
        ws := ws[h := ws[h].(members := members)];
        if shown[ws[h].output] == h { effects := [Push(Abs(), ws[h].output)]; }
      }
    }

    // ----- Mapping -----

    /** The window joins a workspace; its output's stack is pushed if that workspace is shown. */
    method Insert(x: int, h: Handle, tail: bool) returns (effects: seq<Effect>)
      requires h in ws && x !in ws[h].members && ws[h].output in shown
      modifies this`ws, this`owner
      ensures Abs() == Joined(old(Abs()), x, h, tail)
      ensures effects == JoinNews(old(Abs()), x, h, tail)
    {
      var m := ws[h].members;
      if x !in m { ws := ws[h := ws[h].(members := if tail then m + [x] else [x] + m)]; }
      owner := owner[x := h];
      effects := [SetStateBag(x, h)];
      if shown[ws[h].output] == h { effects := effects + [Push(Abs(), ws[h].output)]; }
    }

    method ApplyMap(x: int, o: int, outputName: string, tail: bool) returns (effects: seq<Effect>)
      requires Valid()
      modifies this
      ensures Valid() && log == old(log) + effects
      ensures var t := Registry.ApplyMap(old(Abs()), x, o, outputName, tail); Abs() == t.state && effects == t.effects
    {
      ghost var before := Abs();
      effects := MapNew(x, o, outputName, tail);
      Record(OpMap(x, o, outputName, tail), before, effects);
    }

    method MapNew(x: int, o: int, outputName: string, tail: bool) returns (effects: seq<Effect>)
      requires Inv(Abs())
      modifies this`ws, this`positions, this`shown, this`owner, this`next
      ensures var t := Registry.ApplyMap(old(Abs()), x, o, outputName, tail); Abs() == t.state && effects == t.effects
    {
      if x in owner { return []; }
      Steps.Mappable(Abs(), x, o, outputName);
      effects := Map(x, o, outputName, tail);
    }

    method Map(x: int, o: int, outputName: string, tail: bool) returns (effects: seq<Effect>)
      requires var e := Registry.EnsureOutput(Abs(), o, outputName).state;
               o in e.shown && e.shown[o] in e.ws && e.ws[e.shown[o]].output == o && x !in e.ws[e.shown[o]].members
      modifies this`ws, this`positions, this`shown, this`owner, this`next
      ensures var e := Registry.EnsureOutput(old(Abs()), o, outputName);
              && Abs() == Joined(e.state, x, e.state.shown[o], tail)
              && effects == e.effects + JoinNews(e.state, x, e.state.shown[o], tail)
    {
      effects := AddFirst(o, outputName);
      var news := Insert(x, shown[o], tail);
      effects := effects + news;
    }

    method ApplyMapAt(x: int, h: Handle, tail: bool) returns (ok: bool, effects: seq<Effect>)
      requires Valid()
      modifies this
      ensures Valid() && log == old(log) + effects
      ensures var t := Registry.ApplyMapAt(old(Abs()), x, h, tail); Abs() == t.state && effects == t.effects && ok == t.ok
    {
      ghost var before := Abs();
      ok, effects := MapNewAt(x, h, tail);
      Record(OpMapAt(x, h, tail), before, effects);
    }

    method MapNewAt(x: int, h: Handle, tail: bool) returns (ok: bool, effects: seq<Effect>)
      requires Inv(Abs())
      modifies this`ws, this`owner
      ensures var t := Registry.ApplyMapAt(old(Abs()), x, h, tail); Abs() == t.state && effects == t.effects && ok == t.ok
    {
      if x in owner { return true, []; }
      if h !in ws { return false, []; }
      ok := true;
      Steps.MappableAt(Abs(), x, h);
      effects := Insert(x, h, tail);
    }

    /** The window leaves its workspace and the index. */
    method Drop(x: int, h: Handle) returns (effects: seq<Effect>)
      requires x in owner && owner[x] == h && h in ws && ws[h].output in shown
      modifies this`ws, this`owner
      ensures Abs() == Left(old(Abs()), x)
      ensures effects == [DeleteStateBag(x)] + PushIf(Abs(), ws[h].output, shown[ws[h].output] == h)
    {
      ws := ws[h := ws[h].(members := Remove(ws[h].members, x))];
      owner := owner - {x};
      effects := [DeleteStateBag(x)];
      if shown[ws[h].output] == h { effects := effects + [Push(Abs(), ws[h].output)]; }
    }

    method ApplyUnmap(x: int) returns (effects: seq<Effect>)
      requires Valid()
      modifies this
      ensures Valid() && log == old(log) + effects
      ensures var t := Registry.ApplyUnmap(old(Abs()), x); Abs() == t.state && effects == t.effects
    {
      ghost var before := Abs();
      effects := [];
      if x in owner { effects := Unmap(x); }
      Record(OpUnmap(x), before, effects);
    }

    method Unmap(x: int) returns (effects: seq<Effect>)
      requires Inv(Abs()) && x in owner
      modifies this`ws, this`positions, this`shown, this`owner, this`next
      ensures var t := Registry.ApplyUnmap(old(Abs()), x); Abs() == t.state && effects == t.effects
    {
      Owner(Abs(), x);
      var h := owner[x];
      Listed(Abs(), h);
      LeftInv(Abs(), x);
      effects := Drop(x, h);
      if shown[ws[h].output] != h {
        var reaped := Reap(h);
        effects := effects + reaped;
      }
    }

    /** The handler for an output about to go: remember what it shows. */
    method PreRemove(o: int, key: string)
      requires Valid()
      modifies this
      ensures Valid() && log == old(log) && Abs() == Registry.PreRemove(old(Abs()), o, key).state
    {
      ghost var before := Abs();
      if o in shown { memory := memory[key := shown[o]]; }
      Record(OpPreRemove(o, key), before, []);
    }

    // ----- Hotplug -----

    /** `currentLiveOutput`: the name table, then the first preference it has. */
    method CurrentLiveOutput(preferred: seq<string>, live: LiveOutputs) returns (r: Option<int>)
      ensures r == Resolve(preferred, live)
    {
      var byName: map<string, int> := map[];
      for i := 0 to |live|
        invariant forall name :: (if name in byName then Some(byName[name]) else None) == ByName(live[..i], name)
      {
        assert live[..i + 1][..i] == live[..i];
        byName := byName[live[i].name := live[i].id];
      }
      assert live[..|live|] == live;
      for i := 0 to |preferred|
        invariant Resolve(preferred, live) == Resolve(preferred[i..], live)
      {
        if preferred[i] in byName { return Some(byName[preferred[i]]); }
        assert preferred[i..][1..] == preferred[i + 1..];
      }
      return None;
    }

    /** Where a workspace belongs now, remembering an output it is forced onto. */
    method Home(w: Workspace, e: Env) returns (r: Workspace)
      ensures r == Rehomed(w, e)
    {
      var resolved := CurrentLiveOutput(w.preferred, e.live);
      if resolved.Some? {
        return w.(output := resolved.value);
      }
      var ids := LiveIds(e.live);
      if e.live != [] {
        SortedElements(Ids(e.live));
        r := w.(output := ids[0]);
        var name := NameOf(e.live, ids[0]);
        if name !in r.preferred { r := r.(preferred := r.preferred + [name]); }
      } else {
        r := w.(output := e.fallback);
        if e.fallbackName != "" && e.fallbackName !in r.preferred {
          r := r.(preferred := r.preferred + [e.fallbackName]);
        }
      }
    }

    /** One workspace to its home: between the position lists, and off the screen it was shown on. */
    method MigrateOne(h: Handle, e: Env) returns (moves: seq<Effect>)
      requires h in ws
      modifies this`ws, this`positions, this`shown
      ensures Abs() == Hotplug.MigrateOne(old(Abs()), h, e) && moves == MoveOf(old(Abs()), e, h)
    {
      var from := ws[h].output;
      var w := Home(ws[h], e);
      ws := ws[h := w];
      if w.output == from { return []; }
      positions := positions[from := Remove(Positions(Abs(), from), h)];
      positions := positions[w.output := Positions(Abs(), w.output) + [h]];
      if from in shown && shown[from] == h { shown := shown - {from}; }
      return [Migrated(h, from, w.output)];
    }

    /** Steps 1 and 2, in creation order. */
    method MigrateAll(e: Env) returns (moves: seq<Effect>)
      modifies this`ws, this`positions, this`shown
      ensures Abs() == Migrate(old(Abs()), e, next) && moves == Moves(old(Abs()), e, next)
    {
      moves := [];
      ghost var s := Abs();
      for k := 0 to next
        invariant next == old(next) && Abs() == Migrate(s, e, k) && moves == Moves(s, e, k)
      {
        if k in ws {
          MigrateRecord(s, e, k, k);
          var m := MigrateOne(k, e);
          moves := moves + m;
        }
      }
    }

    /** Step 3: every live output has a workspace. */
    method ReplenishAll(e: Env) returns (effects: seq<Effect>)
      modifies this`ws, this`positions, this`next
      ensures var ids := LiveIds(e.live);
              Abs() == Replenish(old(Abs()), e, ids, |ids|) && effects == Replenishments(old(Abs()), e, ids, |ids|)
    {
      effects := [];
      var ids := LiveIds(e.live);
      ghost var s := Abs();
      for i := 0 to |ids|
        invariant Abs() == Replenish(s, e, ids, i) && effects == Replenishments(s, e, ids, i)
      {
        var created := ReplenishOne(ids[i], e);
        effects := effects + created;
      }
    }

    method ReplenishOne(id: int, e: Env) returns (effects: seq<Effect>)
      modifies this`ws, this`positions, this`next
      ensures Abs() == Hotplug.ReplenishOne(old(Abs()), e, id) && effects == CreatedOf(old(Abs()), id)
    {
      if Positions(Abs(), id) != [] { return []; }
      var h := next;
      next := next + 1;
      ws := ws[h := Workspace(id, None, [NameOf(e.live, id)], [], false, false)];
      positions := positions[id := Positions(Abs(), id) + [h]];
      return [Created(h, 1, id, None)];
    }

    /** Step 4: the remembered workspace, or the first. */
    method RestoreAll(e: Env)
      modifies this`shown, this`memory
      requires Steps.ShownHasList(Abs())
      ensures shown == Restored(old(Abs()), e) && memory == old(memory)
    {
      var todo := positions.Keys;
      ghost var s := Abs();
      while todo != {}
        invariant todo <= positions.Keys && memory == old(memory)
        invariant forall o :: o in todo ==> (o in shown <==> o in s.shown) && (o in shown ==> shown[o] == s.shown[o])
        invariant forall o :: o in shown ==> o in positions && positions[o] != []
        invariant forall o :: o in positions && o !in todo ==>
          if positions[o] == [] then o !in shown
          else o in shown && shown[o] == if o in s.shown then s.shown[o] else Choice(s, e, o)
        decreases |todo|
      {
        Steps.NonEmpty(todo);
        var o :| o in todo;
        todo := todo - {o};
        if positions[o] != [] && o !in shown {
          var name := DurableName(e, o);
          var chosen := positions[o][0];
          if name != "" && name in memory && memory[name] in positions[o] {
            chosen := memory[name];
            memory := memory[name := chosen];
          }
          shown := shown[o := chosen];
        }
      }
      Steps.RestoredIs(s, e, shown);
    }

    /** Step 7. */
    method PruneAll()
      modifies this`positions
      ensures positions == Pruned(old(positions))
    {
      var todo := positions.Keys;
      while todo != {}
        invariant todo <= positions.Keys <= old(positions).Keys
        invariant forall o :: o in positions ==> positions[o] == old(positions)[o]
        invariant forall o :: o in old(positions) && o !in todo ==> (o in positions <==> old(positions)[o] != [])
        invariant forall o :: o in todo ==> o in positions
        decreases |todo|
      {
        Steps.NonEmpty(todo);
        var o :| o in todo;
        todo := todo - {o};
        if positions[o] == [] { positions := positions - {o}; }
      }
      Steps.PrunedIs(old(positions), positions);
    }

    /** The outputs to compare, each once, in some order. */
    method Checklist(e: Env) returns (order: seq<int>)
      ensures Visits(order, Abs(), e)
    {
      order := [];
      var todo := positions.Keys + (set id | id in Ids(e.live)) + {e.fallback};
      ghost var all := todo;
      while todo != {}
        invariant Distinct(order) && todo <= all
        invariant forall o :: o in all <==> o in order || o in todo
        invariant forall o :: o in order ==> o !in todo
        decreases |todo|
      {
        Steps.NonEmpty(todo);
        var o :| o in todo;
        todo := todo - {o};
        order := order + [o];
      }
    }

    /** Step 5 for one output: what it showed before, against what it shows now. */
    method DiffOne(o: int, before: Option<Handle>, ghost s: State) returns (effects: seq<Effect>, changed: bool)
      requires before == ShownAt(s, o)
      ensures effects == Diff(s, Abs(), o) && changed == (ShownAt(s, o) != ShownAt(Abs(), o))
    {
      var after := if o in shown then Some(shown[o]) else None;
      if before == after { return [], false; }
      effects := [];
      if before.Some? { effects := [Hidden(before.value, IndexIn(Abs(), before.value, o), o)]; }
      if after.Some? { effects := effects + [Shown(after.value, IndexIn(Abs(), after.value, o), o)]; }
      effects := effects + [Push(Abs(), o)];
      return effects, true;
    }

    method DiffAll(order: seq<int>, shownBefore: map<int, Handle>, ghost s: State)
      returns (effects: seq<Effect>, any: bool)
      requires s.shown == shownBefore
      ensures effects == Diffs(s, Abs(), order, |order|) && any == AnyShownChanged(s, Abs(), order)
    {
      effects, any := [], false;
      for i := 0 to |order|
        invariant effects == Diffs(s, Abs(), order, i)
        invariant any == exists j :: 0 <= j < i && ShownAt(s, order[j]) != ShownAt(Abs(), order[j])
      {
        var o := order[i];
        var news, changed := DiffOne(o, if o in shownBefore then Some(shownBefore[o]) else None, s);
        effects, any := effects + news, any || changed;
      }
    }

    /** `recomputeOutputs`, all seven steps. The log is told which order the outputs were visited in. */
    method Resettle(e: Env) returns (effects: seq<Effect>, order: seq<int>)
      requires Steps.ShownHasList(Refilled(Abs(), e))
      modifies this`ws, this`positions, this`shown, this`next, this`memory
      ensures Visits(order, old(Abs()), e)
      ensures var t := Hotplug.Recompute(old(Abs()), e, order); Abs() == t.state && effects == t.effects
    {
      ghost var s := Abs();
      order := Checklist(e);
      var shownBefore := shown;
      var moves := MigrateAll(e);
      var created := ReplenishAll(e);
      RestoreAll(e);
      ghost var unpruned := Abs();
      var diffs, any := DiffAll(order, shownBefore, s);
      PruneAll();
      Steps.DiffsPruned(s, unpruned, Abs(), order, |order|);
      Steps.AnyShownPruned(s, unpruned, Abs(), order);
      effects := created + diffs + moves;
      if any { effects := effects + [RequestFocusDecision]; }
    }

    method RecomputeOutputs(e: Env) returns (effects: seq<Effect>, order: seq<int>)
      requires Valid()
      modifies this
      ensures Valid() && log == old(log) + effects && Visits(order, old(Abs()), e)
      ensures var t := Hotplug.Recompute(old(Abs()), e, order); Abs() == t.state && effects == t.effects
    {
      ghost var before := Abs();
      Steps.RefilledShown(before, e);
      effects, order := Resettle(e);
      Record(OpRecompute(e, order), before, effects);
    }
  }
}
