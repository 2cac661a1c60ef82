/** The workspace registry: its state, the effects it reports, and every transition as a function.

    Map iteration order: `byHandle` is only ever extended with a larger handle, so its insertion order
    is ascending handle order; transitions below walk handles in that order.
 */
module Registry {
  import opened Seqs
  import opened Index

  type Handle = nat

  const OUTPUT_DEFAULT := 0

  datatype Workspace = Workspace(
    output: int, name: Option<string>, preferred: seq<string>,
    members: seq<int>, urgent: bool, persistent: bool)

  datatype State = State(
    ws: map<Handle, Workspace>,          // byHandle
    positions: map<int, seq<Handle>>,    // positionsByOutput
    shown: map<int, Handle>,             // shownByOutput
    owner: map<int, Handle>,             // surfaceToHandle
    next: Handle,                        // nextHandle
    memory: map<string, Handle>)         // lastActiveByOutputName

  datatype Renumber = Renumber(handle: Handle, oldIndex: int, newIndex: int)

  datatype Effect =
    | SetOutputStack(output: int, ids: seq<int>)
    | SetStateBag(surface: int, handle: Handle)
    | DeleteStateBag(surface: int)
    | RequestFocusDecision
    | Created(handle: Handle, index: int, output: int, name: Option<string>)
    | Shown(handle: Handle, index: int, output: int)
    | Hidden(handle: Handle, index: int, output: int)
    | Destroyed(handle: Handle, formerIndex: int, output: int)
    | Renumbered(output: int, changes: seq<Renumber>)
    | UrgencyChanged(handle: Handle, urgent: bool, output: int)
    | Renamed(handle: Handle, index: int, output: int, name: Option<string>)
    | WindowMoved(surface: int, fromHandle: Handle, toHandle: Handle,
                  fromIndex: int, toIndex: int, fromOutput: int, toOutput: int)
    | Migrated(handle: Handle, fromOutput: int, toOutput: int)

  /** `ok` is false where the plugin throws; the state is then untouched. */
  datatype Outcome = Outcome(state: State, effects: seq<Effect>, ok: bool)

  function Done(s: State, effects: seq<Effect>): Outcome { Outcome(s, effects, true) }
  function Rejected(s: State): Outcome { Outcome(s, [], false) }

  // ----- The invariant -----

  function Positions(s: State, o: int): seq<Handle> { At(s.positions, o) }

  function Outputs(ws: map<Handle, Workspace>): map<Handle, int> { map h | h in ws :: ws[h].output }

  function MemberLists(ws: map<Handle, Workspace>): map<Handle, seq<int>> { map h | h in ws :: ws[h].members }

  /** What `shown` names sits on that output. */
  ghost predicate ShownPlaced(positions: map<int, seq<Handle>>, shown: map<int, Handle>) {
    forall o :: o in shown ==> shown[o] in At(positions, o)
  }

  ghost predicate HandlesIssued(handles: set<Handle>, memory: map<string, Handle>, next: Handle) {
    && next >= 1
    && (forall h :: h in handles ==> 1 <= h < next)
    && (forall n :: n in memory ==> memory[n] < next)
  }

  /** Every listed output has a workspace and shows one. */
  ghost predicate Settled(positions: map<int, seq<Handle>>, shown: map<int, Handle>) {
    forall o :: o in positions ==> positions[o] != [] && o in shown
  }

  /** What holds even half-way through a hotplug migration: the position lists partition the handles by
      output, a surface is a member of exactly the workspace its index entry names, and no handle is ahead
      of the counter. */
  ghost predicate WeakInv(s: State) {
    && Inverse(s.positions, Outputs(s.ws))
    && Inverse(MemberLists(s.ws), s.owner)
    && ShownPlaced(s.positions, s.shown)
    && HandlesIssued(s.ws.Keys, s.memory, s.next)
  }

  ghost predicate Inv(s: State) {
    WeakInv(s) && Settled(s.positions, s.shown)
  }

  lemma Listed(s: State, h: Handle)
    requires Inv(s) && h in s.ws
    ensures var o := s.ws[h].output; h in Positions(s, o) && o in s.positions && o in s.shown
  {
    assert h in Outputs(s.ws);
  }

  lemma OnOutput(s: State, o: int, h: Handle)
    requires Inv(s) && h in Positions(s, o)
    ensures h in s.ws && s.ws[h].output == o && o in s.positions && o in s.shown
  {
  }

  lemma Showing(s: State, o: int)
    requires Inv(s) && o in s.shown
    ensures s.shown[o] in s.ws && s.ws[s.shown[o]].output == o && o in s.positions
  {
    OnOutput(s, o, s.shown[o]);
  }

  lemma Owner(s: State, x: int)
    requires Inv(s) && x in s.owner
    ensures s.owner[x] in s.ws && x in s.ws[s.owner[x]].members
  {
    assert x in At(MemberLists(s.ws), s.owner[x]);
  }

  lemma Member(s: State, h: Handle, x: int)
    requires Inv(s) && h in s.ws && x in s.ws[h].members
    ensures x in s.owner && s.owner[x] == h
  {
    assert x in At(MemberLists(s.ws), h);
  }

  // ----- Lookups -----

  function FindHandle(s: State, index: int, o: int): Option<Handle> {
    var p := Positions(s, o);
    if index - 1 < 0 || index - 1 >= |p| then None else Some(p[index - 1])
  }

  function FindIndex(s: State, h: Handle, o: int): Option<int> {
    var i := IndexOf(Positions(s, o), h);
    if i == -1 then None else Some(i + 1)
  }

  function StackFor(s: State, o: int): seq<int> {
    if o in s.shown && s.shown[o] in s.ws then s.ws[s.shown[o]].members else []
  }

  /** A push of the output's current stack. */
  function Push(s: State, o: int): Effect {
    SetOutputStack(o, StackFor(s, o))
  }

  /** A push if the condition holds. */
  function PushIf(s: State, o: int, push: bool): seq<Effect> {
    if push then [Push(s, o)] else []
  }

  function IndexIn(s: State, h: Handle, o: int): int {
    match FindIndex(s, h, o) case Some(i) => i case None => 0
  }

  /** The first workspace, in creation order, below handle `k` that carries the name. */
  function FindNamed(s: State, name: string, k: nat): (r: Option<Handle>)
    ensures r.Some? ==> r.value in s.ws && s.ws[r.value].name == Some(name)
  {
    if k == 0 then None
    else match FindNamed(s, name, k - 1)
      case Some(h) => Some(h)
      case None => if k - 1 in s.ws && s.ws[k - 1].name == Some(name) then Some(k - 1) else None
  }

  // ----- State changes the transitions are made of -----

  function Blank(o: int, seed: string): Workspace {
    Workspace(o, None, if seed != "" then [seed] else [], [], false, false)
  }

  /** A new record at the end of its output's list. */
  function Enlisted(s: State, w: Workspace): State {
    s.(ws := s.ws[s.next := w],
       positions := s.positions[w.output := Positions(s, w.output) + [s.next]],
       next := s.next + 1)
  }

  /** The same, shown when the output shows nothing. */
  function Appended(s: State, w: Workspace): State {
    Enlisted(s, w).(shown := if w.output in s.shown then s.shown else s.shown[w.output := s.next])
  }

  /** The surfaces' new index entries. */
  function Sent(members: seq<int>, t: Handle): map<int, Handle> { map x | x in members :: t }

  /** `h` leaves its list, its windows join the tail of `t`, and `t` is shown where `h` was. */
  function Retired(s: State, h: Handle, t: Handle): State
    requires h in s.ws && t in s.ws && s.ws[h].output in s.positions && s.ws[h].output in s.shown
  {
    var o, moved := s.ws[h].output, s.ws[h].members;
    s.(ws := (s.ws - {h})[t := s.ws[t].(members := s.ws[t].members + moved)],
       positions := s.positions[o := Remove(s.positions[o], h)],
       owner := s.owner + Sent(moved, t),
       shown := if s.shown[o] == h then s.shown[o := t] else s.shown)
  }

  /** Replace a workspace's member list. */
  function WithMembers(s: State, h: Handle, members: seq<int>): State
    requires h in s.ws
  {
    s.(ws := s.ws[h := s.ws[h].(members := members)])
  }

  function Remembered(memory: map<string, Handle>, name: string, h: Handle): map<string, Handle> {
    if name != "" then memory[name := h] else memory
  }

  function Promoted(preferred: seq<string>, name: string): seq<string> {
    [name] + Remove(preferred, name)
  }

  // ----- Transitions -----

  function EnsureOutput(s: State, o: int, seed: string): (r: Outcome)
    ensures s.ws.Keys <= r.state.ws.Keys
  {
    if Positions(s, o) != [] then Done(s, [])
    else
      var s0 := s.(shown := s.shown[o := s.next]);
      Done(Appended(s0, Blank(o, seed)), [Created(s.next, 1, o, None), Shown(s.next, 1, o)])
  }

  const EMPTY := State(map[], map[], map[], map[], 1, map[])

  function Boot(boot: string): Outcome {
    var e := EnsureOutput(EMPTY, OUTPUT_DEFAULT, boot);
    e.(state := e.state.(memory := Remembered(e.state.memory, boot, 1)))
  }

  function SeedList(preferred: Option<seq<string>>, outputName: string): seq<string> {
    var p := if preferred.Some? then preferred.value else [outputName];
    if outputName in p then p else p + [outputName]
  }

  /** The handle is what the returned snapshot names. */
  function Create(s: State, name: Option<string>, o: int, preferred: Option<seq<string>>,
                  persistent: bool, outputName: string): (r: (Outcome, Handle))
    ensures s.ws.Keys <= r.0.state.ws.Keys
  {
    var known := if name.Some? then FindNamed(s, name.value, s.next) else None;
    if known.Some? then (Done(s, []), known.value)
    else
      var e := EnsureOutput(s, o, outputName);
      var w := Workspace(o, name, SeedList(preferred, outputName), [], false, persistent);
      var index := |Positions(e.state, o)| + 1;
      (Done(Appended(e.state, w), e.effects + [Created(e.state.next, index, o, name)]), e.state.next)
  }

  function BagMoves(members: seq<int>, t: Handle): seq<Effect> {
    seq(|members|, i requires 0 <= i < |members| => SetStateBag(members[i], t))
  }

  /** The survivors from position `pos0` on, each one place further left. */
  function Renumbering(rest: seq<Handle>, pos0: nat): seq<Renumber>
    requires pos0 <= |rest|
  {
    seq(|rest| - pos0, i requires 0 <= i < |rest| - pos0 => Renumber(rest[pos0 + i], pos0 + i + 2, pos0 + i + 1))
  }

  /** The state with a replacement when `h` is alone on its output, and the relocation target. */
  function Relocation(s: State, h: Handle, seed: string): (State, Handle)
    requires OnList(s, h)
  {
    var o := s.ws[h].output;
    var p := s.positions[o];
    if |p| == 1 then (Appended(s, Blank(o, seed)), s.next)
    else
      var rest, pos0 := Remove(p, h), IndexOf(p, h);
      (s, if pos0 < |rest| then rest[pos0] else rest[|rest| - 1])
  }

  /** The workspace is on its output's list. */
  predicate OnList(s: State, h: Handle) {
    h in s.ws && s.ws[h].output in s.positions && h in s.positions[s.ws[h].output]
  }

  lemma RelocationValid(s: State, h: Handle, seed: string)
    requires Inv(s) && h in s.ws
    ensures OnList(s, h)
    ensures var (s1, t) := Relocation(s, h, seed);
            && Inv(s1) && h in s1.ws && t in s1.ws && t != h
            && s1.ws[t].output == s.ws[h].output && s1.ws[h] == s.ws[h]
  {
    Listed(s, h);
    var o := s.ws[h].output;
    if |s.positions[o]| == 1 { AppendedInv(s, Blank(o, seed)); } else { NeighbourValid(s, h, seed); }
  }

  lemma NeighbourValid(s: State, h: Handle, seed: string)
    requires Inv(s) && OnList(s, h) && |s.positions[s.ws[h].output]| != 1
    ensures var t := Relocation(s, h, seed).1; t in s.ws && t != h && s.ws[t].output == s.ws[h].output
  {
    var o := s.ws[h].output;
    RemoveFacts(s.positions[o], h);
    var t := Relocation(s, h, seed).1;
    assert t in Remove(s.positions[o], h);
    OnOutput(s, o, t);
  }

  /** A push, if the output shows the retired workspace or shows the one that gained its windows. */
  function StackNews(s: State, h: Handle, t: Handle): seq<Effect>
    requires h in s.ws && t in s.ws && s.ws[h].output in s.positions && s.ws[h].output in s.shown
  {
    var o, s' := s.ws[h].output, Retired(s, h, t);
    if s.shown[o] == h then [Push(s', o), RequestFocusDecision]
    else if s.ws[h].members != [] && s.shown[o] == t then [Push(s', o)]
    else []
  }

  function RetireEffects(s: State, h: Handle, t: Handle, formerIndex: int, changes: seq<Renumber>): seq<Effect>
    requires h in s.ws && t in s.ws && s.ws[h].output in s.positions && s.ws[h].output in s.shown
  {
    var o := s.ws[h].output;
    BagMoves(s.ws[h].members, t)
    + [Destroyed(h, formerIndex, o)]
    + (if changes != [] then [Renumbered(o, changes)] else [])
    + StackNews(s, h, t)
  }

  /** Whom the removal of `h` renumbers. */
  function Changes(p: seq<Handle>, h: Handle): seq<Renumber>
    requires h in p
  {
    var rest, pos0 := Remove(p, h), IndexOf(p, h);
    assert |rest| == |p| - 1;
    Renumbering(rest, pos0)
  }

  /** The replacement for an output about to lose its only workspace. */
  function Announced(s: State, o: int, p: seq<Handle>): seq<Effect> {
    if |p| == 1 then [Created(s.next, 1, o, None)] else []
  }

  function DestroyInto(created: seq<Effect>, s: State, h: Handle, t: Handle,
                       formerIndex: int, changes: seq<Renumber>): Outcome
    requires h in s.ws && t in s.ws && s.ws[h].output in s.positions && s.ws[h].output in s.shown
  {
    Done(Retired(s, h, t), created + RetireEffects(s, h, t, formerIndex, changes))
  }

  function DestroyHandle(s: State, h: Handle, seed: string): (Outcome, seq<Renumber>)
    requires Inv(s) && h in s.ws
  {
    Listed(s, h);
    RelocationValid(s, h, seed);
    var o := s.ws[h].output;
    var p := s.positions[o];
    var (s1, t) := Relocation(s, h, seed);
    Listed(s1, h);
    var changes := if |p| == 1 then [] else Changes(p, h);
    (DestroyInto(Announced(s, o, p), s1, h, t, IndexOf(p, h) + 1, changes), changes)
  }

  function Destroy(s: State, index: int, o: int, outputName: string): (Outcome, seq<Renumber>)
    requires Inv(s)
  {
    match FindHandle(s, index, o)
    case None => (Rejected(s), [])
    case Some(h) => OnOutput(s, o, h); DestroyHandle(s, h, outputName)
  }

  /** Evaporation: an empty, dynamic, hidden workspace goes away. */
  predicate Reapable(s: State, h: Handle) {
    && h in s.ws && !s.ws[h].persistent && s.ws[h].members == []
    && !(s.ws[h].output in s.shown && s.shown[s.ws[h].output] == h)
  }

  function ReapIfEmpty(s: State, h: Handle): Outcome
    requires Inv(s)
  {
    if Reapable(s, h) then DestroyHandle(s, h, "").0 else Done(s, [])
  }

  function ShownNow(s: State, h: Handle, o: int, outputName: string): State
    requires h in s.ws
  {
    s.(shown := s.shown[o := h],
       memory := Remembered(s.memory, outputName, h),
       ws := s.ws[h := s.ws[h].(urgent := false)])
  }

  function ShowNews(s: State, s1: State, h: Handle, index: int, o: int): seq<Effect>
    requires h in s.ws && o in s.shown
  {
    (if s.ws[h].urgent then [UrgencyChanged(h, false, o)] else [])
    + [Hidden(s.shown[o], IndexIn(s1, s.shown[o], o), o), Shown(h, index, o)]
    + [Push(s1, o)] + [RequestFocusDecision]
  }

  /** Navigate to `h`, then let the workspace left behind evaporate. */
  function Navigate(s: State, h: Handle, index: int, o: int, outputName: string): Outcome
    requires Inv(s) && h in s.ws && s.ws[h].output == o && o in s.shown
  {
    ShownNowInv(s, h, o, outputName);
    var s1 := ShownNow(s, h, o, outputName);
    var r := ReapIfEmpty(s1, s.shown[o]);
    Done(r.state, ShowNews(s, s1, h, index, o) + r.effects)
  }

  function Show(s: State, index: int, o: int, outputName: string): Outcome
    requires Inv(s)
  {
    match FindHandle(s, index, o)
    case None => Rejected(s)
    case Some(h) =>
      OnOutput(s, o, h);
      if s.shown[o] == h then Done(s.(memory := Remembered(s.memory, outputName, h)), [])
      else Navigate(s, h, index, o, outputName)
  }

  function SetUrgent(s: State, index: int, urgent: bool, o: int): (r: Outcome)
    requires Inv(s)
    ensures r.state.ws.Keys == s.ws.Keys
  {
    match FindHandle(s, index, o)
    case None => Rejected(s)
    case Some(h) =>
      OnOutput(s, o, h);
      if s.ws[h].urgent == urgent then Done(s, [])
      else Done(s.(ws := s.ws[h := s.ws[h].(urgent := urgent)]), [UrgencyChanged(h, urgent, o)])
  }

  function SetName(s: State, index: int, name: Option<string>, o: int): (r: Outcome)
    requires Inv(s)
    ensures r.state.ws.Keys == s.ws.Keys
  {
    match FindHandle(s, index, o)
    case None => Rejected(s)
    case Some(h) =>
      OnOutput(s, o, h);
      if s.ws[h].name == name then Done(s, [])
      else Done(s.(ws := s.ws[h := s.ws[h].(name := name)]), [Renamed(h, index, o, name)])
  }

  /** The surface leaves `from` for the tail of `t`; a cross-output move promotes the destination. */
  function Rehoused(s: State, x: int, from: Handle, t: Handle, outputName: string): State
    requires from in s.ws && t in s.ws
  {
    var s1 := WithMembers(s, from, Remove(s.ws[from].members, x));
    var w := s1.ws[t].(members := s1.ws[t].members + [x]);
    var w' := if s.ws[t].output != s.ws[from].output && outputName != ""
              then w.(preferred := Promoted(w.preferred, outputName)) else w;
    s1.(ws := s1.ws[t := w'], owner := s1.owner[x := t])
  }

  function MoveNews(s: State, s1: State, x: int, t: Handle, index: int): seq<Effect>
    requires x in s.owner && s.owner[x] in s.ws && t in s.ws
    requires s.ws[s.owner[x]].output in s.shown && s.ws[t].output in s.shown
  {
    var from := s.owner[x];
    var home, o := s.ws[from].output, s.ws[t].output;
    var fromShown := s.shown[home] == from;
    [SetStateBag(x, t), WindowMoved(x, from, t, IndexIn(s, from, home), index, home, o)]
    + (PushIf(s1, home, fromShown) + PushIf(s1, o, (o != home || !fromShown) && s.shown[o] == t))
  }

  function MoveTo(s: State, x: int, t: Handle, index: int, outputName: string): Outcome
    requires Inv(s) && x in s.owner && t in s.ws && s.owner[x] != t
  {
    Owner(s, x);
    Listed(s, s.owner[x]);
    Listed(s, t);
    RehousedInv(s, x, t, outputName);
    var s1 := Rehoused(s, x, s.owner[x], t, outputName);
    var r := ReapIfEmpty(s1, s.owner[x]);
    Done(r.state, MoveNews(s, s1, x, t, index) + r.effects)
  }

  function MoveWindow(s: State, x: int, index: int, o: int, outputName: string): Outcome
    requires Inv(s)
  {
    match FindHandle(s, index, o)
    case None => Rejected(s)
    case Some(t) =>
      OnOutput(s, o, t);
      if x !in s.owner then Rejected(s)
      else if s.owner[x] == t then Done(s, [])
      else MoveTo(s, x, t, index, outputName)
  }

  datatype ReorderOp = Promote | SwapNext | SwapPrev | MoveToIndex(target: int)

  function Clamp(lo: int, x: int, hi: int): int {
    if x > hi then (if hi < lo then lo else hi) else if x < lo then lo else x
  }

  /** Where a member at `i` of `n` ends up; `i` itself when the request changes nothing. */
  function ReorderTarget(op: ReorderOp, i: nat, n: nat): (j: nat)
    requires i < n
    ensures j < n
  {
    match op
    case MoveToIndex(t) => Clamp(0, t, n - 1)
    case Promote => 0
    case SwapNext => if i >= n - 1 then i else i + 1
    case SwapPrev => if i == 0 then i else i - 1
  }

  function Reordered(members: seq<int>, i: nat, j: nat): seq<int>
    requires i < |members| && j < |members|
  {
    InsertAt(RemoveAt(members, i), j, members[i])
  }

  /** A new member list, pushed if it is on screen. */
  function Rearranged(s: State, h: Handle, members: seq<int>): Outcome
    requires h in s.ws && s.ws[h].output in s.shown
  {
    var s1, o := WithMembers(s, h, members), s.ws[h].output;
    Done(s1, PushIf(s1, o, s.shown[o] == h))
  }

  predicate Arrangeable(s: State, x: int) {
    x in s.owner && s.owner[x] in s.ws && x in s.ws[s.owner[x]].members && s.ws[s.owner[x]].output in s.shown
  }

  /** The member's place, and where the request wants it. */
  function Places(s: State, x: int, op: ReorderOp): (r: (nat, nat))
    requires Arrangeable(s, x)
    ensures r.0 < |s.ws[s.owner[x]].members| && r.1 < |s.ws[s.owner[x]].members|
  {
    var m := s.ws[s.owner[x]].members;
    (IndexOf(m, x), ReorderTarget(op, IndexOf(m, x), |m|))
  }

  predicate Staying(s: State, x: int, op: ReorderOp)
    requires Arrangeable(s, x)
  {
    Places(s, x, op).0 == Places(s, x, op).1
  }

  function Shuffled(s: State, x: int, op: ReorderOp): (r: Outcome)
    requires Arrangeable(s, x)
    ensures r.state.ws.Keys == s.ws.Keys
  {
    var h := s.owner[x];
    if Staying(s, x, op) then Done(s, [])
    else Rearranged(s, h, Reordered(s.ws[h].members, Places(s, x, op).0, Places(s, x, op).1))
  }

  lemma OwnerArrangeable(s: State, x: int)
    requires Inv(s) && x in s.owner
    ensures Arrangeable(s, x)
  {
    Owner(s, x);
    Listed(s, s.owner[x]);
  }

  function Reorder(s: State, x: int, op: ReorderOp): (r: Outcome)
    requires Inv(s)
    ensures r.state.ws.Keys == s.ws.Keys
  {
    if x !in s.owner then Rejected(s) else OwnerArrangeable(s, x); Shuffled(s, x, op)
  }

  function Joined(s: State, x: int, h: Handle, tail: bool): State
    requires h in s.ws
  {
    var m := s.ws[h].members;
    WithMembers(s, h, if tail then m + [x] else [x] + m).(owner := s.owner[x := h])
  }

  function JoinNews(s: State, x: int, h: Handle, tail: bool): seq<Effect>
    requires h in s.ws && s.ws[h].output in s.shown
  {
    var s1, o := Joined(s, x, h, tail), s.ws[h].output;
    [SetStateBag(x, h)] + PushIf(s1, o, s.shown[o] == h)
  }

  function ApplyMap(s: State, x: int, o: int, outputName: string, tail: bool): (r: Outcome)
    requires Inv(s)
    ensures s.ws.Keys <= r.state.ws.Keys
  {
    if x in s.owner then Done(s, [])
    else
      var e := EnsureOutput(s, o, outputName);
      EnsureOutputInv(s, o, outputName);
      var h := e.state.shown[o];
      Showing(e.state, o);
      Done(Joined(e.state, x, h, tail), e.effects + JoinNews(e.state, x, h, tail))
  }

  function ApplyMapAt(s: State, x: int, h: Handle, tail: bool): (r: Outcome)
    requires Inv(s)
    ensures r.state.ws.Keys == s.ws.Keys
  {
    if x in s.owner then Done(s, [])
    else if h !in s.ws then Rejected(s)
    else Listed(s, h); Done(Joined(s, x, h, tail), JoinNews(s, x, h, tail))
  }

  function Left(s: State, x: int): State
    requires x in s.owner && s.owner[x] in s.ws
  {
    var h := s.owner[x];
    WithMembers(s, h, Remove(s.ws[h].members, x)).(owner := s.owner - {x})
  }

  function ApplyUnmap(s: State, x: int): Outcome
    requires Inv(s)
  {
    if x !in s.owner then Done(s, [])
    else
      Owner(s, x);
      var h := s.owner[x];
      Listed(s, h);
      var o := s.ws[h].output;
      var s1 := Left(s, x);
      LeftInv(s, x);
      var news := [DeleteStateBag(x)] + PushIf(s1, o, s.shown[o] == h);
      if s.shown[o] == h then Done(s1, news)
      else
        var r := ReapIfEmpty(s1, h);
        Done(r.state, news + r.effects)
  }

  /** The plugin's output.pre-remove handler: anchor the output's focus memory. */
  function PreRemove(s: State, o: int, key: string): Outcome {
    if o in s.shown then Done(s.(memory := s.memory[key := s.shown[o]]), []) else Done(s, [])
  }

  // ----- The building blocks keep the invariant -----

  /** Writing one record moves one entry of each derived map. */
  lemma PutRecord(ws: map<Handle, Workspace>, h: Handle, w: Workspace)
    ensures Outputs(ws[h := w]) == Outputs(ws)[h := w.output]
    ensures MemberLists(ws[h := w]) == MemberLists(ws)[h := w.members]
    ensures h in ws && w.output == ws[h].output ==> Outputs(ws[h := w]) == Outputs(ws)
    ensures h in ws && w.members == ws[h].members ==> MemberLists(ws[h := w]) == MemberLists(ws)
    ensures h in ws ==> At(MemberLists(ws), h) == ws[h].members && ws[h := w].Keys == ws.Keys
  {
  }

  lemma DropRecord(ws: map<Handle, Workspace>, h: Handle)
    ensures Outputs(ws - {h}) == Outputs(ws) - {h}
    ensures MemberLists(ws - {h}) == MemberLists(ws) - {h}
  {
  }

  lemma EmptyRecord(ws: map<Handle, Workspace>, owner: map<int, Handle>, h: Handle, w: Workspace)
    requires Inverse(MemberLists(ws), owner) && h !in ws && w.members == []
    ensures Inverse(MemberLists(ws[h := w]), owner)
  {
    forall k ensures At(MemberLists(ws[h := w]), k) == At(MemberLists(ws), k) {
    }
    SameLists(MemberLists(ws), MemberLists(ws[h := w]), owner);
  }

  lemma EnlistedInv(s: State, w: Workspace)
    requires WeakInv(s) && w.members == []
    ensures WeakInv(Enlisted(s, w))
  {
    PutRecord(s.ws, s.next, w);
    Join(s.positions, Outputs(s.ws), w.output, s.next, true);
    EmptyRecord(s.ws, s.owner, s.next, w);
    AppendedShown(s, w);
  }

  lemma AppendedInv(s: State, w: Workspace)
    requires Inv(s) && w.members == []
    ensures Inv(Appended(s, w))
  {
    EnlistedInv(s, w);
    AppendedShown(s, w);
  }

  lemma AppendedShown(s: State, w: Workspace)
    requires ShownPlaced(s.positions, s.shown)
    ensures ShownPlaced(Appended(s, w).positions, Appended(s, w).shown)
    ensures ShownPlaced(Enlisted(s, w).positions, s.shown)
    ensures Settled(s.positions, s.shown) ==> Settled(Appended(s, w).positions, Appended(s, w).shown)
  {
    var s1 := Appended(s, w);
    forall o | o in s1.shown ensures s1.shown[o] in At(s1.positions, o) {
      assert o != w.output ==> At(s1.positions, o) == At(s.positions, o);
    }
  }

  lemma EnsureOutputInv(s: State, o: int, seed: string)
    requires Inv(s)
    ensures Inv(EnsureOutput(s, o, seed).state) && o in EnsureOutput(s, o, seed).state.shown
    ensures Positions(s, o) == [] ==> o !in s.shown && EnsureOutput(s, o, seed).state == Appended(s, Blank(o, seed))
  {
    if Positions(s, o) == [] {
      assert o !in s.shown;
      AppendedInv(s, Blank(o, seed));
      assert EnsureOutput(s, o, seed).state == Appended(s, Blank(o, seed));
    }
  }

  lemma RetiredInv(s: State, h: Handle, t: Handle)
    requires Inv(s) && h in s.ws && t in s.ws && t != h && s.ws[t].output == s.ws[h].output
    ensures s.ws[h].output in s.positions && s.ws[h].output in s.shown
    ensures Inv(Retired(s, h, t))
  {
    Listed(s, h);
    RetiredLists(s, h, t);
    RetiredShown(s, h, t);
    RetiredHandles(s, h, t);
  }

  lemma RetiredHandles(s: State, h: Handle, t: Handle)
    requires h in s.ws && t in s.ws && s.ws[h].output in s.positions && s.ws[h].output in s.shown
    requires HandlesIssued(s.ws.Keys, s.memory, s.next)
    ensures var s1 := Retired(s, h, t); HandlesIssued(s1.ws.Keys, s1.memory, s1.next)
  {
  }

  lemma RetiredLists(s: State, h: Handle, t: Handle)
    requires h in s.ws && t in s.ws && t != h && s.ws[t].output == s.ws[h].output
    requires s.ws[h].output in s.positions && s.ws[h].output in s.shown
    requires Inverse(s.positions, Outputs(s.ws)) && Inverse(MemberLists(s.ws), s.owner)
    ensures var s1 := Retired(s, h, t); Inverse(s1.positions, Outputs(s1.ws)) && Inverse(MemberLists(s1.ws), s1.owner)
  {
    Leave(s.positions, Outputs(s.ws), h);
    RetiredRecords(s, h, t);
    Merge(MemberLists(s.ws), s.owner, h, t);
  }

  lemma RetiredRecords(s: State, h: Handle, t: Handle)
    requires h in s.ws && t in s.ws && t != h && s.ws[t].output == s.ws[h].output
    requires s.ws[h].output in s.positions && s.ws[h].output in s.shown
    ensures var s1, m := Retired(s, h, t), MemberLists(s.ws);
            && Outputs(s1.ws) == Outputs(s.ws) - {h}
            && MemberLists(s1.ws) == (m - {h})[t := At(m, t) + At(m, h)]
            && s1.owner == s.owner + Sent(At(m, h), t)
  {
    var w := s.ws[t].(members := s.ws[t].members + s.ws[h].members);
    DropRecord(s.ws, h);
    PutRecord(s.ws - {h}, t, w);
  }

  lemma RetiredShown(s: State, h: Handle, t: Handle)
    requires Inv(s) && h in s.ws && t in s.ws && t != h && s.ws[t].output == s.ws[h].output
    ensures s.ws[h].output in s.positions && s.ws[h].output in s.shown
    ensures ShownPlaced(Retired(s, h, t).positions, Retired(s, h, t).shown)
    ensures Settled(Retired(s, h, t).positions, Retired(s, h, t).shown)
  {
    Listed(s, h);
    Listed(s, t);
    var o, s1 := s.ws[h].output, Retired(s, h, t);
    RemoveFacts(s.positions[o], h);
    assert t in s1.positions[o];
    forall p | p in s1.shown ensures s1.shown[p] in At(s1.positions, p) {
      assert p != o ==> At(s1.positions, p) == At(s.positions, p);
    }
  }

  /** A destroy is the retirement of `h` into `t`, after the announcement of a replacement if one was needed. */
  lemma DestroyIs(s: State, h: Handle, seed: string)
    returns (created: seq<Effect>, s1: State, t: Handle, formerIndex: int, changes: seq<Renumber>)
    requires Inv(s) && h in s.ws
    ensures OnList(s, h)
    ensures created == Announced(s, s.ws[h].output, s.positions[s.ws[h].output]) && (s1, t) == Relocation(s, h, seed)
    ensures Inv(s1) && h in s1.ws && t in s1.ws && t != h && s1.ws[t].output == s1.ws[h].output
    ensures s1.ws[h].output in s1.positions && s1.ws[h].output in s1.shown
    ensures DestroyHandle(s, h, seed) == (DestroyInto(created, s1, h, t, formerIndex, changes), changes)
    ensures var p := s.positions[s.ws[h].output];
            h in p && formerIndex == IndexOf(p, h) + 1 && changes == if |p| == 1 then [] else Changes(p, h)
  {
    Listed(s, h);
    RelocationValid(s, h, seed);
    var o := s.ws[h].output;
    var p := s.positions[o];
    created, s1, t := Announced(s, o, p), Relocation(s, h, seed).0, Relocation(s, h, seed).1;
    Listed(s1, h);
    formerIndex, changes := IndexOf(p, h) + 1, DestroyHandle(s, h, seed).1;
  }

  lemma DestroyHandleInv(s: State, h: Handle, seed: string)
    requires Inv(s) && h in s.ws
    ensures Inv(DestroyHandle(s, h, seed).0.state)
  {
    var created, s1, t, formerIndex, changes := DestroyIs(s, h, seed);
    RetiredInv(s1, h, t);
  }

  lemma ReapInv(s: State, h: Handle)
    requires Inv(s)
    ensures Inv(ReapIfEmpty(s, h).state)
  {
    if Reapable(s, h) { DestroyHandleInv(s, h, ""); }
  }

  /** A record may change its name, urgency and preferences freely. */
  lemma SameShapeInv(s: State, h: Handle, w: Workspace)
    requires Inv(s) && h in s.ws && w.output == s.ws[h].output && w.members == s.ws[h].members
    ensures Inv(s.(ws := s.ws[h := w]))
  {
    PutRecord(s.ws, h, w);
  }

  lemma ShownNowInv(s: State, h: Handle, o: int, outputName: string)
    requires Inv(s) && h in s.ws && s.ws[h].output == o
    ensures Inv(ShownNow(s, h, o, outputName))
  {
    Listed(s, h);
    PutRecord(s.ws, h, s.ws[h].(urgent := false));
  }

  lemma RehousedInv(s: State, x: int, t: Handle, outputName: string)
    requires Inv(s) && x in s.owner && t in s.ws && s.owner[x] != t
    ensures s.owner[x] in s.ws
    ensures Inv(Rehoused(s, x, s.owner[x], t, outputName))
  {
    Owner(s, x);
    RehousedRecords(s, x, t, outputName);
    Move(MemberLists(s.ws), s.owner, x, t);
  }

  lemma RehousedRecords(s: State, x: int, t: Handle, outputName: string)
    requires x in s.owner && s.owner[x] in s.ws && t in s.ws && s.owner[x] != t
    ensures var from, m := s.owner[x], MemberLists(s.ws);
            var s1 := Rehoused(s, x, from, t, outputName);
            && Outputs(s1.ws) == Outputs(s.ws)
            && MemberLists(s1.ws) == m[from := Remove(At(m, from), x)][t := At(m, t) + [x]]
  {
    var from := s.owner[x];
    var s1 := WithMembers(s, from, Remove(s.ws[from].members, x));
    PutRecord(s.ws, from, s1.ws[from]);
    PutRecord(s1.ws, t, Rehoused(s, x, from, t, outputName).ws[t]);
  }

  lemma {:induction false} ReorderedFacts(m: seq<int>, i: nat, j: nat)
    requires Distinct(m) && i < |m| && j < |m|
    ensures Distinct(Reordered(m, i, j))
    ensures forall y :: y in Reordered(m, i, j) <==> y in m
  {
    var rest := RemoveAt(m, i);
    IndexOfDistinct(m, i);
    assert rest == Remove(m, m[i]);
    RemoveFacts(m, m[i]);
    assert rest == rest[..j] + rest[j..];
    DistinctConcat(rest[..j], [m[i]]);
    DistinctConcat(rest[..j] + [m[i]], rest[j..]);
  }

  lemma MembersPermuted(s: State, h: Handle, m: seq<int>)
    requires Inv(s) && h in s.ws && Distinct(m) && forall y :: y in m <==> y in s.ws[h].members
    ensures Inv(WithMembers(s, h, m))
  {
    PutRecord(s.ws, h, s.ws[h].(members := m));
    var l := At(MemberLists(s.ws), h);
    assert forall y :: y in m <==> y in l;
    Permute(MemberLists(s.ws), s.owner, h, m);
  }

  lemma ReorderInv(s: State, x: int, op: ReorderOp)
    requires Inv(s)
    ensures Inv(Reorder(s, x, op).state)
  {
    if x in s.owner {
      Owner(s, x);
      var h := s.owner[x];
      var m := s.ws[h].members;
      assert At(MemberLists(s.ws), h) == m;
      var i := IndexOf(m, x);
      var j := ReorderTarget(op, i, |m|);
      if i != j {
        ReorderedFacts(m, i, j);
        MembersPermuted(s, h, Reordered(m, i, j));
      }
    }
  }

  lemma JoinedInv(s: State, x: int, h: Handle, tail: bool)
    requires Inv(s) && h in s.ws && x !in s.owner
    ensures Inv(Joined(s, x, h, tail))
  {
    var m := s.ws[h].members;
    PutRecord(s.ws, h, s.ws[h].(members := if tail then m + [x] else [x] + m));
    Join(MemberLists(s.ws), s.owner, h, x, tail);
  }

  lemma LeftInv(s: State, x: int)
    requires Inv(s) && x in s.owner
    ensures s.owner[x] in s.ws && Inv(Left(s, x))
  {
    Owner(s, x);
    var h := s.owner[x];
    PutRecord(s.ws, h, s.ws[h].(members := Remove(s.ws[h].members, x)));
    Leave(MemberLists(s.ws), s.owner, x);
  }

  lemma PreRemoveInv(s: State, o: int, key: string)
    requires Inv(s)
    ensures Inv(PreRemove(s, o, key).state)
  {
    if o in s.shown { Showing(s, o); }
  }
}
