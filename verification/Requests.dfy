/** What each request to the registry asks for, said of the lists and records themselves. */
module Requests {
  import opened Seqs
  import opened Registry
  import opened Mirror
  import opened Outcomes

  // ----- Reordering -----

  /** The member list the request asks for, of a window at place `i`. */
  ghost predicate Asked(op: ReorderOp, m: seq<int>, i: nat, n: seq<int>)
    requires i < |m|
  {
    match op
    case Promote => n == [m[i]] + m[..i] + m[i + 1..]
    case SwapNext => n == if i + 1 < |m| then m[i := m[i + 1]][i + 1 := m[i]] else m
    case SwapPrev => n == if i > 0 then m[i := m[i - 1]][i - 1 := m[i]] else m
    case MoveToIndex(t) =>
      var k := if t < 0 then 0 else if t >= |m| then |m| - 1 else t;
      |n| == |m| && n[k] == m[i] && n[..k] + n[k + 1..] == m[..i] + m[i + 1..]
  }

  lemma PutBack(m: seq<int>, i: nat)
    requires i < |m|
    ensures Reordered(m, i, i) == m
  {
    assert RemoveAt(m, i)[..i] == m[..i] && RemoveAt(m, i)[i..] == m[i + 1..];
    assert m == m[..i] + [m[i]] + m[i + 1..];
  }

  lemma MovedIs(m: seq<int>, i: nat, j: nat)
    requires i < |m| && j < |m|
    ensures var n, rest := Reordered(m, i, j), m[..i] + m[i + 1..];
            n == rest[..j] + [m[i]] + rest[j..] && |n| == |m| && n[j] == m[i] && n[..j] + n[j + 1..] == rest
  {
    var rest := m[..i] + m[i + 1..];
    assert rest[..j] + rest[j..] == rest;
  }

  lemma SwapsNext(m: seq<int>, i: nat)
    requires i + 1 < |m|
    ensures Reordered(m, i, i + 1) == m[i := m[i + 1]][i + 1 := m[i]]
  {
  }

  lemma SwapsPrev(m: seq<int>, i: nat)
    requires 0 < i < |m|
    ensures Reordered(m, i, i - 1) == m[i := m[i - 1]][i - 1 := m[i]]
  {
  }

  lemma Asks(op: ReorderOp, m: seq<int>, i: nat)
    requires i < |m|
    ensures Asked(op, m, i, Reordered(m, i, ReorderTarget(op, i, |m|)))
  {
    PutBack(m, i);
    match op
    case Promote => MovedIs(m, i, 0);
    case SwapNext => if i + 1 < |m| { SwapsNext(m, i); }
    case SwapPrev => if i > 0 { SwapsPrev(m, i); }
    case MoveToIndex(t) => MovedIs(m, i, ReorderTarget(op, i, |m|));
  }

  /** The state with the new list, and the push if it changed on screen. */
  ghost predicate Delivered(s: State, h: Handle, n: seq<int>, r: Outcome)
    requires h in s.ws
  {
    var w := s.ws[h];
    && r.ok && r.state == s.(ws := s.ws[h := w.(members := n)])
    && w.output in s.shown
    && r.effects == if n != w.members && s.shown[w.output] == h then [SetOutputStack(w.output, n)] else []
  }

  lemma RearrangedDelivers(s: State, h: Handle, n: seq<int>)
    requires h in s.ws && s.ws[h].output in s.shown && n != s.ws[h].members
    ensures Delivered(s, h, n, Rearranged(s, h, n))
  {
  }

  lemma NothingDelivered(s: State, h: Handle)
    requires h in s.ws && s.ws[h].output in s.shown
    ensures Delivered(s, h, s.ws[h].members, Done(s, []))
  {
    assert s.ws[h := s.ws[h]] == s.ws;
  }

  lemma ReorderIs(s: State, x: int, op: ReorderOp)
    requires Inv(s) && x in s.owner && s.owner[x] in s.ws
    ensures var h := s.owner[x];
            var m := s.ws[h].members;
            && x in m && s.ws[h].output in s.shown
            && var i := IndexOf(m, x);
               var j := ReorderTarget(op, i, |m|);
               Reorder(s, x, op) == if i == j then Done(s, []) else Rearranged(s, h, Reordered(m, i, j))
  {
    OwnerArrangeable(s, x);
  }

  /** Swap-next exchanges a window with the one after it, swap-prev with the one before, promote puts it first and
      move-to-index at that index, kept within the list; the others keep their order, nothing else changes, and
      the stack is pushed if it changed on screen. */
  lemma ReorderAsks(s: State, x: int, op: ReorderOp, i: nat)
    requires Inv(s) && x in s.owner && s.owner[x] in s.ws
    requires i < |s.ws[s.owner[x]].members| && s.ws[s.owner[x]].members[i] == x
    ensures var h, r := s.owner[x], Reorder(s, x, op);
            h in r.state.ws && Asked(op, s.ws[h].members, i, r.state.ws[h].members)
            && Delivered(s, h, r.state.ws[h].members, r)
  {
    var h := s.owner[x];
    var m := s.ws[h].members;
    MembersDistinct(s, h);
    IndexOfDistinct(m, i);
    ReorderIs(s, x, op);
    var j := ReorderTarget(op, i, |m|);
    Asks(op, m, i);
    PutBack(m, i);
    if i == j {
      NothingDelivered(s, h);
    } else {
      MovesAway(m, i, j);
      RearrangedDelivers(s, h, Reordered(m, i, j));
    }
  }

  lemma MembersDistinct(s: State, h: Handle)
    requires Inv(s) && h in s.ws
    ensures Distinct(s.ws[h].members)
  {
    assert s.ws[h].members == Index.At(MemberLists(s.ws), h);
  }

  lemma MovesAway(m: seq<int>, i: nat, j: nat)
    requires Distinct(m) && i < |m| && j < |m| && i != j
    ensures Reordered(m, i, j) != m
  {
    MovedIs(m, i, j);
  }

  // ----- Labels -----

  /** The flag takes the requested value, nothing else changes, and a change is reported once. */
  lemma UrgencyIsSet(s: State, index: int, urgent: bool, o: int)
    requires Inv(s)
    ensures var p, r := Positions(s, o), SetUrgent(s, index, urgent, o);
            if 1 <= index <= |p| then
              var h := p[index - 1];
              && h in s.ws && r.ok && r.state == s.(ws := s.ws[h := s.ws[h].(urgent := urgent)])
              && r.effects == if s.ws[h].urgent == urgent then [] else [UrgencyChanged(h, urgent, o)]
            else !r.ok && r.state == s && r.effects == []
  {
    if FindHandle(s, index, o).Some? { OnOutput(s, o, FindHandle(s, index, o).value); }
  }

  lemma NameIsSet(s: State, index: int, name: Option<string>, o: int)
    requires Inv(s)
    ensures var p, r := Positions(s, o), SetName(s, index, name, o);
            if 1 <= index <= |p| then
              var h := p[index - 1];
              && h in s.ws && r.ok && r.state == s.(ws := s.ws[h := s.ws[h].(name := name)])
              && r.effects == if s.ws[h].name == name then [] else [Renamed(h, index, o, name)]
            else !r.ok && r.state == s && r.effects == []
  {
    if FindHandle(s, index, o).Some? { OnOutput(s, o, FindHandle(s, index, o).value); }
  }

  // ----- New workspaces -----

  /** A first workspace is blank, shown, and remembers where it was born, if that has a name. */
  lemma EnsureSeeds(s: State, o: int, seed: string)
    ensures var r := EnsureOutput(s, o, seed);
            if Positions(s, o) != [] then r.state == s && r.effects == []
            else
              var w := Workspace(o, None, if seed == "" then [] else [seed], [], false, false);
              && r.state == s.(ws := s.ws[s.next := w], positions := s.positions[o := [s.next]],
                               shown := s.shown[o := s.next], next := s.next + 1)
              && r.effects == [Created(s.next, 1, o, None), Shown(s.next, 1, o)]
  {
    assert [] + [s.next] == [s.next];
  }

  lemma BootIs(boot: string)
    ensures var r := Boot(boot);
            && r.state.ws == map[1 := Workspace(0, None, if boot == "" then [] else [boot], [], false, false)]
            && r.state.positions == map[0 := [1]] && r.state.shown == map[0 := 1] && r.state.owner == map[]
            && r.state.next == 2 && r.state.memory == (if boot == "" then map[] else map[boot := 1])
            && r.effects == [Created(1, 1, 0, None), Shown(1, 1, 0)]
  {
    assert [] + [1] == [1];
  }

  lemma AppendedHas(s: State, w: Workspace)
    ensures var r := Appended(s, w);
            && r.ws == s.ws[s.next := w] && Positions(r, w.output) == Positions(s, w.output) + [s.next]
  {
  }

  lemma EnsureKeeps(s: State, o: int, seed: string)
    requires s.next !in s.ws
    ensures forall k :: k in s.ws ==> k in EnsureOutput(s, o, seed).state.ws && EnsureOutput(s, o, seed).state.ws[k] == s.ws[k]
  {
  }

  /** What `create` makes of its arguments. */
  function Seeded(name: Option<string>, o: int, preferred: Option<seq<string>>, persistent: bool, outputName: string): Workspace {
    Workspace(o, name,
              if preferred.None? then [outputName]
              else if outputName in preferred.value then preferred.value
              else preferred.value + [outputName],
              [], false, persistent)
  }

  /** The record is new, last on its output and announced so; every other record stays. */
  ghost predicate AddedLast(s: State, r: Outcome, h: Handle, w: Workspace) {
    && h in r.state.ws && r.state.ws[h] == w
    && r.effects != [] && Last(r.effects) == Created(h, |Positions(r.state, w.output)|, w.output, w.name)
    && forall k :: k in s.ws ==> k in r.state.ws && r.state.ws[k] == s.ws[k]
  }

  lemma AppendsLast(s: State, e: State, effects: seq<Effect>, w: Workspace)
    requires e.next !in s.ws && forall k :: k in s.ws ==> k in e.ws && e.ws[k] == s.ws[k]
    ensures AddedLast(s, Done(Appended(e, w), effects + [Created(e.next, |Positions(e, w.output)| + 1, w.output, w.name)]), e.next, w)
  {
    AppendedHas(e, w);
  }

  lemma SeededIs(name: Option<string>, o: int, preferred: Option<seq<string>>, persistent: bool, outputName: string)
    ensures Workspace(o, name, SeedList(preferred, outputName), [], false, persistent)
            == Seeded(name, o, preferred, persistent, outputName)
  {
  }

  /** A created workspace has the name, the persistence and the preferences asked for; its birth output comes last
      among them unless they name it already. It is last on its output, and every other record stays. */
  lemma CreateSeeds(s: State, name: Option<string>, o: int, preferred: Option<seq<string>>,
                    persistent: bool, outputName: string)
    requires Inv(s)
    ensures var (r, h) := Create(s, name, o, preferred, persistent, outputName);
            h !in s.ws ==> AddedLast(s, r, h, Seeded(name, o, preferred, persistent, outputName))
  {
    if !(name.Some? && FindNamed(s, name.value, s.next).Some?) {
      var e := EnsureOutput(s, o, outputName);
      var w := Workspace(o, name, SeedList(preferred, outputName), [], false, persistent);
      NewIs(s, name, o, preferred, persistent, outputName, e.state, e.effects, w);
      SeededIs(name, o, preferred, persistent, outputName);
      EnsureKeepsAll(s, o, outputName);
      AppendsLast(s, e.state, e.effects, w);
    }
  }

  lemma EnsureKeepsAll(s: State, o: int, seed: string)
    requires Inv(s)
    ensures var e := EnsureOutput(s, o, seed).state;
            e.next !in s.ws && e.next !in e.ws && forall k :: k in s.ws ==> k in e.ws && e.ws[k] == s.ws[k]
  {
    EnsureOutputInv(s, o, seed);
    EnsureKeeps(s, o, seed);
  }

  // ----- Showing and mapping -----

  /** Showing remembers the workspace under the output's name and leaves every other memory; of the workspace shown
      already it does nothing else; a bad index is refused. */
  lemma ShowAnchors(s: State, index: int, o: int, outputName: string)
    requires Inv(s)
    ensures var p, r := Positions(s, o), Show(s, index, o, outputName);
            if 1 <= index <= |p| then
              && r.ok
              && r.state.memory == (if outputName == "" then s.memory else s.memory[outputName := p[index - 1]])
              && (o in s.shown && s.shown[o] == p[index - 1] ==> r.effects == [] && r.state == s.(memory := r.state.memory))
            else !r.ok && r.state == s && r.effects == []
  {
    var found := FindHandle(s, index, o);
    if found.Some? {
      OnOutput(s, o, found.value);
      ShowShows(s, index, o, outputName, found.value);
    }
  }

  /** A new window goes to the asked end of the named workspace, shown or not; an unknown one is refused. */
  lemma MapAtJoins(s: State, x: int, h: Handle, tail: bool)
    requires Inv(s) && x !in s.owner
    ensures var r := ApplyMapAt(s, x, h, tail);
            if h in s.ws then
              var w := s.ws[h];
              var m := if tail then w.members + [x] else [x] + w.members;
              && r.ok && r.state == s.(ws := s.ws[h := w.(members := m)], owner := s.owner[x := h])
              && w.output in s.shown
              && r.effects == [SetStateBag(x, h)] + if s.shown[w.output] == h then [SetOutputStack(w.output, m)] else []
            else !r.ok && r.state == s && r.effects == []
  {
    if h in s.ws { Listed(s, h); }
  }

  /** Indices count an output's workspaces from one. */
  lemma IndicesCountFromOne(s: State, o: int, k: nat)
    requires Inv(s) && k < |Positions(s, o)|
    ensures FindIndex(s, Positions(s, o)[k], o) == Some(k + 1) && FindHandle(s, k + 1, o) == Some(Positions(s, o)[k])
  {
    assert Distinct(Positions(s, o));
    IndexOfDistinct(Positions(s, o), k);
  }
}
