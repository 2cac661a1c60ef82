/** What the window and focus transitions do to the registry, evaporation included. */
module Outcomes {
  import opened Seqs
  import opened Registry
  import opened Hotplug

  /** Evaporation removes at most the one record; windows, focus and memory stay. */
  ghost predicate AtMostReaped(s: State, r: State, h: Handle) {
    && r.owner == s.owner && r.shown == s.shown && r.memory == s.memory && r.next == s.next
    && (forall k :: k in s.ws && k != h ==> k in r.ws && r.ws[k] == s.ws[k])
    && (h in r.ws && h in s.ws ==> r.ws[h] == s.ws[h])
    && r.ws.Keys <= s.ws.Keys
  }

  lemma RetiredEmpty(s: State, h: Handle, t: Handle)
    requires h in s.ws && t in s.ws && h != t && s.ws[h].output in s.positions && s.ws[h].output in s.shown
    requires s.ws[h].members == [] && s.shown[s.ws[h].output] != h
    ensures AtMostReaped(s, Retired(s, h, t), h)
  {
    var r := Retired(s, h, t);
    assert s.ws[t].members + [] == s.ws[t].members;
    assert Sent([], t) == map[];
  }

  lemma ReapKeeps(s: State, h: Handle)
    requires Inv(s)
    ensures AtMostReaped(s, ReapIfEmpty(s, h).state, h)
  {
    if Reapable(s, h) {
      Listed(s, h);
      NotAlone(s, h);
      var created, s1, t, formerIndex, changes := DestroyIs(s, h, "");
      RetiredEmpty(s, h, t);
    }
  }

  /** A hidden workspace shares its output with the shown one. */
  lemma NotAlone(s: State, h: Handle)
    requires Inv(s) && h in s.ws && s.ws[h].output in s.shown && s.shown[s.ws[h].output] != h
    ensures s.ws[h].output in s.positions && |s.positions[s.ws[h].output]| != 1
  {
    var o := s.ws[h].output;
    Listed(s, h);
    assert s.shown[o] in Positions(s, o) && h in Positions(s, o);
  }

  /** Showing a workspace changes what that output shows and nothing else that is shown, clears its urgency,
      anchors the output's focus memory and moves no window. */
  lemma ShowShows(s: State, index: int, o: int, outputName: string, h: Handle)
    requires Inv(s) && FindHandle(s, index, o) == Some(h)
    ensures var r := Show(s, index, o, outputName).state;
            && r.shown == s.shown[o := h] && r.owner == s.owner
            && r.memory == Remembered(s.memory, outputName, h)
            && h in r.ws && h in s.ws && r.ws[h].members == s.ws[h].members
            && (o in s.shown && s.shown[o] != h ==> !r.ws[h].urgent)
  {
    OnOutput(s, o, h);
    if s.shown[o] != h {
      ShownNowInv(s, h, o, outputName);
      ReapKeeps(ShownNow(s, h, o, outputName), s.shown[o]);
      NavigateShows(s, h, o, outputName, Show(s, index, o, outputName).state);
    }
  }

  lemma NavigateShows(s: State, h: Handle, o: int, outputName: string, r: State)
    requires h in s.ws && o in s.shown && s.shown[o] != h
    requires AtMostReaped(ShownNow(s, h, o, outputName), r, s.shown[o])
    ensures r.shown == s.shown[o := h] && r.owner == s.owner && r.memory == Remembered(s.memory, outputName, h)
    ensures h in r.ws && r.ws[h].members == s.ws[h].members && !r.ws[h].urgent
  {
  }

  /** A moved window is the last member of its new workspace and of no other; the rest stay in order; what is
      shown stays; a cross-output move puts the destination first among the new workspace's preferences. */
  lemma MoveMoves(s: State, x: int, index: int, o: int, outputName: string, t: Handle)
    requires Inv(s) && FindHandle(s, index, o) == Some(t) && x in s.owner && s.owner[x] != t
    ensures var from, r := s.owner[x], MoveWindow(s, x, index, o, outputName).state;
            && r.owner == s.owner[x := t] && r.shown == s.shown
            && t in r.ws && t in s.ws && r.ws[t].members == s.ws[t].members + [x]
            && from in s.ws
            && (from in r.ws ==> r.ws[from].members == Remove(s.ws[from].members, x))
            && (forall k :: k in s.ws && k != t && k != from ==> k in r.ws && r.ws[k] == s.ws[k])
            && r.ws[t].preferred == if s.ws[from].output != o && outputName != ""
                                    then Promoted(s.ws[t].preferred, outputName) else s.ws[t].preferred
  {
    OnOutput(s, o, t);
    Owner(s, x);
    RehousedInv(s, x, t, outputName);
    ReapKeeps(Rehoused(s, x, s.owner[x], t, outputName), s.owner[x]);
    RehousedThen(s, x, t, outputName, MoveWindow(s, x, index, o, outputName).state);
  }

  lemma RehousedThen(s: State, x: int, t: Handle, outputName: string, r: State)
    requires x in s.owner && s.owner[x] in s.ws && t in s.ws && s.owner[x] != t
    requires AtMostReaped(Rehoused(s, x, s.owner[x], t, outputName), r, s.owner[x])
    ensures var from := s.owner[x];
            && r.owner == s.owner[x := t] && r.shown == s.shown
            && t in r.ws && r.ws[t].members == s.ws[t].members + [x]
            && (from in r.ws ==> r.ws[from].members == Remove(s.ws[from].members, x))
            && (forall k :: k in s.ws && k != t && k != from ==> k in r.ws && r.ws[k] == s.ws[k])
            && r.ws[t].preferred == if s.ws[from].output != s.ws[t].output && outputName != ""
                                    then Promoted(s.ws[t].preferred, outputName) else s.ws[t].preferred
  {
  }

  function Not(name: string): string -> bool { (n: string) => n != name }

  /** A promoted name is first and the others keep their order. Of a configured list that names it more than once
      only the first copy moves; in a list without duplicates it stands once. */
  lemma PromotedFirst(preferred: seq<string>, name: string)
    ensures var r := Promoted(preferred, name);
            && r[0] == name
            && r[1..] == (if name in preferred then RemoveAt(preferred, IndexOf(preferred, name)) else preferred)
            && multiset(r) == multiset(preferred) + (if name in preferred then multiset{} else multiset{name})
            && Filter(r, Not(name)) == Filter(preferred, Not(name))
            && (Distinct(preferred) ==> Distinct(r))
  {
    PromotedOrder(preferred, name);
    PromotedNames(preferred, name);
    if Distinct(preferred) {
      RemoveFacts(preferred, name);
      DistinctConcat([name], Remove(preferred, name));
    }
  }

  lemma PromotedOrder(preferred: seq<string>, name: string)
    ensures Filter(Promoted(preferred, name), Not(name)) == Filter(preferred, Not(name))
  {
    MovedFront(preferred, name, Not(name));
  }

  lemma PromotedNames(preferred: seq<string>, name: string)
    ensures multiset(Promoted(preferred, name))
            == multiset(preferred) + if name in preferred then multiset{} else multiset{name}
  {
    if name in preferred {
      var i := IndexOf(preferred, name);
      assert preferred == preferred[..i] + [name] + preferred[i + 1..];
    }
  }

  /** A promoted output is the workspace's home whenever it is live, and makes no difference while it is not. */
  lemma PromotedHome(preferred: seq<string>, name: string, live: LiveOutputs)
    ensures Resolve(Promoted(preferred, name), live)
            == if ByName(live, name).Some? then ByName(live, name) else Resolve(preferred, live)
  {
    assert Promoted(preferred, name)[1..] == Remove(preferred, name);
    if ByName(live, name).None? && name in preferred {
      var i := IndexOf(preferred, name);
      var a, b := preferred[..i], preferred[i + 1..];
      assert preferred == a + ([name] + b) && ([name] + b)[1..] == b;
      ResolvePrefix(a, [name] + b, live);
      ResolvePrefix(a, b, live);
    }
  }

  /** A new window is first or last of the workspace its output shows, and of no other. */
  lemma MapJoins(s: State, x: int, o: int, outputName: string, tail: bool)
    requires Inv(s) && x !in s.owner
    ensures var e := EnsureOutput(s, o, outputName).state;
            var r := ApplyMap(s, x, o, outputName, tail).state;
            && o in e.shown && e.shown[o] in e.ws && r.shown == e.shown && r.owner == s.owner[x := e.shown[o]]
            && (o in s.shown ==> e == s)
            && r.ws.Keys == e.ws.Keys
            && (forall k :: k in e.ws && k != e.shown[o] ==> r.ws[k] == e.ws[k])
            && r.ws[e.shown[o]].members
               == if tail then e.ws[e.shown[o]].members + [x] else [x] + e.ws[e.shown[o]].members
  {
    EnsureOutputInv(s, o, outputName);
    var e := EnsureOutput(s, o, outputName).state;
    Showing(e, o);
    if o in s.shown { Listing(s, o); }
    JoinedThen(e, x, e.shown[o], tail);
  }

  lemma Listing(s: State, o: int)
    requires Inv(s) && o in s.shown
    ensures Positions(s, o) != []
  {
    Showing(s, o);
  }

  lemma JoinedThen(e: State, x: int, h: Handle, tail: bool)
    requires h in e.ws
    ensures var r := Joined(e, x, h, tail);
            && r.shown == e.shown && r.owner == e.owner[x := h] && r.ws.Keys == e.ws.Keys
            && (forall k :: k in e.ws && k != h ==> r.ws[k] == e.ws[k])
            && r.ws[h].members == if tail then e.ws[h].members + [x] else [x] + e.ws[h].members
  {
  }

  /** An unmapped window is gone from its workspace and the index; the others keep their order. */
  lemma UnmapLeaves(s: State, x: int)
    requires Inv(s) && x in s.owner
    ensures var h, r := s.owner[x], ApplyUnmap(s, x).state;
            && r.owner == s.owner - {x} && r.shown == s.shown && h in s.ws
            && (h in r.ws ==> r.ws[h].members == Remove(s.ws[h].members, x))
            && (forall k :: k in s.ws && k != h ==> k in r.ws && r.ws[k] == s.ws[k])
  {
    Owner(s, x);
    Listed(s, s.owner[x]);
    LeftInv(s, x);
    ReapKeeps(Left(s, x), s.owner[x]);
    LeftThen(s, x, ApplyUnmap(s, x).state);
  }

  lemma LeftThen(s: State, x: int, r: State)
    requires x in s.owner && s.owner[x] in s.ws && AtMostReaped(Left(s, x), r, s.owner[x])
    ensures var h := s.owner[x];
            && r.owner == s.owner - {x} && r.shown == s.shown
            && (h in r.ws ==> r.ws[h].members == Remove(s.ws[h].members, x))
            && (forall k :: k in s.ws && k != h ==> k in r.ws && r.ws[k] == s.ws[k])
  {
  }

  /** A member sent to place `j` is there, and the others keep their order. */
  lemma ReorderedPlaces(m: seq<int>, i: nat, j: nat)
    requires Distinct(m) && i < |m| && j < |m|
    ensures var r := Reordered(m, i, j);
            |r| == |m| && r[j] == m[i] && IndexOf(r, m[i]) == j && Remove(r, m[i]) == RemoveAt(m, i)
  {
    var rest := RemoveAt(m, i);
    var r := Reordered(m, i, j);
    ReorderedFacts(m, i, j);
    assert r == rest[..j] + [m[i]] + rest[j..];
    IndexOfDistinct(r, j);
    assert RemoveAt(r, j) == rest;
  }

  /** The lookup finds the first workspace of that name, whenever there is one. */
  lemma {:induction false} FindNamedFirst(s: State, name: string, k: nat, h: Handle)
    requires h in s.ws && h < k && s.ws[h].name == Some(name)
    ensures FindNamed(s, name, k).Some? && FindNamed(s, name, k).value <= h
  {
    if h < k - 1 {
      FindNamedFirst(s, name, k - 1, h);
    } else if FindNamed(s, name, k - 1).Some? {
      FindNamedBelow(s, name, k - 1);
    }
  }

  lemma {:induction false} FindNamedBelow(s: State, name: string, k: nat)
    ensures FindNamed(s, name, k).Some? ==> FindNamed(s, name, k).value < k
  {
    if k > 0 { FindNamedBelow(s, name, k - 1); }
  }

  /** `create` returns the first workspace that has the name, exactly if there is one, and then changes nothing;
      else a new one: last on its output, not shown if the output showed something, remembering the output it was
      born on. */
  lemma CreateFindsOrAppends(s: State, name: Option<string>, o: int, preferred: Option<seq<string>>,
                             persistent: bool, outputName: string)
    requires Inv(s)
    ensures var (r, h) := Create(s, name, o, preferred, persistent, outputName);
            && h in r.state.ws && r.state.ws[h].name == name
            && (h in s.ws <==> name.Some? && exists k :: k in s.ws && s.ws[k].name == name)
            && (h in s.ws ==> r.state == s && r.effects == [] && forall k :: k in s.ws && s.ws[k].name == name ==> h <= k)
            && (h !in s.ws ==>
                  && Positions(r.state, o) != [] && Last(Positions(r.state, o)) == h && outputName in r.state.ws[h].preferred
                  && (o in s.shown ==> r.state.shown == s.shown))
  {
    if name.Some? {
      forall k | k in s.ws && s.ws[k].name == name
        ensures FindNamed(s, name.value, s.next).Some? && FindNamed(s, name.value, s.next).value <= k
      {
        FindNamedFirst(s, name.value, s.next, k);
      }
    }
  }
}
