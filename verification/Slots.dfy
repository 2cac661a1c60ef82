/** Sticky island slots: `resolveSlots` of the canvas plugin. */
module Slots {
  import opened Seqs

  /** No handle before position `i` remembers the same slot. */
  predicate FirstClaim(handles: seq<int>, memory: map<int, nat>, i: nat)
    requires i < |handles|
  {
    handles[i] in memory && forall j :: 0 <= j < i ==> !(handles[j] in memory && memory[handles[j]] == memory[handles[i]])
  }

  ghost function Taken(slots: map<int, nat>): set<nat> { set h | h in slots :: slots[h] }

  predicate Injective(m: map<int, nat>) {
    forall g, h :: g in m && h in m && m[g] == m[h] ==> g == h
  }

  /** Every slot below is somebody's. */
  ghost predicate Gapless(slots: map<int, nat>, s: nat) { forall v: nat :: v < s ==> v in Taken(slots) }

  /** Every handle has a slot of its own. A first claim keeps its slot; any other handle gets a slot below
      the handle count, which is then remembered. These come in the order of the handles and leave no gap below. */
  ghost predicate Resolves(handles: seq<int>, before: map<int, nat>, after: map<int, nat>, slots: map<int, nat>) {
    && (forall h :: h in slots <==> h in handles)
    && Injective(slots)
    && (forall i :: 0 <= i < |handles| ==>
          && handles[i] in slots
          && if FirstClaim(handles, before, i) then slots[handles[i]] == before[handles[i]]
             else slots[handles[i]] < |handles|)
    && (forall i, j :: 0 <= i < j < |handles| && !FirstClaim(handles, before, i) && !FirstClaim(handles, before, j) ==>
          slots[handles[i]] < slots[handles[j]])
    && (forall i :: 0 <= i < |handles| && !FirstClaim(handles, before, i) ==> Gapless(slots, slots[handles[i]]))
    && Remembers(before, after, slots)
  }

  /** The memory has the slots and is otherwise unchanged. */
  ghost predicate Remembers(before: map<int, nat>, after: map<int, nat>, slots: map<int, nat>) {
    && (forall h :: h in after <==> h in before || h in slots)
    && (forall h :: h in after ==> after[h] == if h in slots then slots[h] else before[h])
  }

  lemma AlsoRemembers(before: map<int, nat>, after: map<int, nat>, slots: map<int, nat>, h: int, s: nat)
    requires Remembers(before, after, slots)
    ensures Remembers(before, after[h := s], slots[h := s])
  {
  }

  /** After a resolution every handle is the first to claim its slot. */
  lemma ClaimsAgain(handles: seq<int>, before: map<int, nat>, after: map<int, nat>, slots: map<int, nat>, i: nat)
    requires Distinct(handles) && Resolves(handles, before, after, slots) && i < |handles|
    ensures FirstClaim(handles, after, i) && handles[i] in slots && after[handles[i]] == slots[handles[i]]
  {
    var h := handles[i];
    assert h in slots && h in after;
    forall j | 0 <= j < i ensures handles[j] in after && after[handles[j]] != after[h] {
      var g := handles[j];
      assert g in slots && g in after && g != h;
    }
  }

  /** Resolving again changes nothing. */
  lemma ResolvedTwice(handles: seq<int>, before: map<int, nat>, after: map<int, nat>, slots: map<int, nat>,
                      after2: map<int, nat>, slots2: map<int, nat>)
    requires Distinct(handles) && Resolves(handles, before, after, slots) && Resolves(handles, after, after2, slots2)
    ensures slots2 == slots && after2 == after
  {
    forall h | h in slots ensures h in slots2 && slots2[h] == slots[h] {
      var i :| 0 <= i < |handles| && handles[i] == h;
      ClaimsAgain(handles, before, after, slots, i);
    }
    assert forall h :: h in slots2 <==> h in slots;
    assert slots2 == slots;
    forall h ensures h in after2 <==> h in after { }
    forall h | h in after ensures after2[h] == after[h] { }
  }

  ghost function Below(n: nat): (r: set<nat>)
    ensures |r| == n && forall k: nat :: k in r <==> k < n
  {
    if n == 0 then {} else Below(n - 1) + {n - 1}
  }

  /** A gap below every run of used slots: `s` slots from 0 on are used, so `s` is at most their number. */
  lemma Pigeons(used: set<nat>, s: nat)
    requires forall k: nat :: k < s ==> k in used
    ensures s <= |used|
  {
    Subset(Below(s), used);
  }

  lemma Subset<T(!new)>(a: set<T>, b: set<T>)
    requires a <= b
    ensures |a| <= |b|
  {
    assert b == a + (b - a);
  }

  lemma AddSlot(slots: map<int, nat>, h: int, s: nat)
    requires Injective(slots) && h !in slots && s !in Taken(slots)
    ensures Injective(slots[h := s]) && Taken(slots[h := s]) == Taken(slots) + {s}
  {
    var r := slots[h := s];
    forall v ensures v in Taken(r) <==> v in Taken(slots) + {s} {
      if v in Taken(slots) {
        var g :| g in slots && slots[g] == v;
        assert g in r && r[g] == v;
      }
      assert h in r && r[h] == s;
    }
  }

  lemma {:induction false} SlotCount(slots: map<int, nat>)
    ensures |Taken(slots)| <= |slots.Keys|
    decreases |slots.Keys|
  {
    if h :| h in slots {
      var rest := slots - {h};
      assert rest.Keys == slots.Keys - {h};
      SlotCount(rest);
      forall v | v in Taken(slots) ensures v in Taken(rest) + {slots[h]} {
        var g :| g in slots && slots[g] == v;
        if g != h { assert g in rest; }
      }
      Subset(Taken(slots), Taken(rest) + {slots[h]});
    }
  }

  lemma ElementCount(s: seq<int>)
    requires Distinct(s)
    ensures |Elements(s)| == |s|
  {
    if s != [] {
      var rest := s[..|s| - 1];
      ElementCount(rest);
      assert Elements(s) == Elements(rest) + {s[|s| - 1]} by { assert s == rest + [s[|s| - 1]]; }
    }
  }

  /** Half-way through: the kept slots are there, and the new ones are low. */
  ghost predicate Assigned(handles: seq<int>, before: map<int, nat>, memory: map<int, nat>,
                           kept: map<int, nat>, slots: map<int, nat>) {
    && Injective(slots) && Remembers(before, memory, slots)
    && (forall h :: h in slots ==> h in handles)
    && (forall h :: h in kept ==> h in slots && slots[h] == kept[h])
    && (forall h :: h in slots && h !in kept ==> slots[h] < |handles|)
  }

  lemma AssignOne(handles: seq<int>, before: map<int, nat>, memory: map<int, nat>,
                  kept: map<int, nat>, slots: map<int, nat>, h: int, s: nat)
    requires Distinct(handles) && Assigned(handles, before, memory, kept, slots)
    requires h in handles && h !in slots && s !in Taken(slots) && s <= |Taken(slots)|
    ensures Assigned(handles, before, memory[h := s], kept, slots[h := s])
    ensures Taken(slots[h := s]) == Taken(slots) + {s}
  {
    RoomForOne(handles, slots, h);
    AddSlot(slots, h, s);
    AlsoRemembers(before, memory, slots, h, s);
  }

  /** The lowest free slot is above every slot that has no gap below. */
  lemma BelowFree(slots: map<int, nat>, g: int, s: nat)
    requires g in slots && Gapless(slots, slots[g]) && s !in Taken(slots)
    ensures slots[g] < s
  {
    assert slots[g] in Taken(slots);
  }

  /** The first `n` handles have slots; the new ones come in order and leave no gap below. */
  ghost predicate Ordered(handles: seq<int>, kept: map<int, nat>, slots: map<int, nat>, n: nat) {
    && n <= |handles|
    && (forall j :: 0 <= j < n ==> handles[j] in slots)
    && (forall g :: g in slots && g !in kept ==> Gapless(slots, slots[g]) && g in handles[..n])
    && (forall j, k :: 0 <= j < k < n && handles[j] !in kept && handles[k] !in kept ==> slots[handles[j]] < slots[handles[k]])
  }

  lemma OrderedOn(handles: seq<int>, kept: map<int, nat>, slots: map<int, nat>, n: nat)
    requires Distinct(handles) && Ordered(handles, kept, slots, n) && n < |handles| && handles[n] in slots
    ensures Ordered(handles, kept, slots, n + 1)
  {
    assert handles[..n + 1] == handles[..n] + [handles[n]];
  }

  lemma OrderedNext(handles: seq<int>, kept: map<int, nat>, slots: map<int, nat>, n: nat, s: nat)
    requires Distinct(handles) && Ordered(handles, kept, slots, n) && n < |handles| && handles[n] !in slots
    requires s !in Taken(slots) && Gapless(slots, s)
    ensures Ordered(handles, kept, slots[handles[n] := s], n + 1)
  {
    var r := slots[handles[n] := s];
    assert handles[..n + 1] == handles[..n] + [handles[n]];
    forall v | v in Taken(slots) ensures v in Taken(r) {
      var g :| g in slots && slots[g] == v;
      assert g in r && r[g] == v;
    }
    forall g | g in r && g !in kept ensures Gapless(r, r[g]) && g in handles[..n + 1] {
      if g != handles[n] { assert Gapless(slots, slots[g]); }
    }
    forall j, k | 0 <= j < k < n + 1 && handles[j] !in kept && handles[k] !in kept ensures r[handles[j]] < r[handles[k]] {
      if k == n { BelowFree(slots, handles[j], s); }
    }
  }

  lemma LaterClaim(handles: seq<int>, before: map<int, nat>, slots: map<int, nat>, i: nat)
    requires i < |handles| && handles[i] in before && before[handles[i]] in Taken(slots)
    requires forall h :: h in slots ==> h in handles[..i] && h in before && slots[h] == before[h]
    ensures !FirstClaim(handles, before, i)
  {
    var g :| g in slots && slots[g] == before[handles[i]];
    var j :| 0 <= j < i && handles[j] == g;
  }

  class SlotTable {
    var slotByHandle: map<int, nat>

    constructor ()
      ensures slotByHandle == map[]
    {
      slotByHandle := map[];
    }

    /** First pass: the handles whose remembered slot is still free keep it. */
    method Keep(handles: seq<int>) returns (used: set<nat>, slots: map<int, nat>)
      requires Distinct(handles)
      ensures used == Taken(slots) && Injective(slots) && (forall h :: h in slots ==> h in handles)
      ensures forall i :: 0 <= i < |handles| ==> (handles[i] in slots <==> FirstClaim(handles, slotByHandle, i))
      ensures forall h :: h in slots ==> h in slotByHandle && slots[h] == slotByHandle[h]
    {
      used, slots := {}, map[];
      for i := 0 to |handles|
        invariant used == Taken(slots) && Injective(slots)
        invariant forall h :: h in slots ==> h in handles[..i]
        invariant forall j :: 0 <= j < i ==> (handles[j] in slots <==> FirstClaim(handles, slotByHandle, j))
        invariant forall h :: h in slots ==> h in slotByHandle && slots[h] == slotByHandle[h]
        invariant forall j :: 0 <= j < i && handles[j] in slotByHandle ==> slotByHandle[handles[j]] in used
      {
        var h := handles[i];
        assert handles[..i + 1] == handles[..i] + [h];
        if h in slotByHandle && slotByHandle[h] !in used {
          AddSlot(slots, h, slotByHandle[h]);
          used, slots := used + {slotByHandle[h]}, slots[h := slotByHandle[h]];
        } else if h in slotByHandle {
          LaterClaim(handles, slotByHandle, slots, i);
        }
      }
      assert handles[..|handles|] == handles;
    }

    /** The lowest free slot. */
    method FreeSlot(used: set<nat>) returns (s: nat)
      ensures s !in used && s <= |used| && forall k: nat :: k < s ==> k in used
    {
      s := 0;
      Pigeons(used, 0);
      while s in used
        invariant s <= |used| && forall k: nat :: k < s ==> k in used
        decreases |used| - s
      {
        s := s + 1;
        Pigeons(used, s);
      }
    }

    /** Second pass: the rest take the lowest free slots. */
    method Assign(handles: seq<int>, used0: set<nat>, kept: map<int, nat>) returns (slots: map<int, nat>)
      requires Distinct(handles) && used0 == Taken(kept) && Injective(kept)
      requires forall h :: h in kept ==> h in handles && h in slotByHandle && kept[h] == slotByHandle[h]
      modifies this
      ensures Injective(slots) && (forall h :: h in slots <==> h in handles)
      ensures forall h :: h in kept ==> h in slots && slots[h] == kept[h]
      ensures forall h :: h in slots && h !in kept ==> slots[h] < |handles| && Gapless(slots, slots[h])
      ensures Ordered(handles, kept, slots, |handles|)
      ensures Remembers(old(slotByHandle), slotByHandle, slots)
    {
      ghost var before := slotByHandle;
      var used := used0;
      slots := kept;
      for i := 0 to |handles|
        invariant used == Taken(slots) && Assigned(handles, before, slotByHandle, kept, slots)
        invariant Ordered(handles, kept, slots, i)
      {
        var h := handles[i];
        if h in slots {
          OrderedOn(handles, kept, slots, i);
        } else {
          var s := FreeSlot(used);
          OrderedNext(handles, kept, slots, i, s);
          AssignOne(handles, before, slotByHandle, kept, slots, h, s);
          used, slots, slotByHandle := used + {s}, slots[h := s], slotByHandle[h := s];
        }
      }
    }

    /** `resolveSlots`. */
    method ResolveSlots(handles: seq<int>) returns (slots: map<int, nat>)
      requires Distinct(handles)
      modifies this
      ensures Resolves(handles, old(slotByHandle), slotByHandle, slots)
    {
      var used, kept := Keep(handles);
      ghost var before := slotByHandle;
      slots := Assign(handles, used, kept);
      KeptAndNew(handles, before, slotByHandle, kept, slots);
    }
  }

  /** The kept slots are those of the first claims. */
  lemma KeptAndNew(handles: seq<int>, before: map<int, nat>, after: map<int, nat>, kept: map<int, nat>, slots: map<int, nat>)
    requires (forall h :: h in slots <==> h in handles) && Injective(slots) && Remembers(before, after, slots)
    requires forall i :: 0 <= i < |handles| ==> (handles[i] in kept <==> FirstClaim(handles, before, i))
    requires forall h :: h in kept ==> h in slots && h in before && slots[h] == kept[h] == before[h]
    requires forall h :: h in slots && h !in kept ==> slots[h] < |handles| && Gapless(slots, slots[h])
    requires Ordered(handles, kept, slots, |handles|)
    ensures Resolves(handles, before, after, slots)
  {
    forall i | 0 <= i < |handles|
      ensures handles[i] in slots
      ensures FirstClaim(handles, before, i) ==> slots[handles[i]] == before[handles[i]]
      ensures !FirstClaim(handles, before, i) ==> slots[handles[i]] < |handles| && Gapless(slots, slots[handles[i]])
    {
      var h := handles[i];
      assert h in kept <==> FirstClaim(handles, before, i);
      assert h in handles && h in slots;
      if h in kept { assert slots[h] == before[h]; } else { assert slots[h] < |handles| && Gapless(slots, slots[h]); }
    }
    forall i, j | 0 <= i < j < |handles| && !FirstClaim(handles, before, i) && !FirstClaim(handles, before, j)
      ensures slots[handles[i]] < slots[handles[j]]
    {
      assert handles[i] !in kept && handles[j] !in kept;
    }
  }

  /** While a handle has no slot, fewer slots than handles are used. */
  lemma RoomForOne(handles: seq<int>, slots: map<int, nat>, h: int)
    requires Distinct(handles) && h in handles && h !in slots && forall g :: g in slots ==> g in handles
    ensures |Taken(slots)| < |handles|
  {
    SlotCount(slots);
    ProperCount(slots.Keys, handles, h);
  }

  lemma ProperCount(keys: set<int>, s: seq<int>, h: int)
    requires Distinct(s) && h in s && h !in keys && forall g :: g in keys ==> g in s
    ensures |keys| < |s|
  {
    ElementCount(s);
    var all := Elements(s);
    forall g | g in keys ensures g in all - {h} { }
    assert h in all;
    Subset(keys, all - {h});
  }
}
