/** Subsurface restacking: wl_subsurface.place_above and place_below, queued and applied on parent commit. */
module Restacking {
  import opened Seqs

  /** Resources are numbers; `sibling` names a wl_surface. */
  datatype Op = Op(sub: int, sibling: int, above: bool)

  /** The first child, from position `i` on, whose surface it is. */
  function ChildFrom(order: seq<int>, surfaceOf: map<int, int>, surface: int, i: nat): (r: int)
    requires i <= |order|
    ensures r == -1 || i <= r < |order|
    ensures r == -1 ==> forall j :: i <= j < |order| ==> !(order[j] in surfaceOf && surfaceOf[order[j]] == surface)
    ensures r >= 0 ==> order[r] in surfaceOf && surfaceOf[order[r]] == surface
    decreases |order| - i
  {
    if i == |order| then -1
    else if order[i] in surfaceOf && surfaceOf[order[i]] == surface then i
    else ChildFrom(order, surfaceOf, surface, i + 1)
  }

  function ChildOf(order: seq<int>, surfaceOf: map<int, int>, surface: int): int {
    ChildFrom(order, surfaceOf, surface, 0)
  }

  /** No child before it has that surface. */
  lemma {:induction false} ChildIsFirst(order: seq<int>, surfaceOf: map<int, int>, surface: int, i: nat, j: nat)
    requires i <= j < |order| && order[j] in surfaceOf && surfaceOf[order[j]] == surface
    ensures i <= ChildFrom(order, surfaceOf, surface, i) <= j
    decreases j - i
  {
    if i < j { ChildIsFirst(order, surfaceOf, surface, i + 1, j); }
  }

  /** The operation names a child, and the parent or a child to place it by. */
  predicate Effective(order: seq<int>, surfaceOf: map<int, int>, parent: int, op: Op) {
    op.sub in order && (op.sibling == parent || ChildOf(order, surfaceOf, op.sibling) != -1)
  }

  /** Where the subsurface goes among the others. */
  function Slot(order: seq<int>, surfaceOf: map<int, int>, parent: int, op: Op): nat
    requires Effective(order, surfaceOf, parent, op)
  {
    var from := IndexOf(order, op.sub);
    var ref := if op.sibling == parent then -1 else ChildOf(order, surfaceOf, op.sibling);
    var r := if ref > from then ref - 1 else ref;
    if op.above then r + 1 else if r < 0 then 0 else r
  }

  function Reordered(order: seq<int>, surfaceOf: map<int, int>, parent: int, op: Op): seq<int> {
    if !Effective(order, surfaceOf, parent, op) then order
    else InsertAt(RemoveAt(order, IndexOf(order, op.sub)), Slot(order, surfaceOf, parent, op), op.sub)
  }

  lemma ReorderedIs(order: seq<int>, surfaceOf: map<int, int>, parent: int, op: Op, from: nat, ref: int)
    requires from == IndexOf(order, op.sub) && from < |order|
    requires if op.sibling == parent then ref == -1 else 0 <= ref == ChildOf(order, surfaceOf, op.sibling)
    ensures var r := if ref > from then ref - 1 else ref;
            var at := if op.above then r + 1 else if r < 0 then 0 else r;
            at >= 0 && Reordered(order, surfaceOf, parent, op) == InsertAt(RemoveAt(order, from), at, op.sub)
  {
  }

  function Drained(order: seq<int>, surfaceOf: map<int, int>, parent: int, queue: seq<Op>): seq<int> {
    if queue == [] then order
    else Reordered(Drained(order, surfaceOf, parent, Init(queue)), surfaceOf, parent, Last(queue))
  }

  // ----- One operation -----

  lemma InsertFacts(s: seq<int>, i: nat, x: int)
    requires Distinct(s) && x !in s
    ensures var r := InsertAt(s, i, x);
            && Distinct(r) && (forall y :: y in r <==> y in s || y == x) && Remove(r, x) == s
            && IndexOf(r, x) == if i >= |s| then |s| else i
  {
    var r := InsertAt(s, i, x);
    var at := if i >= |s| then |s| else i;
    assert r == s[..at] + [x] + s[at..];
    assert r[at] == x;
    forall j, k | 0 <= j < k < |r| ensures r[j] != r[k] {
      if j == at { assert r[k] == s[k - 1]; }
      else if k == at { assert r[j] == s[j]; }
      else { assert s[if j < at then j else j - 1] != s[if k < at then k else k - 1]; }
    }
    IndexOfDistinct(r, at);
    assert RemoveAt(r, at) == s;
    forall y ensures y in r <==> y in s || y == x { assert s == s[..at] + s[at..]; }
  }

  lemma Removed(order: seq<int>, x: int)
    requires Distinct(order) && x in order
    ensures var r := RemoveAt(order, IndexOf(order, x)); Distinct(r) && x !in r && r == Remove(order, x)
  {
    RemoveFacts(order, x);
  }

  /** The children are the same, and all but the moved one stay as they were. */
  lemma ReorderKeeps(order: seq<int>, surfaceOf: map<int, int>, parent: int, op: Op)
    requires Distinct(order)
    ensures var r := Reordered(order, surfaceOf, parent, op);
            && Distinct(r) && (forall y :: y in r <==> y in order)
            && Remove(r, op.sub) == Remove(order, op.sub)
  {
    if Effective(order, surfaceOf, parent, op) {
      Removed(order, op.sub);
      RemoveFacts(order, op.sub);
      InsertFacts(Remove(order, op.sub), Slot(order, surfaceOf, parent, op), op.sub);
    }
  }

  lemma RemovedAt(order: seq<int>, i: nat, j: nat)
    requires i < |order| && j < |order| && i != j
    ensures var r := RemoveAt(order, i); var k := if j > i then j - 1 else j; k < |r| && r[k] == order[j]
  {
  }

  /** Placed by another sibling, the subsurface ends up immediately above or below it; placed by the parent,
      at the bottom. */
  lemma ReorderPlaces(order: seq<int>, surfaceOf: map<int, int>, parent: int, op: Op)
    requires Distinct(order) && Effective(order, surfaceOf, parent, op)
    ensures var r := Reordered(order, surfaceOf, parent, op);
            var at := IndexOf(r, op.sub);
            && (op.sibling == parent ==> at == 0)
            && (op.sibling != parent && order[ChildOf(order, surfaceOf, op.sibling)] != op.sub ==>
                  var sib := order[ChildOf(order, surfaceOf, op.sibling)];
                  if op.above then at > 0 && r[at - 1] == sib else at + 1 < |r| && r[at + 1] == sib)
  {
    var from, slot := IndexOf(order, op.sub), Slot(order, surfaceOf, parent, op);
    var rest := RemoveAt(order, from);
    Removed(order, op.sub);
    InsertFacts(rest, slot, op.sub);
    if op.sibling != parent {
      var ref := ChildOf(order, surfaceOf, op.sibling);
      if order[ref] != op.sub { RemovedAt(order, from, ref); }
    }
  }

  /** Placed by itself, it moves up one place or stays. */
  lemma ReorderBySelf(order: seq<int>, surfaceOf: map<int, int>, parent: int, op: Op)
    requires Distinct(order) && Effective(order, surfaceOf, parent, op)
    requires op.sibling != parent && order[ChildOf(order, surfaceOf, op.sibling)] == op.sub
    ensures var r, i := Reordered(order, surfaceOf, parent, op), IndexOf(order, op.sub);
            IndexOf(r, op.sub) == if op.above && i < |order| - 1 then i + 1 else i
  {
    Removed(order, op.sub);
    IndexOfDistinct(order, ChildOf(order, surfaceOf, op.sibling));
    InsertFacts(RemoveAt(order, IndexOf(order, op.sub)), Slot(order, surfaceOf, parent, op), op.sub);
  }

  // ----- A queue of operations -----

  ghost function Subjects(queue: seq<Op>): set<int> { set i | 0 <= i < |queue| :: queue[i].sub }

  function Not(x: int): int -> bool { (y: int) => y != x }

  lemma RemoveIsFilter(s: seq<int>, x: int)
    requires Distinct(s)
    ensures Remove(s, x) == Filter(s, Not(x))
  {
    if x in s {
      var i := IndexOf(s, x);
      forall j | 0 <= j < |s| && j != i ensures Not(x)(s[j]) { }
      FilterDrops(s, i, Not(x));
    } else {
      FilterAll(s, Not(x));
    }
  }

  /** Whatever the queue, the sibling list is a permutation of itself, and the siblings no operation moves
      keep their order. */
  lemma {:induction false} DrainKeeps(order: seq<int>, surfaceOf: map<int, int>, parent: int, queue: seq<Op>,
                                      still: int -> bool)
    requires Distinct(order) && forall x :: still(x) ==> x !in Subjects(queue)
    ensures var r := Drained(order, surfaceOf, parent, queue);
            && Distinct(r) && multiset(r) == multiset(order)
            && Filter(r, still) == Filter(order, still)
  {
    if queue != [] {
      var before, op := Drained(order, surfaceOf, parent, Init(queue)), Last(queue);
      assert forall i :: 0 <= i < |Init(queue)| ==> Init(queue)[i].sub in Subjects(queue);
      DrainKeeps(order, surfaceOf, parent, Init(queue), still);
      ReorderKeeps(before, surfaceOf, parent, op);
      var r := Reordered(before, surfaceOf, parent, op);
      SameElements(r, before);
      assert op.sub in Subjects(queue) by { assert queue[|queue| - 1].sub == op.sub; }
      FilterFilter(before, Not(op.sub), still);
      FilterFilter(r, Not(op.sub), still);
      RemoveIsFilter(before, op.sub);
      RemoveIsFilter(r, op.sub);
    }
  }

  // ----- The state -----

  class Subcompositor {
    var order: map<int, seq<int>>          // subsurfaceOrder: parent surface -> children, bottom to top
    var surfaceOf: map<int, int>           // subsurfaces: subsurface -> its wl_surface
    var pendingOrder: map<int, seq<Op>>    // subsurfacePendingOrder

    ghost predicate Valid() reads this {
      forall p :: p in order ==> Distinct(order[p])
    }

    constructor ()
      ensures Valid() && order == map[] && surfaceOf == map[] && pendingOrder == map[]
    {
      order, surfaceOf, pendingOrder := map[], map[], map[];
    }

    /** The reference's position: -1 for the parent, -2 when there is none. */
    method RefIndex(children: seq<int>, parent: int, sibling: int) returns (i: int)
      ensures i == if sibling == parent then -1
                   else if ChildOf(children, surfaceOf, sibling) == -1 then -2
                   else ChildOf(children, surfaceOf, sibling)
    {
      if sibling == parent { return -1; }
      i := 0;
      while i < |children|
        invariant 0 <= i <= |children|
        invariant ChildOf(children, surfaceOf, sibling) == ChildFrom(children, surfaceOf, sibling, i)
      {
        if children[i] in surfaceOf && surfaceOf[children[i]] == sibling { return i; }
        i := i + 1;
      }
      return -2;
    }

    method ApplyOne(parent: int, op: Op)
      requires Valid() && parent in order
      modifies this`order
      ensures Valid()
      ensures order == old(order)[parent := Reordered(old(order)[parent], surfaceOf, parent, op)]
    {
      ReorderKeeps(order[parent], surfaceOf, parent, op);
      var children := Splice(order[parent], parent, op);
      order := order[parent := children];
    }

    /** `applyOneReorder`: splice out, adjust the reference, splice in. */
    method Splice(siblings: seq<int>, parent: int, op: Op) returns (children: seq<int>)
      ensures children == Reordered(siblings, surfaceOf, parent, op)
    {
      children := siblings;
      var from := IndexOf(children, op.sub);
      if from < 0 { return; }
      var ref := RefIndex(children, parent, op.sibling);
      if ref == -2 { return; }
      ReorderedIs(siblings, surfaceOf, parent, op, from, ref);
      children := RemoveAt(children, from);
      if ref > from { ref := ref - 1; }
      var at := if op.above then ref + 1 else if ref < 0 then 0 else ref;
      children := InsertAt(children, at, op.sub);
    }

    /** `applySubsurfaceReorder`: drain the parent's queue in arrival order. */
    method ApplyReorder(parent: int) returns (moved: bool)
      requires Valid()
      modifies this`order, this`pendingOrder
      ensures Valid()
      ensures var queue := if parent in old(pendingOrder) then old(pendingOrder)[parent] else [];
              && moved == (queue != [] && parent in old(order))
              && order == (if moved then old(order)[parent := Drained(old(order)[parent], surfaceOf, parent, queue)]
                           else old(order))
              && pendingOrder == if queue == [] then old(pendingOrder) else old(pendingOrder) - {parent}
    {
      if parent !in pendingOrder || pendingOrder[parent] == [] { return false; }
      var queue := pendingOrder[parent];
      if parent !in order {
        pendingOrder := pendingOrder - {parent};
        return false;
      }
      for i := 0 to |queue|
        invariant Valid() && parent in order && pendingOrder == old(pendingOrder)
        invariant order == old(order)[parent := Drained(old(order)[parent], surfaceOf, parent, queue[..i])]
      {
        assert Init(queue[..i + 1]) == queue[..i];
        ApplyOne(parent, queue[i]);
      }
      assert queue[..|queue|] == queue;
      pendingOrder := pendingOrder - {parent};
      return true;
    }
  }
}
