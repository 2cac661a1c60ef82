/** Sequence vocabulary shared by the models: JavaScript's indexOf, splice and sort, on values. */
module Seqs {

  datatype Option<+T> = None | Some(value: T)

  ghost predicate Distinct<T>(s: seq<T>) {
    forall i, j :: 0 <= i < j < |s| ==> s[i] != s[j]
  }

  ghost function Elements<T>(s: seq<T>): set<T> {
    set x | x in s
  }

  /** The first position of `x` from `i` on, or -1. */
  function IndexFrom<T(==)>(s: seq<T>, x: T, i: nat): (r: int)
    requires i <= |s|
    ensures -1 <= r < |s|
    ensures r == -1 ==> x !in s[i..]
    ensures r >= 0 ==> i <= r && s[r] == x
    decreases |s| - i
  {
    if i == |s| then -1 else if s[i] == x then i else IndexFrom(s, x, i + 1)
  }

  /** `indexOf`: the first position of `x`, or -1. */
  function IndexOf<T(==)>(s: seq<T>, x: T): (i: int)
    ensures -1 <= i < |s|
    ensures i == -1 <==> x !in s
    ensures i >= 0 ==> s[i] == x
  {
    assert s[0..] == s;
    IndexFrom(s, x, 0)
  }

  lemma {:induction false} FirstFrom<T>(s: seq<T>, x: T, i: nat, j: nat)
    requires i <= j < |s| && s[j] == x
    ensures i <= IndexFrom(s, x, i) <= j
    decreases j - i
  {
    if s[i] != x { FirstFrom(s, x, i + 1, j); }
  }

  /** `splice(i, 1)`. */
  function RemoveAt<T>(s: seq<T>, i: nat): (r: seq<T>)
    requires i < |s|
  {
    s[..i] + s[i + 1..]
  }

  /** `splice(i, 0, x)`: an insertion index past the end appends. */
  function InsertAt<T>(s: seq<T>, i: nat, x: T): (r: seq<T>) {
    if i >= |s| then s + [x] else s[..i] + [x] + s[i..]
  }

  /** `splice(indexOf(x), 1)` guarded by presence. */
  function Remove<T(==)>(s: seq<T>, x: T): (r: seq<T>) {
    if x in s then RemoveAt(s, IndexOf(s, x)) else s
  }

  lemma RemoveFacts<T>(s: seq<T>, x: T)
    requires Distinct(s)
    ensures Distinct(Remove(s, x))
    ensures forall y :: y in Remove(s, x) <==> y in s && y != x
    ensures |Remove(s, x)| == if x in s then |s| - 1 else |s|
  {
    if x in s { RemoveAtFacts(s, IndexOf(s, x)); }
  }

  lemma RemoveAtFacts<T>(s: seq<T>, i: nat)
    requires Distinct(s) && i < |s|
    ensures Distinct(RemoveAt(s, i))
    ensures forall y :: y in RemoveAt(s, i) <==> y in s && y != s[i]
  {
    var r := RemoveAt(s, i);
    forall y ensures y in r <==> y in s && y != s[i] {
      if y in s && y != s[i] {
        var j :| 0 <= j < |s| && s[j] == y;
        assert r[if j < i then j else j - 1] == y;
      }
    }
  }

  lemma RemoveFromFront<T>(a: seq<T>, b: seq<T>, x: T)
    requires x in a
    ensures Remove(a + b, x) == Remove(a, x) + b
  {
    IndexOfPrefix(a, b, x);
    RemoveAtFront(a, b, IndexOf(a, x));
  }

  lemma RemoveAtFront<T>(a: seq<T>, b: seq<T>, i: nat)
    requires i < |a|
    ensures RemoveAt(a + b, i) == RemoveAt(a, i) + b
  {
    assert (a + b)[..i] == a[..i];
    assert (a + b)[i + 1..] == a[i + 1..] + b;
  }

  lemma IndexOfPrefix<T>(s: seq<T>, t: seq<T>, x: T)
    requires x in s
    ensures IndexOf(s + t, x) == IndexOf(s, x)
  {
    var i, j := IndexOf(s, x), IndexOf(s + t, x);
    FirstFrom(s + t, x, 0, i);
    FirstFrom(s, x, 0, j);
  }

  lemma IndexOfDistinct<T>(s: seq<T>, i: nat)
    requires Distinct(s) && i < |s|
    ensures IndexOf(s, s[i]) == i
  {
  }

  lemma DistinctAppend<T>(s: seq<T>, x: T)
    requires Distinct(s) && x !in s
    ensures Distinct(s + [x])
    ensures forall y :: y in s + [x] <==> y in s || y == x
  {
  }

  lemma DistinctConcat<T>(a: seq<T>, b: seq<T>)
    requires Distinct(a) && Distinct(b) && forall x :: x in a ==> x !in b
    ensures Distinct(a + b)
    ensures forall x :: x in a + b <==> x in a || x in b
  {
    forall i, j | 0 <= i < j < |a + b| ensures (a + b)[i] != (a + b)[j] {
      if i < |a| && j >= |a| {
        assert a[i] in a && b[j - |a|] in b;
      }
    }
  }

  /** Ascending insertion, the step of `sort((a, b) => a - b)`. */
  function Insert(s: seq<int>, x: int): (r: seq<int>)
    ensures multiset(r) == multiset(s) + multiset{x}
  {
    if s == [] then [x]
    else if x <= s[0] then [x] + s
    else assert s == [s[0]] + s[1..]; [s[0]] + Insert(s[1..], x)
  }

  function Sorted(s: seq<int>): (r: seq<int>)
    ensures multiset(r) == multiset(s)
  {
    if s == [] then []
    else assert s == [s[0]] + s[1..]; Insert(Sorted(s[1..]), s[0])
  }

  ghost predicate Ascending(s: seq<int>) {
    forall i, j :: 0 <= i < j < |s| ==> s[i] <= s[j]
  }

  lemma {:induction false} InsertAscending(s: seq<int>, x: int)
    requires Ascending(s)
    ensures Ascending(Insert(s, x))
  {
    if s != [] && x > s[0] {
      InsertAscending(s[1..], x);
      var r := Insert(s[1..], x);
      forall i | 0 <= i < |r| ensures s[0] <= r[i] {
        assert r[i] in multiset(r);
      }
    }
  }

  lemma {:induction false} SortedAscending(s: seq<int>)
    ensures Ascending(Sorted(s))
  {
    if s != [] {
      SortedAscending(s[1..]);
      InsertAscending(Sorted(s[1..]), s[0]);
    }
  }

  lemma SortedElements(s: seq<int>)
    ensures forall x :: x in Sorted(s) <==> x in s
    ensures |Sorted(s)| == |s|
  {
    forall x ensures x in Sorted(s) <==> x in s {
      assert x in multiset(Sorted(s)) <==> x in multiset(s);
    }
    assert |multiset(Sorted(s))| == |multiset(s)|;
  }

  // ----- Filtering and reordering -----

  function Init<T>(s: seq<T>): seq<T>
    requires s != []
  {
    s[..|s| - 1]
  }

  function Last<T>(s: seq<T>): T
    requires s != []
  {
    s[|s| - 1]
  }

  function Filter<T(!new)>(s: seq<T>, p: T -> bool): (r: seq<T>)
    ensures forall x :: x in r <==> x in s && p(x)
    ensures |r| <= |s|
  {
    if s == [] then []
    else
      assert s == Init(s) + [Last(s)];
      Filter(Init(s), p) + if p(Last(s)) then [Last(s)] else []
  }

  lemma {:induction false} FilterDistinct<T(!new)>(s: seq<T>, p: T -> bool)
    requires Distinct(s)
    ensures Distinct(Filter(s, p))
  {
    if s != [] {
      FilterDistinct(Init(s), p);
      if Last(s) in Init(s) { assert false; }
    }
  }

  /** Two distinct listings of the same elements are permutations of each other. */
  lemma {:induction false} SameElements<T(!new)>(a: seq<T>, b: seq<T>)
    requires Distinct(a) && Distinct(b) && forall x :: x in a <==> x in b
    ensures multiset(a) == multiset(b)
  {
    forall x ensures multiset(a)[x] == multiset(b)[x] {
      DistinctOnce(a, x);
      DistinctOnce(b, x);
    }
  }

  lemma {:induction false} DistinctOnce<T(!new)>(s: seq<T>, x: T)
    requires Distinct(s)
    ensures multiset(s)[x] == if x in s then 1 else 0
  {
    if s != [] {
      assert s == Init(s) + [Last(s)];
      DistinctOnce(Init(s), x);
      if Last(s) in Init(s) { assert false; }
    }
  }

  lemma DistinctEnds<T(!new)>(s: seq<T>, x: T)
    ensures Distinct(s + [x]) <==> Distinct(s) && x !in s
  {
    if Distinct(s + [x]) {
      forall i, j | 0 <= i < j < |s| ensures s[i] != s[j] { assert (s + [x])[i] != (s + [x])[j]; }
      forall i | 0 <= i < |s| ensures s[i] != x { assert (s + [x])[i] != (s + [x])[|s|]; }
    }
  }

  lemma Extend<T>(a: seq<T>, b: seq<T>)
    requires b != []
    ensures Init(a + b) == a + Init(b) && Last(a + b) == Last(b)
  {
  }

  lemma {:induction false} FilterFilter<T(!new)>(s: seq<T>, p: T -> bool, q: T -> bool)
    requires forall x :: x in s && q(x) ==> p(x)
    ensures Filter(Filter(s, p), q) == Filter(s, q)
  {
    if s != [] {
      assert s == Init(s) + [Last(s)];
      FilterFilter(Init(s), p, q);
      var f := Filter(Init(s), p);
      if p(Last(s)) {
        assert Filter(s, p) == f + [Last(s)];
        assert Init(f + [Last(s)]) == f;
      } else {
        assert Filter(s, p) == f;
      }
    }
  }

  lemma {:induction false} FilterAll<T(!new)>(s: seq<T>, p: T -> bool)
    requires forall x :: x in s ==> p(x)
    ensures Filter(s, p) == s
  {
    if s != [] {
      assert s == Init(s) + [Last(s)];
      FilterAll(Init(s), p);
    }
  }

  lemma {:induction false} FilterConcat<T(!new)>(a: seq<T>, b: seq<T>, p: T -> bool)
    ensures Filter(a + b, p) == Filter(a, p) + Filter(b, p)
  {
    if b == [] {
      assert a + b == a;
    } else {
      FilterConcat(a, Init(b), p);
      Extend(a, b);
    }
  }

  lemma DropLast<T(!new)>(s: seq<T>, x: T, p: T -> bool)
    requires !p(x)
    ensures Filter(s + [x], p) == Filter(s, p)
  {
    Extend(s, [x]);
    assert Filter(s, p) + [] == Filter(s, p);
  }

  lemma FilterWithout<T(!new)>(a: seq<T>, x: T, b: seq<T>, p: T -> bool)
    requires !p(x)
    ensures Filter(a + [x] + b, p) == Filter(a + b, p)
  {
    FilterConcat(a + [x], b, p);
    FilterConcat(a, b, p);
    DropLast(a, x, p);
  }

  lemma SplitAt<T>(s: seq<T>, i: nat)
    requires i < |s|
    ensures s == s[..i] + [s[i]] + s[i + 1..] && RemoveAt(s, i) == s[..i] + s[i + 1..]
  {
  }

  lemma FilterRemoved<T(!new)>(s: seq<T>, i: nat, p: T -> bool)
    requires i < |s| && !p(s[i])
    ensures Filter(s, p) == Filter(RemoveAt(s, i), p)
  {
    SplitAt(s, i);
    FilterWithout(s[..i], s[i], s[i + 1..], p);
  }

  lemma FilterDrops<T(!new)>(s: seq<T>, i: nat, p: T -> bool)
    requires i < |s| && !p(s[i]) && forall j :: 0 <= j < |s| && j != i ==> p(s[j])
    ensures Filter(s, p) == RemoveAt(s, i)
  {
    FilterRemoved(s, i, p);
    AllOthers(s, i, p);
    FilterAll(RemoveAt(s, i), p);
  }

  lemma AllOthers<T(!new)>(s: seq<T>, i: nat, p: T -> bool)
    requires i < |s| && forall j :: 0 <= j < |s| && j != i ==> p(s[j])
    ensures forall x :: x in RemoveAt(s, i) ==> p(x)
  {
    var r := RemoveAt(s, i);
    forall x | x in r ensures p(x) {
      var j :| 0 <= j < |r| && r[j] == x;
      assert x == s[if j < i then j else j + 1];
    }
  }

  /** Moving an element to the front leaves the order of the others. */
  lemma MovedFront<T(!new)>(s: seq<T>, x: T, p: T -> bool)
    requires !p(x)
    ensures Filter([x] + Remove(s, x), p) == Filter(s, p)
  {
    var r := Remove(s, x);
    FilterWithout([], x, r, p);
    assert [] + [x] + r == [x] + r && [] + r == r;
    if x in s { FilterRemoved(s, IndexOf(s, x), p); }
  }
}
