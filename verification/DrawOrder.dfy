/** Where in the stack and where on the output each surface of a tree is drawn, said of its path from the root. */
module DrawOrder {
  import opened Seqs
  import opened SurfaceTree

  /** The surface at the end of the path of child positions, if everything along it is drawn. */
  function Node(s: Surface, path: seq<nat>): Option<Surface> {
    if path == [] then Some(s)
    else if path[0] < |s.children| && Drawable(s.children[path[0]]) then Node(s.children[path[0]], path[1..])
    else None
  }

  /** The offsets along the path, added up. */
  function SumX(s: Surface, path: seq<nat>): real
    requires Node(s, path).Some?
  {
    if path == [] then 0.0 else s.children[path[0]].x + SumX(s.children[path[0]], path[1..])
  }

  function SumY(s: Surface, path: seq<nat>): real
    requires Node(s, path).Some?
  {
    if path == [] then 0.0 else s.children[path[0]].y + SumY(s.children[path[0]], path[1..])
  }

  /** Some surface before the end of the path has no size. */
  predicate Hidden(s: Surface, path: seq<nat>)
    requires Node(s, path).Some?
  {
    |path| > 1 && (s.children[path[0]].size.None? || Hidden(s.children[path[0]], path[1..]))
  }

  /** The layer of the surface at the end of the path. */
  function LayerAt(s: Surface, path: seq<nat>, px: real, py: real, shadowed: bool): Layer
    requires Node(s, path).Some?
  {
    var c := Node(s, path).value;
    Layer(c.id, px + SumX(s, path), py + SumY(s, path), c.size, shadowed || Hidden(s, path), NOWHERE)
  }

  /** An ancestor comes before its descendants, and a lower child with all of its own before a higher one. */
  predicate Before(a: seq<nat>, b: seq<nat>) {
    b != [] && (a == [] || a[0] < b[0] || (a[0] == b[0] && Before(a[1..], b[1..])))
  }

  lemma LayerBelow(s: Surface, path: seq<nat>, px: real, py: real, shadowed: bool)
    requires |path| > 1 && Node(s, path).Some?
    ensures var c := s.children[path[0]];
            LayerAt(s, path, px, py, shadowed) == LayerAt(c, path[1..], px + c.x, py + c.y, shadowed || c.size.None?)
  {
  }

  lemma LayerOfChild(s: Surface, path: seq<nat>, px: real, py: real, shadowed: bool)
    requires |path| == 1 && Node(s, path).Some?
    ensures var c := s.children[path[0]];
            LayerAt(s, path, px, py, shadowed) == Layer(c.id, px + c.x, py + c.y, c.size, shadowed, NOWHERE)
  {
    var c, rest := s.children[path[0]], path[1..];
    assert rest == [];
    assert Node(c, rest) == Some(c) && SumX(c, rest) == 0.0 && SumY(c, rest) == 0.0;
  }

  // ----- Every path is drawn -----

  lemma {:induction false} Drawn(s: Surface, n: nat, px: real, py: real, shadowed: bool, path: seq<nat>) returns (i: nat)
    requires n <= |s.children| && path != [] && path[0] < n && Node(s, path).Some?
    ensures var layers := Layers(s, n, px, py, shadowed);
            i < |layers| && layers[i] == LayerAt(s, path, px, py, shadowed)
    decreases s, n
  {
    if path[0] < n - 1 {
      i := Drawn(s, n - 1, px, py, shadowed, path);
    } else {
      var below := Layers(s, n - 1, px, py, shadowed);
      var k := DrawnIn(s, px, py, shadowed, path);
      i := |below| + k;
    }
  }

  lemma {:induction false} DrawnIn(s: Surface, px: real, py: real, shadowed: bool, path: seq<nat>) returns (i: nat)
    requires path != [] && path[0] < |s.children| && Node(s, path).Some?
    ensures var layers := Subtree(s.children[path[0]], px, py, shadowed);
            i < |layers| && layers[i] == LayerAt(s, path, px, py, shadowed)
    ensures |path| == 1 ==> i == 0
    decreases s, 0
  {
    var c := s.children[path[0]];
    if |path| == 1 {
      LayerOfChild(s, path, px, py, shadowed);
      i := 0;
    } else {
      LayerBelow(s, path, px, py, shadowed);
      var k := Drawn(c, |c.children|, px + c.x, py + c.y, shadowed || c.size.None?, path[1..]);
      i := k + 1;
    }
  }

  /** The stack has every drawn surface at the sum of the offsets on its path, in the order of the paths. */
  lemma {:induction false} DrawnInOrder(s: Surface, n: nat, px: real, py: real, shadowed: bool, a: seq<nat>, b: seq<nat>)
    returns (i: nat, j: nat)
    requires n <= |s.children| && a != [] && b != [] && a[0] < n && b[0] < n && Node(s, a).Some? && Node(s, b).Some?
    requires Before(a, b)
    ensures var layers := Layers(s, n, px, py, shadowed);
            && i < j < |layers|
            && layers[i] == LayerAt(s, a, px, py, shadowed) && layers[j] == LayerAt(s, b, px, py, shadowed)
    decreases s, n
  {
    var below := Layers(s, n - 1, px, py, shadowed);
    if b[0] < n - 1 {
      i, j := DrawnInOrder(s, n - 1, px, py, shadowed, a, b);
    } else if a[0] < n - 1 {
      i := Drawn(s, n - 1, px, py, shadowed, a);
      var k := DrawnIn(s, px, py, shadowed, b);
      j := |below| + k;
    } else {
      var k, l := InOrderIn(s, px, py, shadowed, a, b);
      i, j := |below| + k, |below| + l;
    }
  }

  lemma {:induction false} InOrderIn(s: Surface, px: real, py: real, shadowed: bool, a: seq<nat>, b: seq<nat>)
    returns (i: nat, j: nat)
    requires a != [] && b != [] && a[0] == b[0] < |s.children| && Node(s, a).Some? && Node(s, b).Some? && Before(a, b)
    ensures var layers := Subtree(s.children[a[0]], px, py, shadowed);
            && i < j < |layers|
            && layers[i] == LayerAt(s, a, px, py, shadowed) && layers[j] == LayerAt(s, b, px, py, shadowed)
    decreases s, 0
  {
    var c := s.children[a[0]];
    LayerBelow(s, b, px, py, shadowed);
    if |a| == 1 {
      LayerOfChild(s, a, px, py, shadowed);
      var k := Drawn(c, |c.children|, px + c.x, py + c.y, shadowed || c.size.None?, b[1..]);
      i, j := 0, k + 1;
    } else {
      LayerBelow(s, a, px, py, shadowed);
      var k, l := DrawnInOrder(c, |c.children|, px + c.x, py + c.y, shadowed || c.size.None?, a[1..], b[1..]);
      i, j := k + 1, l + 1;
    }
  }

  // ----- Every layer has a path -----

  lemma {:induction false} LayerHasPath(s: Surface, n: nat, px: real, py: real, shadowed: bool, i: nat) returns (path: seq<nat>)
    requires n <= |s.children| && i < |Layers(s, n, px, py, shadowed)|
    ensures path != [] && path[0] < n && Node(s, path).Some?
    ensures Layers(s, n, px, py, shadowed)[i] == LayerAt(s, path, px, py, shadowed)
    decreases s, n
  {
    var below := Layers(s, n - 1, px, py, shadowed);
    if i < |below| {
      path := LayerHasPath(s, n - 1, px, py, shadowed, i);
    } else {
      path := SubtreeHasPath(s, n - 1, px, py, shadowed, i - |below|);
    }
  }

  lemma {:induction false} SubtreeHasPath(s: Surface, k: nat, px: real, py: real, shadowed: bool, i: nat) returns (path: seq<nat>)
    requires k < |s.children| && i < |Subtree(s.children[k], px, py, shadowed)|
    ensures path != [] && path[0] == k && Node(s, path).Some?
    ensures Subtree(s.children[k], px, py, shadowed)[i] == LayerAt(s, path, px, py, shadowed)
    decreases s, 0
  {
    var c := s.children[k];
    if i == 0 {
      path := [k];
      assert path[1..] == [];
      LayerOfChild(s, path, px, py, shadowed);
    } else {
      var rest := LayerHasPath(c, |c.children|, px + c.x, py + c.y, shadowed || c.size.None?, i - 1);
      path := [k] + rest;
      assert path[1..] == rest;
      LayerBelow(s, path, px, py, shadowed);
    }
  }

  // ----- Who takes a point -----

  /** A layer takes a point that lies on it, its left and top edges included and its right and bottom ones not, if its
      input region takes that point relative to it. */
  lemma TakesIs(l: Layer, p: Point, accepts: Regions)
    ensures Takes(l, p, accepts)
            <==> l.size.Some? && l.x <= p.x && p.x < l.x + l.size.value.w && l.y <= p.y && p.y < l.y + l.size.value.h
                 && accepts(l.id, Point(p.x - l.x + l.margin.x, p.y - l.y + l.margin.y))
  {
  }

  /** Below everything else lies the root, as large as its rectangle, its region shifted by its window geometry. */
  lemma RootTakes(root: Surface, box: Box, geometry: Option<Point>, p: Point, accepts: Regions)
    requires root.alive && root.children == []
    ensures HitTree(root, box, geometry, p, accepts)
            == if box.x <= p.x < box.x + box.w && box.y <= p.y < box.y + box.h
                  && accepts(root.id, if geometry.None? then Point(p.x - box.x, p.y - box.y)
                                      else Point(p.x - box.x + geometry.value.x, p.y - box.y + geometry.value.y))
               then Some(Hit(root.id, box)) else None
  {
    assert Point(p.x - box.x + 0.0, p.y - box.y + 0.0) == Point(p.x - box.x, p.y - box.y);
  }
}
