/** Subsurface trees: what is drawn, and what a pointer hits.

    A surface's logical size is given (none without presentable content), its input region is the predicate
    `accepts` on surface-local points. The subsurface relation is a tree.
 */
module SurfaceTree {
  import opened Seqs

  datatype Size = Size(w: real, h: real)

  /** `x` and `y` are relative to the parent; children run bottom to top. `alive` is false where the record
      is missing or its resource destroyed. */
  datatype Surface = Surface(id: int, x: real, y: real, size: Option<Size>,
                             hasContent: bool, alive: bool, children: seq<Surface>)

  datatype Box = Box(x: real, y: real, w: real, h: real)

  datatype Hit = Hit(id: int, box: Box)

  datatype Point = Point(x: real, y: real)

  type Regions = (int, Point) -> bool

  predicate Contains(b: Box, p: Point) {
    b.x <= p.x < b.x + b.w && b.y <= p.y < b.y + b.h
  }

  // ----- Drawing -----

  /** A surface in the draw stack, where the compositor places it. `shadowed` marks the descendants of a
      surface that has content but no size; `margin` is the root's geometry offset. */
  datatype Layer = Layer(id: int, x: real, y: real, size: Option<Size>, shadowed: bool, margin: Point)

  const NOWHERE := Point(0.0, 0.0)

  predicate Drawable(s: Surface) { s.alive && s.hasContent }

  /** The subtrees of the first `n` children, bottom to top. */
  function Layers(parent: Surface, n: nat, px: real, py: real, shadowed: bool): seq<Layer>
    requires n <= |parent.children|
    decreases parent, n
  {
    if n == 0 then []
    else Layers(parent, n - 1, px, py, shadowed) + Subtree(parent.children[n - 1], px, py, shadowed)
  }

  /** A child of a surface at `px`, `py`, with its own children above it. */
  function Subtree(c: Surface, px: real, py: real, shadowed: bool): seq<Layer>
    decreases c, |c.children| + 1
  {
    if !Drawable(c) then []
    else
      [Layer(c.id, px + c.x, py + c.y, c.size, shadowed, NOWHERE)]
      + Layers(c, |c.children|, px + c.x, py + c.y, shadowed || c.size.None?)
  }

  function Ids(layers: seq<Layer>): seq<int> {
    seq(|layers|, i requires 0 <= i < |layers| => layers[i].id)
  }

  /** The ids of the first `n` subtrees, bottom to top. */
  function DrawIds(parent: Surface, n: nat): seq<int>
    requires n <= |parent.children|
    decreases parent, n
  {
    if n == 0 then []
    else
      var c := parent.children[n - 1];
      DrawIds(parent, n - 1) + if Drawable(c) then [c.id] + DrawIds(c, |c.children|) else []
  }

  /** `emitSubtreeStack`. */
  method EmitSubtreeStack(parent: Surface, stack: seq<int>) returns (r: seq<int>)
    ensures r == stack + DrawIds(parent, |parent.children|)
    decreases parent
  {
    r := stack;
    for i := 0 to |parent.children|
      invariant r == stack + DrawIds(parent, i)
    {
      var c := parent.children[i];
      if Drawable(c) {
        r := EmitSubtreeStack(c, r + [c.id]);
      }
    }
  }

  lemma IdsConcat(a: seq<Layer>, b: seq<Layer>)
    ensures Ids(a + b) == Ids(a) + Ids(b)
  {
  }

  /** The emitted stack is the stack of layers, wherever the tree is placed. */
  lemma {:induction false} EmittedAreTheLayers(parent: Surface, n: nat, px: real, py: real, shadowed: bool)
    requires n <= |parent.children|
    ensures Ids(Layers(parent, n, px, py, shadowed)) == DrawIds(parent, n)
    decreases parent, n
  {
    if n > 0 {
      var c := parent.children[n - 1];
      EmittedAreTheLayers(parent, n - 1, px, py, shadowed);
      IdsConcat(Layers(parent, n - 1, px, py, shadowed), Subtree(c, px, py, shadowed));
      if Drawable(c) {
        var own := Layers(c, |c.children|, px + c.x, py + c.y, shadowed || c.size.None?);
        EmittedAreTheLayers(c, |c.children|, px + c.x, py + c.y, shadowed || c.size.None?);
        IdsConcat([Layer(c.id, px + c.x, py + c.y, c.size, shadowed, NOWHERE)], own);
      }
    }
  }

  // ----- Hit testing -----

  /** `hitTestSubsurfaces` on the first `n` children, from the top. */
  function HitChildren(parent: Surface, n: nat, px: real, py: real, p: Point, accepts: Regions): Option<Hit>
    requires n <= |parent.children|
    decreases parent, n
  {
    if n == 0 then None
    else
      var hit := HitChild(parent.children[n - 1], px, py, p, accepts);
      if hit.Some? then hit else HitChildren(parent, n - 1, px, py, p, accepts)
  }

  /** One turn of its loop: deeper descendants first, then the child. */
  function HitChild(c: Surface, px: real, py: real, p: Point, accepts: Regions): Option<Hit>
    decreases c, |c.children| + 1
  {
    if !c.alive || !c.hasContent || c.size.None? then None
    else
      var cx, cy := px + c.x, py + c.y;
      var deeper := HitChildren(c, |c.children|, cx, cy, p, accepts);
      var box := Box(cx, cy, c.size.value.w, c.size.value.h);
      if deeper.Some? then deeper
      else if !Contains(box, p) then None
      else if accepts(c.id, Point(p.x - cx, p.y - cy)) then Some(Hit(c.id, box))
      else None
  }

  /** `hitTestSurfaceTree`. The region of a root with a declared window geometry starts at that offset. */
  function HitTree(root: Surface, box: Box, geometry: Option<Point>, p: Point, accepts: Regions): Option<Hit> {
    if !root.alive then None
    else
      var hit := HitChildren(root, |root.children|, box.x, box.y, p, accepts);
      if hit.Some? then hit
      else if !Contains(box, p) then None
      else
        var g := if geometry.Some? then geometry.value else NOWHERE;
        if accepts(root.id, Point(p.x - box.x + g.x, p.y - box.y + g.y)) then Some(Hit(root.id, box)) else None
  }

  // ----- Clicks land on what is drawn -----

  /** The layer is under the point and takes it. */
  predicate Takes(l: Layer, p: Point, accepts: Regions) {
    && l.size.Some?
    && Contains(Box(l.x, l.y, l.size.value.w, l.size.value.h), p)
    && accepts(l.id, Point(p.x - l.x + l.margin.x, p.y - l.y + l.margin.y))
  }

  function HitOf(l: Layer): Hit
    requires l.size.Some?
  {
    Hit(l.id, Box(l.x, l.y, l.size.value.w, l.size.value.h))
  }

  /** The topmost layer that takes the point, among all of them or among the unshadowed ones. */
  function Topmost(layers: seq<Layer>, all: bool, p: Point, accepts: Regions): Option<Hit> {
    if layers == [] then None
    else
      var l := Last(layers);
      if (all || !l.shadowed) && Takes(l, p, accepts) then Some(HitOf(l))
      else Topmost(Init(layers), all, p, accepts)
  }

  /** It is that layer, and none if none takes the point. */
  lemma {:induction false} TopmostIs(layers: seq<Layer>, all: bool, p: Point, accepts: Regions)
    ensures var hit := Topmost(layers, all, p, accepts);
            && (hit.None? ==> forall i :: 0 <= i < |layers| && (all || !layers[i].shadowed) ==> !Takes(layers[i], p, accepts))
            && (hit.Some? ==>
                  exists i :: 0 <= i < |layers| && (all || !layers[i].shadowed)
                    && Takes(layers[i], p, accepts) && hit.value == HitOf(layers[i])
                    && forall j :: i < j < |layers| && (all || !layers[j].shadowed) ==> !Takes(layers[j], p, accepts))
  {
    if layers != [] { TopmostIs(Init(layers), all, p, accepts); }
  }

  function Or(a: Option<Hit>, b: Option<Hit>): Option<Hit> { if a.Some? then a else b }

  lemma {:induction false} TopmostConcat(a: seq<Layer>, b: seq<Layer>, all: bool, p: Point, accepts: Regions)
    ensures Topmost(a + b, all, p, accepts) == Or(Topmost(b, all, p, accepts), Topmost(a, all, p, accepts))
  {
    if b == [] {
      assert a + b == a;
    } else {
      TopmostConcat(a, Init(b), all, p, accepts);
      Extend(a, b);
    }
  }

  /** Under a surface without a size everything is shadowed. */
  lemma {:induction false} ShadowedLayers(parent: Surface, n: nat, px: real, py: real)
    requires n <= |parent.children|
    ensures forall l :: l in Layers(parent, n, px, py, true) ==> l.shadowed
    decreases parent, n
  {
    if n > 0 {
      var c := parent.children[n - 1];
      ShadowedLayers(parent, n - 1, px, py);
      ShadowedLayers(c, |c.children|, px + c.x, py + c.y);
    }
  }

  lemma {:induction false} AllShadowed(layers: seq<Layer>, p: Point, accepts: Regions)
    requires forall l :: l in layers ==> l.shadowed
    ensures Topmost(layers, false, p, accepts) == None
  {
    if layers != [] {
      assert Last(layers) in layers;
      AllShadowed(Init(layers), p, accepts);
    }
  }

  /** The search from the top finds the last unshadowed layer of the draw order that takes the point. */
  lemma {:induction false} HitChildrenTopmost(parent: Surface, n: nat, px: real, py: real, p: Point, accepts: Regions)
    requires n <= |parent.children|
    ensures HitChildren(parent, n, px, py, p, accepts)
            == Topmost(Layers(parent, n, px, py, false), false, p, accepts)
    decreases parent, n
  {
    if n > 0 {
      var c := parent.children[n - 1];
      HitChildrenTopmost(parent, n - 1, px, py, p, accepts);
      HitChildTopmost(c, px, py, p, accepts);
      TopmostConcat(Layers(parent, n - 1, px, py, false), Subtree(c, px, py, false), false, p, accepts);
    }
  }

  lemma {:induction false} HitChildTopmost(c: Surface, px: real, py: real, p: Point, accepts: Regions)
    ensures HitChild(c, px, py, p, accepts) == Topmost(Subtree(c, px, py, false), false, p, accepts)
    decreases c, |c.children| + 1
  {
    if Drawable(c) {
      var cx, cy := px + c.x, py + c.y;
      var self := Layer(c.id, cx, cy, c.size, false, NOWHERE);
      var own := Layers(c, |c.children|, cx, cy, c.size.None?);
      if c.size.None? {
        ShadowedLayers(c, |c.children|, cx, cy);
        AllShadowed(own, p, accepts);
      } else {
        TakesUnmargined(self, p, accepts);
        HitChildrenTopmost(c, |c.children|, cx, cy, p, accepts);
      }
      SelfAndOwn(self, own, p, accepts);
    }
  }

  lemma TakesUnmargined(l: Layer, p: Point, accepts: Regions)
    requires l.margin == NOWHERE && l.size.Some?
    ensures Takes(l, p, accepts) <==> Contains(HitOf(l).box, p) && accepts(l.id, Point(p.x - l.x, p.y - l.y))
  {
    assert Point(p.x - l.x + l.margin.x, p.y - l.y + l.margin.y) == Point(p.x - l.x, p.y - l.y);
  }

  lemma SelfAndOwn(self: Layer, own: seq<Layer>, p: Point, accepts: Regions)
    requires !self.shadowed
    ensures Topmost([self] + own, false, p, accepts)
            == Or(Topmost(own, false, p, accepts), if Takes(self, p, accepts) then Some(HitOf(self)) else None)
  {
    TopmostConcat([self], own, false, p, accepts);
    Extend([], [self]);
    assert [] + [self] == [self];
  }

  /** The whole draw stack of a tree: the root, then its subtree. */
  function TreeLayers(root: Surface, box: Box, geometry: Option<Point>): seq<Layer> {
    [Layer(root.id, box.x, box.y, Some(Size(box.w, box.h)), false, if geometry.Some? then geometry.value else NOWHERE)]
    + Layers(root, |root.children|, box.x, box.y, false)
  }

  /** A hit is the topmost drawn surface that takes the point and is not shadowed. */
  lemma HitIsTopmost(root: Surface, box: Box, geometry: Option<Point>, p: Point, accepts: Regions)
    requires root.alive
    ensures HitTree(root, box, geometry, p, accepts)
            == Topmost(TreeLayers(root, box, geometry), false, p, accepts)
  {
    var layers := Layers(root, |root.children|, box.x, box.y, false);
    var self := Layer(root.id, box.x, box.y, Some(Size(box.w, box.h)), false,
                      if geometry.Some? then geometry.value else NOWHERE);
    HitChildrenTopmost(root, |root.children|, box.x, box.y, p, accepts);
    SelfAndOwn(self, layers, p, accepts);
    assert HitOf(self) == Hit(root.id, box);
  }

  predicate Clickable(l: Layer) { l.size.Some? && l.size.value.w > 0.0 && l.size.value.h > 0.0 }

  /** No surface with room to be clicked on is shadowed. */
  ghost predicate Unshadowed(layers: seq<Layer>) {
    forall l :: l in layers && l.shadowed ==> !Clickable(l)
  }

  lemma {:induction false} ShadowsTakeNothing(layers: seq<Layer>, p: Point, accepts: Regions)
    requires Unshadowed(layers)
    ensures Topmost(layers, false, p, accepts) == Topmost(layers, true, p, accepts)
  {
    if layers != [] {
      assert Last(layers) in layers;
      ShadowsTakeNothing(Init(layers), p, accepts);
    }
  }

  /** Clicks land on what is drawn, at every point and for every input region, where nothing clickable is
      shadowed. */
  lemma ClicksLandOnWhatIsDrawn(root: Surface, box: Box, geometry: Option<Point>, p: Point, accepts: Regions)
    requires root.alive && Unshadowed(TreeLayers(root, box, geometry))
    ensures HitTree(root, box, geometry, p, accepts) == Topmost(TreeLayers(root, box, geometry), true, p, accepts)
  {
    HitIsTopmost(root, box, geometry, p, accepts);
    ShadowsTakeNothing(TreeLayers(root, box, geometry), p, accepts);
  }

  function Only(id: int): Regions { (i: int, q: Point) => i == id }

  /** And only there: a click on a shadowed clickable surface is missed, though it is drawn under the point. */
  lemma ShadowedClickMissed(root: Surface, box: Box, geometry: Option<Point>, l: Layer)
    requires root.alive && Distinct(Ids(TreeLayers(root, box, geometry)))
    requires l in TreeLayers(root, box, geometry) && l.shadowed && Clickable(l)
    ensures var p := Point(l.x, l.y);
            && HitTree(root, box, geometry, p, Only(l.id)) == None
            && Topmost(TreeLayers(root, box, geometry), true, p, Only(l.id)).Some?
  {
    var layers, p := TreeLayers(root, box, geometry), Point(l.x, l.y);
    var i :| 0 <= i < |layers| && layers[i] == l;
    HitIsTopmost(root, box, geometry, p, Only(l.id));
    TopmostIs(layers, false, p, Only(l.id));
    TopmostIs(layers, true, p, Only(l.id));
    forall j | 0 <= j < |layers| && !layers[j].shadowed ensures !Takes(layers[j], p, Only(l.id)) {
      assert Ids(layers)[j] == layers[j].id && Ids(layers)[i] == l.id;
    }
    assert Takes(layers[i], p, Only(l.id));
  }
}
