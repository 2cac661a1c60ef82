/** The xdg_positioner constraint solver. Positions may fall on half pixels until they are rounded. */
module Popups {
  import opened Numbers

  datatype AnchorRect = AnchorRect(x: int, y: int, width: int, height: int)

  datatype Positioner = Positioner(
    width: int, height: int, anchorRect: AnchorRect, anchor: int, gravity: int,
    slideX: bool, slideY: bool, flipX: bool, flipY: bool, resizeX: bool, resizeY: bool,
    offsetX: int, offsetY: int)

  datatype Popup = Popup(x: int, y: int, width: real, height: real)

  // xdg_positioner.anchor and .gravity
  const TOP := 1
  const BOTTOM := 2
  const LEFT := 3
  const RIGHT := 4
  const TOP_LEFT := 5
  const BOTTOM_LEFT := 6
  const TOP_RIGHT := 7
  const BOTTOM_RIGHT := 8

  function HComp(e: int): int {
    if e == LEFT || e == TOP_LEFT || e == BOTTOM_LEFT then -1
    else if e == RIGHT || e == TOP_RIGHT || e == BOTTOM_RIGHT then 1
    else 0
  }

  function VComp(e: int): int {
    if e == TOP || e == TOP_LEFT || e == TOP_RIGHT then -1
    else if e == BOTTOM || e == BOTTOM_LEFT || e == BOTTOM_RIGHT then 1
    else 0
  }

  function FlipH(e: int): int {
    if e == LEFT then RIGHT else if e == RIGHT then LEFT
    else if e == TOP_LEFT then TOP_RIGHT else if e == TOP_RIGHT then TOP_LEFT
    else if e == BOTTOM_LEFT then BOTTOM_RIGHT else if e == BOTTOM_RIGHT then BOTTOM_LEFT
    else e
  }

  function FlipV(e: int): int {
    if e == TOP then BOTTOM else if e == BOTTOM then TOP
    else if e == TOP_LEFT then BOTTOM_LEFT else if e == BOTTOM_LEFT then TOP_LEFT
    else if e == TOP_RIGHT then BOTTOM_RIGHT else if e == BOTTOM_RIGHT then TOP_RIGHT
    else e
  }

  /** The anchor point along one axis, and the popup's near edge there. */
  function Along(comp: int, at: int, size: int): real {
    at as real + if comp < 0 then 0.0 else if comp > 0 then size as real else size as real / 2.0
  }

  function Placed(comp: int, at: real, size: int): real {
    if comp < 0 then at - size as real else if comp > 0 then at else at - size as real / 2.0
  }

  function RawX(p: Positioner, anchor: int, gravity: int): real {
    Placed(HComp(gravity), Along(HComp(anchor), p.anchorRect.x, p.anchorRect.width), p.width) + p.offsetX as real
  }

  function RawY(p: Positioner, anchor: int, gravity: int): real {
    Placed(VComp(gravity), Along(VComp(anchor), p.anchorRect.y, p.anchorRect.height), p.height) + p.offsetY as real
  }

  // ----- One axis -----

  /** One axis of the problem: the output's span, the popup's size, its place and its mirrored place. */
  datatype Axis = Axis(min: int, max: int, size: int, raw: real, mirrored: real,
                       flip: bool, slide: bool, resize: bool)

  predicate Within(a: Axis, x: real, w: real) { a.min as real <= x && x + w <= a.max as real }

  function Flipped(a: Axis): real {
    if !Within(a, a.raw, a.size as real) && a.flip && Within(a, a.mirrored, a.size as real) then a.mirrored else a.raw
  }

  function Slid(a: Axis, x: real): real {
    if Within(a, x, a.size as real) || !a.slide then x
    else
      var x1 := if x + a.size as real > a.max as real then a.max as real - a.size as real else x;
      if x1 < a.min as real then a.min as real else x1
  }

  /** Flip, else slide, else shrink: the place and the size. */
  function Solved(a: Axis): (real, real) {
    var x0 := Flipped(a);
    var x, w := Slid(a, x0), a.size as real;
    if !Within(a, x0, w) && a.resize && x + w > a.max as real then (x, MaxReal(1.0, a.max as real - x)) else (x, w)
  }

  function XAxis(p: Positioner, parentX: int, outX: int, outW: int): Axis {
    Axis(outX - parentX, outX + outW - parentX, p.width, RawX(p, p.anchor, p.gravity),
         RawX(p, FlipH(p.anchor), FlipH(p.gravity)), p.flipX, p.slideX, p.resizeX)
  }

  function YAxis(p: Positioner, parentY: int, outY: int, outH: int): Axis {
    Axis(outY - parentY, outY + outH - parentY, p.height, RawY(p, p.anchor, p.gravity),
         RawY(p, FlipV(p.anchor), FlipV(p.gravity)), p.flipY, p.slideY, p.resizeY)
  }

  /** The flips commute, so a horizontal flip is invisible to the vertical axis. */
  lemma FlipsCommute(e: int)
    ensures FlipV(FlipH(e)) == FlipH(FlipV(e))
    ensures VComp(FlipH(e)) == VComp(e) && HComp(FlipV(e)) == HComp(e)
    ensures HComp(FlipH(e)) == -HComp(e) && VComp(FlipV(e)) == -VComp(e)
  {
  }

  // ----- What the anchor and the gravity mean -----

  predicate AtTop(e: int) { e == TOP || e == TOP_LEFT || e == TOP_RIGHT }
  predicate AtBottom(e: int) { e == BOTTOM || e == BOTTOM_LEFT || e == BOTTOM_RIGHT }
  predicate AtLeft(e: int) { e == LEFT || e == TOP_LEFT || e == BOTTOM_LEFT }
  predicate AtRight(e: int) { e == RIGHT || e == TOP_RIGHT || e == BOTTOM_RIGHT }

  /** The near edge of the anchor rectangle, its far edge, or its middle. */
  function AnchorLine(at: int, size: int, near: bool, far: bool): real {
    if near then at as real else if far then (at + size) as real else at as real + size as real / 2.0
  }

  /** Gravity to the far side puts the popup's near edge on the line, to the near side its far edge, to neither its
      middle. */
  predicate Hangs(first: real, size: int, line: real, near: bool, far: bool) {
    if far then first == line else if near then first + size as real == line else first + size as real / 2.0 == line
  }

  predicate HangsY(p: Positioner, y: real) {
    Hangs(y, p.height, AnchorLine(p.anchorRect.y, p.anchorRect.height, AtTop(p.anchor), AtBottom(p.anchor)) + p.offsetY as real,
          AtTop(p.gravity), AtBottom(p.gravity))
  }

  predicate HangsX(p: Positioner, x: real) {
    Hangs(x, p.width, AnchorLine(p.anchorRect.x, p.anchorRect.width, AtLeft(p.anchor), AtRight(p.anchor)) + p.offsetX as real,
          AtLeft(p.gravity), AtRight(p.gravity))
  }

  /** The same with the edges exchanged, both the anchor's and the popup's. */
  predicate HangsOppositeY(p: Positioner, y: real) {
    Hangs(y, p.height, AnchorLine(p.anchorRect.y, p.anchorRect.height, AtBottom(p.anchor), AtTop(p.anchor)) + p.offsetY as real,
          AtBottom(p.gravity), AtTop(p.gravity))
  }

  predicate HangsOppositeX(p: Positioner, x: real) {
    Hangs(x, p.width, AnchorLine(p.anchorRect.x, p.anchorRect.width, AtRight(p.anchor), AtLeft(p.anchor)) + p.offsetX as real,
          AtRight(p.gravity), AtLeft(p.gravity))
  }

  predicate Fits(min: int, max: int, x: real, size: int) { min as real <= x && x + size as real <= max as real }

  /** Where it fits it stays; else a flip that fits is accepted; else a slide moves it to the edge it sticks out
      of, to the first one if it is too large; else it may shrink to end at the last edge, keeping a pixel. */
  ghost predicate Ruled(min: int, max: int, size: int, first: real, opposite: real,
                        flip: bool, slide: bool, resize: bool, x: real, w: real) {
    if Fits(min, max, first, size) then x == first && w == size as real
    else if flip && Fits(min, max, opposite, size) then x == opposite && w == size as real
    else if slide && size <= max - min then
      x == (if first < min as real then min as real else (max - size) as real) && w == size as real
    else if slide then x == min as real && w == if resize then MaxReal(1.0, (max - min) as real) else size as real
    else x == first
         && w == if resize && first + size as real > max as real then MaxReal(1.0, max as real - first) else size as real
  }

  lemma SolvedIsRuled(a: Axis)
    ensures Ruled(a.min, a.max, a.size, a.raw, a.mirrored, a.flip, a.slide, a.resize, Solved(a).0, Solved(a).1)
  {
  }

  lemma RawHangsX(p: Positioner)
    ensures HangsX(p, RawX(p, p.anchor, p.gravity))
    ensures HangsOppositeX(p, RawX(p, FlipH(p.anchor), FlipH(p.gravity)))
  {
    FlipsCommute(p.anchor);
    FlipsCommute(p.gravity);
    Sides(p.anchor);
    Sides(p.gravity);
  }

  lemma RawHangsY(p: Positioner)
    ensures HangsY(p, RawY(p, p.anchor, p.gravity))
    ensures HangsOppositeY(p, RawY(p, FlipV(p.anchor), FlipV(p.gravity)))
  {
    FlipsCommute(p.anchor);
    FlipsCommute(p.gravity);
    Sides(p.anchor);
    Sides(p.gravity);
  }

  lemma Sides(e: int)
    ensures AtLeft(e) <==> HComp(e) < 0
    ensures AtRight(e) <==> HComp(e) > 0
    ensures AtTop(e) <==> VComp(e) < 0
    ensures AtBottom(e) <==> VComp(e) > 0
  {
  }

  /** The anchor, the gravity and the rules decide the result, rounded to a whole pixel. */
  ghost predicate StandsX(p: Positioner, parentX: int, outX: int, outW: int, x: int, w: real) {
    exists first, opposite, place: real ::
      HangsX(p, first) && HangsOppositeX(p, opposite) && x == Round(place)
      && Ruled(outX - parentX, outX + outW - parentX, p.width, first, opposite, p.flipX, p.slideX, p.resizeX, place, w)
  }

  ghost predicate StandsY(p: Positioner, parentY: int, outY: int, outH: int, y: int, h: real) {
    exists first, opposite, place: real ::
      HangsY(p, first) && HangsOppositeY(p, opposite) && y == Round(place)
      && Ruled(outY - parentY, outY + outH - parentY, p.height, first, opposite, p.flipY, p.slideY, p.resizeY, place, h)
  }

  lemma SolvedStandsX(p: Positioner, parentX: int, outX: int, outW: int)
    ensures var (x, w) := Solved(XAxis(p, parentX, outX, outW)); StandsX(p, parentX, outX, outW, Round(x), w)
  {
    RawHangsX(p);
    SolvedIsRuled(XAxis(p, parentX, outX, outW));
  }

  lemma SolvedStandsY(p: Positioner, parentY: int, outY: int, outH: int)
    ensures var (y, h) := Solved(YAxis(p, parentY, outY, outH)); StandsY(p, parentY, outY, outH, Round(y), h)
  {
    RawHangsY(p);
    SolvedIsRuled(YAxis(p, parentY, outY, outH));
  }

  lemma SolvedStands(p: Positioner, parentX: int, parentY: int, outX: int, outY: int, outW: int, outH: int, r: Popup)
    requires (r.x, r.width) == (Round(Solved(XAxis(p, parentX, outX, outW)).0), Solved(XAxis(p, parentX, outX, outW)).1)
    requires (r.y, r.height) == (Round(Solved(YAxis(p, parentY, outY, outH)).0), Solved(YAxis(p, parentY, outY, outH)).1)
    ensures StandsX(p, parentX, outX, outW, r.x, r.width) && StandsY(p, parentY, outY, outH, r.y, r.height)
  {
    SolvedStandsX(p, parentX, outX, outW);
    SolvedStandsY(p, parentY, outY, outH);
  }

  /** A menu that fits drops from the bottom of its button. */
  lemma MenuDropsBelow(p: Positioner, parentY: int, outY: int, outH: int, y: int, h: real)
    requires StandsY(p, parentY, outY, outH, y, h) && p.anchor == BOTTOM && p.gravity == BOTTOM
    requires var bottom := p.anchorRect.y + p.anchorRect.height + p.offsetY;
             outY - parentY <= bottom && bottom + p.height <= outY + outH - parentY
    ensures y == p.anchorRect.y + p.anchorRect.height + p.offsetY && h == p.height as real
  {
    var bottom := p.anchorRect.y + p.anchorRect.height + p.offsetY;
    RoundBetween(bottom as real, bottom);
  }

  /** Where that sticks out below and a vertical flip fits, it ends at the button's top instead. */
  lemma MenuFlipsAbove(p: Positioner, parentY: int, outY: int, outH: int, y: int, h: real)
    requires StandsY(p, parentY, outY, outH, y, h) && p.anchor == BOTTOM && p.gravity == BOTTOM && p.flipY
    requires p.anchorRect.y + p.anchorRect.height + p.offsetY + p.height > outY + outH - parentY
    requires var top := p.anchorRect.y + p.offsetY;
             outY - parentY <= top - p.height && top <= outY + outH - parentY
    ensures y + p.height == p.anchorRect.y + p.offsetY && h == p.height as real
  {
    var above := p.anchorRect.y + p.offsetY - p.height;
    RoundBetween(above as real, above);
  }

  /** `solvePopupPosition`: the axes one after the other. Each comes out as if it were alone, although the
      vertical flip starts from the horizontally flipped anchor. */
  method SolvePopupPosition(p: Positioner, parentX: int, parentY: int, outX: int, outY: int, outW: int, outH: int)
    returns (r: Popup)
    ensures var (x, w) := Solved(XAxis(p, parentX, outX, outW));
            var (y, h) := Solved(YAxis(p, parentY, outY, outH));
            r == Popup(Round(x), Round(y), w, h)
    ensures StandsX(p, parentX, outX, outW, r.x, r.width) && StandsY(p, parentY, outY, outH, r.y, r.height)
  {
    var x, w, anchor, gravity := SolveX(p, outX - parentX, outX + outW - parentX);
    var y, h := SolveY(p, anchor, gravity, outY - parentY, outY + outH - parentY);
    r := Popup(Round(x), Round(y), w, h);
    SolvedStands(p, parentX, parentY, outX, outY, outW, outH, r);
  }

  method SolveX(p: Positioner, min: int, max: int) returns (x: real, w: real, anchor: int, gravity: int)
    ensures (x, w) == Solved(Axis(min, max, p.width, RawX(p, p.anchor, p.gravity),
                                  RawX(p, FlipH(p.anchor), FlipH(p.gravity)), p.flipX, p.slideX, p.resizeX))
    ensures (anchor, gravity) == (p.anchor, p.gravity) || (anchor, gravity) == (FlipH(p.anchor), FlipH(p.gravity))
  {
    w, anchor, gravity := p.width as real, p.anchor, p.gravity;
    x := RawX(p, anchor, gravity);
    var minX, maxX := min as real, max as real;
    if x < minX || x + w > maxX {
      if p.flipX {
        var fa, fg := FlipH(anchor), FlipH(gravity);
        var flipped := RawX(p, fa, fg);
        if flipped >= minX && flipped + w <= maxX { x, anchor, gravity := flipped, fa, fg; }
      }
      if x < minX || x + w > maxX {
        if p.slideX {
          if x + w > maxX { x := maxX - w; }
          if x < minX { x := minX; }
        }
        if p.resizeX && x + w > maxX { w := MaxReal(1.0, maxX - x); }
      }
    }
  }

  /** The anchor may be the horizontally flipped one. */
  method SolveY(p: Positioner, anchor: int, gravity: int, min: int, max: int) returns (y: real, h: real)
    requires (anchor, gravity) == (p.anchor, p.gravity) || (anchor, gravity) == (FlipH(p.anchor), FlipH(p.gravity))
    ensures (y, h) == Solved(Axis(min, max, p.height, RawY(p, p.anchor, p.gravity),
                                  RawY(p, FlipV(p.anchor), FlipV(p.gravity)), p.flipY, p.slideY, p.resizeY))
  {
    FlipsCommute(p.anchor);
    FlipsCommute(p.gravity);
    RawYBy(p, p.anchor, anchor, p.gravity, gravity);
    RawYBy(p, FlipV(p.anchor), FlipV(anchor), FlipV(p.gravity), FlipV(gravity));
    h := p.height as real;
    y := RawY(p, p.anchor, p.gravity);
    var minY, maxY := min as real, max as real;
    if y < minY || y + h > maxY {
      if p.flipY {
        var flipped := RawY(p, FlipV(anchor), FlipV(gravity));
        if flipped >= minY && flipped + h <= maxY { y := flipped; }
      }
      if y < minY || y + h > maxY {
        if p.slideY {
          if y + h > maxY { y := maxY - h; }
          if y < minY { y := minY; }
        }
        if p.resizeY && y + h > maxY { h := MaxReal(1.0, maxY - y); }
      }
    }
  }

  /** Only the vertical components matter to a vertical place. */
  lemma RawYBy(p: Positioner, a: int, b: int, g: int, k: int)
    requires VComp(a) == VComp(b) && VComp(g) == VComp(k)
    ensures RawY(p, a, g) == RawY(p, b, k)
  {
  }

  /** No vertical result depends on horizontal data. */
  lemma VerticalIgnoresHorizontal(p: Positioner, q: Positioner, parentY: int, outY: int, outH: int)
    requires p.height == q.height && p.anchorRect.y == q.anchorRect.y && p.anchorRect.height == q.anchorRect.height
    requires VComp(p.anchor) == VComp(q.anchor) && VComp(p.gravity) == VComp(q.gravity) && p.offsetY == q.offsetY
    requires p.slideY == q.slideY && p.flipY == q.flipY && p.resizeY == q.resizeY
    ensures Solved(YAxis(p, parentY, outY, outH)) == Solved(YAxis(q, parentY, outY, outH))
  {
    FlipsCommute(p.anchor);
    FlipsCommute(q.anchor);
    FlipsCommute(p.gravity);
    FlipsCommute(q.gravity);
  }

  // ----- When a popup is on the output -----

  predicate Half(x: real) { 2.0 * x == (2.0 * x).Floor as real }
  predicate Whole(x: real) { x == x.Floor as real }

  lemma HalfIs(x: real, k: int)
    requires 2.0 * x == k as real
    ensures Half(x)
  {
  }

  lemma RawHalf(p: Positioner, anchor: int, gravity: int)
    ensures Half(RawX(p, anchor, gravity)) && Half(RawY(p, anchor, gravity))
  {
    var a := p.anchorRect;
    HalfIs(RawX(p, anchor, gravity), HalfPlaced(HComp(gravity), HalfAlong(HComp(anchor), a.x, a.width), p.width) + 2 * p.offsetX);
    HalfIs(RawY(p, anchor, gravity), HalfPlaced(VComp(gravity), HalfAlong(VComp(anchor), a.y, a.height), p.height) + 2 * p.offsetY);
  }

  /** The same in half pixels. */
  function HalfAlong(comp: int, at: int, size: int): (r: int)
    ensures r as real == 2.0 * Along(comp, at, size)
  {
    2 * at + if comp < 0 then 0 else if comp > 0 then 2 * size else size
  }

  function HalfPlaced(comp: int, at: int, size: int): (r: int)
    ensures r as real == 2.0 * Placed(comp, at as real / 2.0, size)
  {
    if comp < 0 then at - 2 * size else if comp > 0 then at else at - size
  }

  /** The rounded result lies on the output along the axis. */
  predicate OnOutput(a: Axis) {
    var (x, w) := Solved(a);
    a.min <= Round(x) && Round(x) as real + w <= a.max as real
  }

  /** Exactly when: the popup fits where it is or mirrored; or it may slide, and is small enough or may
      shrink on an output with a pixel; or, unable to slide, it shrinks from a whole-pixel place inside, or
      sticks out by the half pixel rounding takes away. A popup centred on a half pixel and shrunk without
      sliding sticks out by half a pixel. */
  predicate CanBeOnOutput(a: Axis) {
    || Within(a, a.raw, a.size as real)
    || (a.flip && Within(a, a.mirrored, a.size as real))
    || (a.slide && (a.size <= a.max - a.min || (a.resize && a.max - a.min >= 1)))
    || (!a.slide && a.resize && Whole(a.raw) && a.min as real <= a.raw && a.raw + 1.0 <= a.max as real)
    || (!a.slide && a.raw == a.min as real - 0.5 && a.size <= a.max - a.min)
  }

  /** Rounding moves a place on half pixels up by half a pixel or not at all. */
  lemma RoundHalf(x: real)
    requires Half(x)
    ensures Round(x) as real == if Whole(x) then x else x + 0.5
  {
    var k := (2.0 * x).Floor;
    if k % 2 == 0 {
      var n := k / 2;
      assert x == n as real;
      assert Round(x) == n && x.Floor == n;
    } else {
      var n := (k - 1) / 2;
      assert k == 2 * n + 1;
      assert x == n as real + 0.5;
      assert Round(x) == n + 1 && x.Floor == n;
    }
  }

  lemma OnOutputExactlyWhen(a: Axis)
    requires Half(a.raw) && Half(a.mirrored)
    ensures OnOutput(a) <==> CanBeOnOutput(a)
  {
    var (x, w) := Solved(a);
    RoundBetween(x, a.min);
    RoundBetween(x, a.max - a.size);
    RoundBetween(x, a.max);
    RoundHalf(a.raw);
  }

  /** A popup shrunk to reach the edge, then rounded half a pixel past it. */
  lemma HalfPixelSpill()
    ensures var a := Axis(0, 10, 20, 0.5, 0.5, false, false, true);
            Solved(a) == (0.5, 9.5) && Round(0.5) as real + 9.5 == 10.5 && !OnOutput(a)
  {
    RoundHalf(0.5);
  }

  /** A popup that may slide is on the output when it is no larger, or when it may also shrink. */
  lemma SlidePutsPopupOnOutput(p: Positioner, parentX: int, parentY: int, outX: int, outY: int, outW: int, outH: int)
    ensures p.slideX && (p.width <= outW || (p.resizeX && outW >= 1)) ==> OnOutput(XAxis(p, parentX, outX, outW))
    ensures p.slideY && (p.height <= outH || (p.resizeY && outH >= 1)) ==> OnOutput(YAxis(p, parentY, outY, outH))
  {
    RawHalf(p, p.anchor, p.gravity);
    RawHalf(p, FlipH(p.anchor), FlipH(p.gravity));
    RawHalf(p, FlipV(p.anchor), FlipV(p.gravity));
    OnOutputExactlyWhen(XAxis(p, parentX, outX, outW));
    OnOutputExactlyWhen(YAxis(p, parentY, outY, outH));
  }
}
