/** The canvas cameras: docking on an island, scrolling to a column, and fitting a set of islands.

    A camera at `x` with zoom `z` shows world point `p` at `(p - (origin + x)) * z` on its output.
 */
module Cameras {
  import opened Seqs
  import opened Numbers

  datatype Area = Area(x: real, y: real, width: real, height: real)

  datatype Camera = Camera(x: real, y: real, zoom: real)

  datatype Align = Center | Visible

  function Screen(p: real, origin: real, camera: real, zoom: real): real { (p - (origin + camera)) * zoom }

  // ----- Scrolling -----

  /** One island's strip: its width, the view's width, the margin and the column. */
  datatype Strip = Strip(width: real, view: real, margin: real, left: real, column: real)

  function MaxScroll(s: Strip): real { MaxReal(0.0, s.width - s.view) }

  function Clamp(s: Strip, x: real): real { MinReal(MaxScroll(s), MaxReal(0.0, x)) }

  function Right(s: Strip): real { s.left + s.column }

  /** The scroll a reveal stores; none if it leaves the camera alone. */
  function Revealed(s: Strip, prev: real, align: Align): Option<real> {
    var slack := s.view - s.column;
    if align.Visible? then
      if s.left - s.margin >= prev && Right(s) + s.margin <= prev + s.view then None
      else Some(Clamp(s, if slack <= 0.0 || s.left - s.margin < prev then s.left - s.margin
                         else Right(s) + s.margin - s.view))
    else
      var hasLeft, hasRight := s.left > s.margin, s.width - Right(s) > s.margin;
      Some(Clamp(s, if slack <= 0.0 || (!hasLeft && hasRight) then s.left - s.margin
                    else if hasLeft && hasRight then Round(s.left - slack / 2.0) as real
                    else Right(s) + s.margin - s.view))
  }

  /** The scroll in force after a reveal. */
  function After(s: Strip, prev: real, align: Align): real {
    if Revealed(s, prev, align).Some? then Revealed(s, prev, align).value else prev
  }

  /** The column is on its island. */
  ghost predicate Inside(s: Strip) { 0.0 <= s.left && Right(s) <= s.width && s.column >= 0.0 && s.margin >= 0.0 }

  ghost predicate Whole(x: real) { x == x.Floor as real }

  /** The whole column lies in the view. */
  predicate Shown(s: Strip, scroll: real) { scroll <= s.left && Right(s) <= scroll + s.view }

  lemma RoundCentered(left: real, slack: real)
    requires Whole(left) && Whole(slack) && slack >= 0.0
    ensures left - slack <= Round(left - slack / 2.0) as real <= left
  {
    assert left - slack == (left.Floor - slack.Floor) as real;
    RoundBetween(left - slack / 2.0, left.Floor);
    RoundBetween(left - slack / 2.0, left.Floor - slack.Floor);
  }

  /** The reveal puts the column's left edge a margin inside the view. */
  predicate FromLeft(s: Strip, prev: real, align: Align) {
    s.view <= s.column
    || if align.Visible? then s.left - s.margin < prev else s.left <= s.margin && s.width - Right(s) > s.margin
  }

  predicate BothPeek(s: Strip, align: Align) { align.Center? && s.left > s.margin && s.width - Right(s) > s.margin }

  /** The column fits the view with the margin to spare, or is centered, or stands so near an end of its island
      that the clamp gives the margin up. */
  predicate Revealable(s: Strip, prev: real, align: Align) {
    s.column <= s.view
    && (s.view - s.column >= s.margin
        || if FromLeft(s, prev, align) then Right(s) <= s.view || s.left - s.margin >= s.width - s.view
           else BothPeek(s, align) || Right(s) + s.margin <= s.view || s.width - s.view <= s.left)
  }

  /** A reveal shows the whole column if and only if it is revealable. */
  lemma RevealShowsIff(s: Strip, prev: real, align: Align)
    requires Inside(s) && (align.Center? ==> Whole(s.left) && Whole(s.view - s.column))
    ensures Shown(s, Clamp(s, After(s, prev, align))) <==> Revealable(s, prev, align)
  {
    if align.Visible? {
      RevealsVisible(s, prev);
    } else if s.column <= s.view {
      RoundCentered(s.left, s.view - s.column);
    }
  }

  lemma RevealsVisible(s: Strip, prev: real)
    requires Inside(s)
    ensures Shown(s, Clamp(s, After(s, prev, Visible))) <==> Revealable(s, prev, Visible)
  {
  }

  /** The scroll kept between the island's ends. */
  predicate Bounded(s: Strip, x: real, r: real) {
    r == if x < 0.0 then 0.0 else if x > s.width - s.view then (if s.width > s.view then s.width - s.view else 0.0) else x
  }

  /** Where a reveal aims before the ends of the island stop it. A column in view with its margins is left alone; one
      that is not comes to a margin from the edge it is beyond, an oversized one with its left edge. Centering puts
      a column between neighbours in the middle, to the pixel, and one at an end a margin from the far edge. */
  lemma RevealAims(s: Strip, prev: real, align: Align)
    requires s.margin >= 0.0
    ensures var inView := prev + s.margin <= s.left && Right(s) + s.margin <= prev + s.view;
            var aim := s.left - s.margin;
            var late := Right(s) + s.margin - s.view;
            var left, right := s.left > s.margin, s.width - Right(s) > s.margin;
            && (align.Visible? && inView ==> After(s, prev, align) == prev)
            && (align.Visible? && !inView ==>
                  Bounded(s, if s.view <= s.column || s.left < prev + s.margin then aim else late, After(s, prev, align)))
            && (align.Center? && (s.view <= s.column || (!left && right)) ==> Bounded(s, aim, After(s, prev, align)))
            && (align.Center? && s.column < s.view && !right ==> Bounded(s, late, After(s, prev, align)))
            && (align.Center? && s.column < s.view && left && right ==>
                  exists x: int :: InMiddle(s, x) && Bounded(s, x as real, After(s, prev, align)))
  {
    assert InMiddle(s, Round(s.left - (s.view - s.column) / 2.0));
  }

  /** The column has as much room on its left as on its right, up to a pixel. */
  predicate InMiddle(s: Strip, x: int) { -1.0 <= (s.left - x as real) - (x as real + s.view - Right(s)) <= 1.0 }

  /** In particular, whatever the scroll was, once the view has the margin to spare. */
  lemma RevealShows(s: Strip, prev: real, align: Align)
    requires Inside(s) && (align.Center? ==> Whole(s.left) && Whole(s.view - s.column)) && s.view - s.column >= s.margin
    ensures Shown(s, Clamp(s, After(s, prev, align)))
  {
    RevealShowsIff(s, prev, align);
  }

  /** With less, a column that fits can be cut on either side: 950 pixels at 1500, in a view of 1000 with a margin
      of 100. */
  lemma TightRevealCuts()
    ensures var s := Strip(4000.0, 1000.0, 100.0, 1500.0, 950.0);
            && Inside(s) && s.column <= s.view
            && !Shown(s, Clamp(s, After(s, 0.0, Visible))) && !Shown(s, Clamp(s, After(s, 2000.0, Visible)))
  {
    var s := Strip(4000.0, 1000.0, 100.0, 1500.0, 950.0);
    RevealShowsIff(s, 0.0, Visible);
    RevealShowsIff(s, 2000.0, Visible);
  }

  /** A second "visible" reveal finds nothing to do if and only if the view has twice the margin to spare, or the
      column is oversized, or an end of the island decides the scroll. */
  lemma RevealTwiceIff(s: Strip, prev: real)
    requires Inside(s)
    ensures After(s, After(s, prev, Visible), Visible) == After(s, prev, Visible)
            <==> s.view - s.column >= 2.0 * s.margin || s.view <= s.column || s.width <= s.view
                 || Right(s) + s.margin <= s.view || s.left - s.margin >= s.width - s.view
                 || (s.left - s.margin < prev && s.left < s.margin)
  {
  }

  /** Otherwise repeated reveals swing between two scrolls: 850 pixels at 1500, in a view of 1000 with a margin
      of 100. */
  lemma RevealSwings()
    ensures var s := Strip(4000.0, 1000.0, 100.0, 1500.0, 850.0);
            && Inside(s) && After(s, 0.0, Visible) == 1450.0
            && After(s, 1450.0, Visible) == 1400.0 && After(s, 1400.0, Visible) == 1450.0
  {
  }

  // ----- Docking -----

  /** `camPosFor`: the island's origin at the workarea's, shifted by the clamped scroll. */
  function CamPosFor(origin: Area, island: Area, wa: Area, scroll: real): Camera {
    var s := MinReal(MaxReal(0.0, island.width - wa.width), MaxReal(0.0, scroll));
    Camera(island.x - origin.x - wa.x + s, island.y - origin.y - wa.y, 1.0)
  }

  function StripOf(island: Area, wa: Area, scrollMargin: real, x: real, width: real): Strip {
    Strip(island.width, wa.width, MinReal(scrollMargin, wa.width / 4.0), x - island.x, width)
  }

  /** On screen, the column a reveal was asked for lies in the workarea if and only if it is revealable. */
  lemma DockShowsColumn(origin: Area, island: Area, wa: Area, scrollMargin: real, x: real, width: real,
                        prev: real, align: Align)
    requires var s := StripOf(island, wa, scrollMargin, x, width);
             Inside(s) && (align.Center? ==> Whole(s.left) && Whole(s.view - s.column))
    ensures var s := StripOf(island, wa, scrollMargin, x, width);
            var cam := CamPosFor(origin, island, wa, After(s, prev, align));
            && (wa.x <= Screen(x, origin.x, cam.x, cam.zoom) && Screen(x + width, origin.x, cam.x, cam.zoom) <= wa.x + wa.width
                <==> Revealable(s, prev, align))
            && Screen(island.y, origin.y, cam.y, cam.zoom) == wa.y
  {
    RevealShowsIff(StripOf(island, wa, scrollMargin, x, width), prev, align);
  }

  /** The docked camera shows the island at full size, its scrolled-to point at the workarea's left edge. */
  lemma DockAligns(origin: Area, island: Area, wa: Area, scroll: real)
    ensures var cam := CamPosFor(origin, island, wa, scroll);
            && cam.zoom == 1.0
            && Screen(island.y, origin.y, cam.y, cam.zoom) == wa.y
            && Bounded(Strip(island.width, wa.width, 0.0, 0.0, 0.0), scroll, wa.x - Screen(island.x, origin.x, cam.x, cam.zoom))
  {
  }

  class ScrollTable {
    var scrollByHandle: map<int, real>
    const scrollMargin: real

    constructor (scrollMargin: real)
      ensures scrollByHandle == map[] && this.scrollMargin == scrollMargin
    {
      this.scrollMargin, scrollByHandle := scrollMargin, map[];
    }

    function Scroll(h: int): real
      reads this
    {
      if h in scrollByHandle then scrollByHandle[h] else 0.0
    }

    /** `revealScroll`: stores the new scroll; reports it only if it moved. */
    method RevealScroll(h: int, geometryKnown: bool, island: Option<Area>, wa: Area, x: real, width: real, align: Align)
      returns (r: Option<real>)
      modifies this
      ensures !geometryKnown || island.None? ==> r == None && scrollByHandle == old(scrollByHandle)
      ensures geometryKnown && island.Some? ==>
                var s := StripOf(island.value, wa, scrollMargin, x, width);
                var next := Revealed(s, old(Scroll(h)), align);
                && scrollByHandle == (if next.None? then old(scrollByHandle) else old(scrollByHandle)[h := next.value])
                && Scroll(h) == After(s, old(Scroll(h)), align)
                && r == if Scroll(h) != old(Scroll(h)) then Some(Scroll(h)) else None
    {
      if !geometryKnown || island.None? { return None; }
      var isl := island.value;
      var maxScroll := MaxReal(0.0, isl.width - wa.width);
      var prev := Scroll(h);
      var m := MinReal(scrollMargin, wa.width / 4.0);
      var left := x - isl.x;
      var right := left + width;
      var slack := wa.width - width;
      var s;
      if align.Visible? {
        if left - m >= prev && right + m <= prev + wa.width { return None; }
        s := if slack <= 0.0 || left - m < prev then left - m else right + m - wa.width;
      } else {
        var hasLeft, hasRight := left > m, isl.width - right > m;
        if slack <= 0.0 || (!hasLeft && hasRight) {
          s := left - m;
        } else if hasLeft && hasRight {
          s := Round(left - slack / 2.0) as real;
        } else {
          s := right + m - wa.width;
        }
      }
      s := MinReal(maxScroll, MaxReal(0.0, s));
      scrollByHandle := scrollByHandle[h := s];
      return if s != prev then Some(s) else None;
    }
  }

  // ----- Fitting -----

  /** The bounds of the framed islands. */
  ghost predicate Bounds(islands: seq<Area>, minX: real, maxX: real, minY: real, maxY: real) {
    && (forall i :: 0 <= i < |islands| ==>
          && minX <= islands[i].x && islands[i].x + islands[i].width <= maxX
          && minY <= islands[i].y && islands[i].y + islands[i].height <= maxY)
    && (exists i :: 0 <= i < |islands| && islands[i].x == minX)
    && (exists i :: 0 <= i < |islands| && islands[i].x + islands[i].width == maxX)
    && (exists i :: 0 <= i < |islands| && islands[i].y == minY)
    && (exists i :: 0 <= i < |islands| && islands[i].y + islands[i].height == maxY)
  }

  ghost predicate Positive(islands: seq<Area>) {
    forall i :: 0 <= i < |islands| ==> islands[i].width > 0.0 && islands[i].height > 0.0
  }

  /** The camera shows every island whole inside the workarea. */
  ghost predicate Frames(islands: seq<Area>, origin: Area, wa: Area, cam: Camera) {
    forall i :: 0 <= i < |islands| ==>
      && wa.x <= Screen(islands[i].x, origin.x, cam.x, cam.zoom)
      && Screen(islands[i].x + islands[i].width, origin.x, cam.x, cam.zoom) <= wa.x + wa.width
      && wa.y <= Screen(islands[i].y, origin.y, cam.y, cam.zoom)
      && Screen(islands[i].y + islands[i].height, origin.y, cam.y, cam.zoom) <= wa.y + wa.height
  }

  /** The middle of the islands' bounds is shown in the middle of the workarea. */
  ghost predicate Centers(islands: seq<Area>, origin: Area, wa: Area, cam: Camera) {
    exists minX, maxX, minY, maxY ::
      && Bounds(islands, minX, maxX, minY, maxY)
      && Screen((minX + maxX) / 2.0, origin.x, cam.x, cam.zoom) == wa.x + wa.width / 2.0
      && Screen((minY + maxY) / 2.0, origin.y, cam.y, cam.zoom) == wa.y + wa.height / 2.0
  }

  lemma MiddleToMiddle(mid: real, origin: real, half: real, zoom: real)
    requires zoom > 0.0
    ensures Screen(mid, origin, mid - origin - half / zoom, zoom) == half
  {
    assert (half / zoom) * zoom == half;
  }

  method Extents(islands: seq<Area>) returns (minX: real, maxX: real, minY: real, maxY: real)
    requires islands != []
    ensures Bounds(islands, minX, maxX, minY, maxY)
  {
    var first := islands[0];
    minX, maxX, minY, maxY := first.x, first.x + first.width, first.y, first.y + first.height;
    for i := 1 to |islands|
      invariant Bounds(islands[..i], minX, maxX, minY, maxY)
    {
      var r := islands[i];
      BoundsMore(islands, i, minX, maxX, minY, maxY);
      minX, maxX := MinReal(minX, r.x), MaxReal(maxX, r.x + r.width);
      minY, maxY := MinReal(minY, r.y), MaxReal(maxY, r.y + r.height);
    }
    assert islands[..|islands|] == islands;
  }

  /** `fitCameraFor`: it frames every island, and no camera with a larger zoom up to 1 does. */
  method FitCamera(islands: seq<Area>, origin: Area, wa: Area) returns (cam: Option<Camera>)
    requires Positive(islands) && wa.width > 0.0 && wa.height > 0.0
    ensures cam.None? <==> islands == []
    ensures cam.Some? ==>
              && 0.0 < cam.value.zoom <= 1.0 && Frames(islands, origin, wa, cam.value)
              && Centers(islands, origin, wa, cam.value)
              && forall c: Camera :: 0.0 < c.zoom <= 1.0 && Frames(islands, origin, wa, c) ==> c.zoom <= cam.value.zoom
  {
    if islands == [] { return None; }
    var minX, maxX, minY, maxY := Extents(islands);
    SpansPositive(islands, minX, maxX, minY, maxY);
    var zoom := MinReal(MinReal(wa.width / (maxX - minX), wa.height / (maxY - minY)), 1.0);
    Zooms(wa, maxX - minX, maxY - minY, zoom);
    var c := Camera((minX + maxX) / 2.0 - origin.x - (wa.x + wa.width / 2.0) / zoom,
                    (minY + maxY) / 2.0 - origin.y - (wa.y + wa.height / 2.0) / zoom, zoom);
    Fits(islands, origin, wa, minX, maxX, minY, maxY, c);
    MiddleToMiddle((minX + maxX) / 2.0, origin.x, wa.x + wa.width / 2.0, zoom);
    MiddleToMiddle((minY + maxY) / 2.0, origin.y, wa.y + wa.height / 2.0, zoom);
    forall d: Camera | 0.0 < d.zoom <= 1.0 && Frames(islands, origin, wa, d) ensures d.zoom <= zoom {
      Largest(islands, origin, wa, minX, maxX, minY, maxY, d);
    }
    return Some(c);
  }

  lemma Zooms(wa: Area, w: real, h: real, zoom: real)
    requires w > 0.0 && h > 0.0 && wa.width > 0.0 && wa.height > 0.0
    requires zoom == MinReal(MinReal(wa.width / w, wa.height / h), 1.0)
    ensures 0.0 < zoom <= 1.0 && zoom * w <= wa.width && zoom * h <= wa.height
  {
    Quotient(wa.width, w, zoom);
    Quotient(wa.height, h, zoom);
  }

  lemma BoundsMore(islands: seq<Area>, i: nat, minX: real, maxX: real, minY: real, maxY: real)
    requires i < |islands| && Bounds(islands[..i], minX, maxX, minY, maxY)
    ensures var r := islands[i];
            Bounds(islands[..i + 1], MinReal(minX, r.x), MaxReal(maxX, r.x + r.width),
                   MinReal(minY, r.y), MaxReal(maxY, r.y + r.height))
  {
    var all, before := islands[..i + 1], islands[..i];
    assert all[i] == islands[i];
    assert forall j :: 0 <= j < i ==> all[j] == before[j];
  }

  lemma SpansPositive(islands: seq<Area>, minX: real, maxX: real, minY: real, maxY: real)
    requires Bounds(islands, minX, maxX, minY, maxY) && Positive(islands)
    ensures minX < maxX && minY < maxY
  {
  }

  lemma Quotient(a: real, b: real, z: real)
    requires b > 0.0
    ensures z <= a / b <==> z * b <= a
  {
  }

  /** One axis: the bounds' centre maps to the workarea's. */
  lemma Centered(p: real, lo: real, hi: real, origin: real, at: real, size: real, zoom: real)
    requires zoom > 0.0 && zoom * (hi - lo) <= size && lo <= p <= hi
    ensures var camera := (lo + hi) / 2.0 - origin - (at + size / 2.0) / zoom;
            at <= Screen(p, origin, camera, zoom) <= at + size
  {
    var mid, half := (lo + hi) / 2.0, at + size / 2.0;
    var camera := mid - origin - half / zoom;
    assert (half / zoom) * zoom == half;
    assert Screen(p, origin, camera, zoom) == (p - mid) * zoom + half;
    Scaled(p - mid, (hi - lo) / 2.0, zoom);
    Scaled(mid - p, (hi - lo) / 2.0, zoom);
  }

  lemma Scaled(a: real, b: real, z: real)
    requires a <= b && z >= 0.0
    ensures a * z <= b * z
  {
  }

  /** One axis of one island. */
  lemma FitsAlong(p: real, length: real, lo: real, hi: real, origin: real, at: real, size: real, zoom: real, camera: real)
    requires zoom > 0.0 && zoom * (hi - lo) <= size && lo <= p && p + length <= hi && length > 0.0
    requires camera == (lo + hi) / 2.0 - origin - (at + size / 2.0) / zoom
    ensures at <= Screen(p, origin, camera, zoom) && Screen(p + length, origin, camera, zoom) <= at + size
  {
    Centered(p, lo, hi, origin, at, size, zoom);
    Centered(p + length, lo, hi, origin, at, size, zoom);
  }

  lemma Fits(islands: seq<Area>, origin: Area, wa: Area, minX: real, maxX: real, minY: real, maxY: real, c: Camera)
    requires Bounds(islands, minX, maxX, minY, maxY) && Positive(islands)
    requires c.zoom > 0.0 && c.zoom * (maxX - minX) <= wa.width && c.zoom * (maxY - minY) <= wa.height
    requires c.x == (minX + maxX) / 2.0 - origin.x - (wa.x + wa.width / 2.0) / c.zoom
    requires c.y == (minY + maxY) / 2.0 - origin.y - (wa.y + wa.height / 2.0) / c.zoom
    ensures Frames(islands, origin, wa, c)
  {
    forall i | 0 <= i < |islands|
      ensures wa.x <= Screen(islands[i].x, origin.x, c.x, c.zoom)
      ensures Screen(islands[i].x + islands[i].width, origin.x, c.x, c.zoom) <= wa.x + wa.width
      ensures wa.y <= Screen(islands[i].y, origin.y, c.y, c.zoom)
      ensures Screen(islands[i].y + islands[i].height, origin.y, c.y, c.zoom) <= wa.y + wa.height
    {
      var r := islands[i];
      FitsAlong(r.x, r.width, minX, maxX, origin.x, wa.x, wa.width, c.zoom, c.x);
      FitsAlong(r.y, r.height, minY, maxY, origin.y, wa.y, wa.height, c.zoom, c.y);
    }
  }

  lemma Largest(islands: seq<Area>, origin: Area, wa: Area, minX: real, maxX: real, minY: real, maxY: real, c: Camera)
    requires Bounds(islands, minX, maxX, minY, maxY) && Positive(islands) && minX < maxX && minY < maxY
    requires 0.0 < c.zoom <= 1.0 && Frames(islands, origin, wa, c)
    ensures c.zoom <= MinReal(MinReal(wa.width / (maxX - minX), wa.height / (maxY - minY)), 1.0)
  {
    var a :| 0 <= a < |islands| && islands[a].x == minX;
    var b :| 0 <= b < |islands| && islands[b].x + islands[b].width == maxX;
    Span(minX, maxX, origin.x, c.x, c.zoom, wa.x, wa.width);
    var d :| 0 <= d < |islands| && islands[d].y == minY;
    var e :| 0 <= e < |islands| && islands[e].y + islands[e].height == maxY;
    Span(minY, maxY, origin.y, c.y, c.zoom, wa.y, wa.height);
  }

  lemma Span(lo: real, hi: real, origin: real, camera: real, zoom: real, at: real, size: real)
    requires lo < hi && at <= Screen(lo, origin, camera, zoom) && Screen(hi, origin, camera, zoom) <= at + size
    ensures zoom <= size / (hi - lo)
  {
    assert Screen(hi, origin, camera, zoom) - Screen(lo, origin, camera, zoom) == zoom * (hi - lo);
    Quotient(size, hi - lo, zoom);
  }
}
