/** The tiling algorithms of the layout plugin: columns and master-stack. */
module Tiling {
  import opened Seqs
  import opened Numbers
  import opened Columns
  import opened WaterFill

  datatype Rect = Rect(x: int, y: int, width: int, height: int)

  function Clamped(x: int, y: int, width: int, height: int): Rect {
    Rect(x, y, Max(0, width), Max(0, height))
  }

  /** The columns run from one gap inside the region to one gap from its end, one gap between neighbours. */
  ghost predicate Tiles(rects: seq<Rect>, g: int, width: int) {
    rects != [] ==>
      && rects[0].x == g && Last(rects).x + Last(rects).width == width - g
      && (forall i :: 0 <= i < |rects| ==> rects[i].width >= 0)
      && (forall i :: 0 < i < |rects| ==> rects[i].x == rects[i - 1].x + rects[i - 1].width + g)
  }

  ghost predicate Disjoint(a: Rect, b: Rect) {
    a.x + a.width <= b.x || b.x + b.width <= a.x || a.y + a.height <= b.y || b.y + b.height <= a.y
  }

  ghost predicate Inside(a: Rect, width: int, height: int) {
    0 <= a.x && a.x + a.width <= width && 0 <= a.y && a.y + a.height <= height
  }

  lemma {:induction false} TilesApart(rects: seq<Rect>, g: int, width: int, i: nat, j: nat)
    requires Tiles(rects, g, width) && g >= 0 && i < j < |rects|
    ensures rects[i].x + rects[i].width + g <= rects[j].x
    decreases j
  {
    if i < j - 1 { TilesApart(rects, g, width, i, j - 1); }
  }

  /** Tiles lie inside the region, pairwise disjoint and at least one gap apart. */
  lemma TilesInside(rects: seq<Rect>, g: int, width: int, i: nat)
    requires Tiles(rects, g, width) && g >= 0 && i < |rects|
    ensures g <= rects[i].x && rects[i].x + rects[i].width <= width - g
  {
    if i > 0 { TilesApart(rects, g, width, 0, i); }
    if i < |rects| - 1 { TilesApart(rects, g, width, i, |rects| - 1); }
  }

  // ----- Columns -----

  function FloorSum(s: seq<real>): int {
    if s == [] then 0 else FloorSum(Init(s)) + Last(s).Floor
  }

  lemma {:induction false} FloorSumBelow(s: seq<real>)
    ensures FloorSum(s) as real <= Sum(s)
  {
    if s != [] { FloorSumBelow(Init(s)); }
  }

  /** The width of `n` gaps. */
  function Gaps(n: int, g: int): (r: int)
    ensures g >= 0 ==> r >= 0
  {
    if n <= 0 then 0 else Gaps(n - 1, g) + g
  }

  lemma {:induction false} GapsIs(n: nat, g: int)
    ensures Gaps(n, g) == n * g
  {
    if n > 0 {
      GapsIs(n - 1, g);
      assert (n - 1) * g + g == n * g;
    }
  }

  /** Where column `i` starts. */
  function Left(widths: seq<real>, g: int, i: nat): int
    requires i <= |widths|
  {
    if i == 0 then g else Left(widths, g, i - 1) + widths[i - 1].Floor + g
  }

  lemma {:induction false} LeftIs(widths: seq<real>, g: int, i: nat)
    requires i <= |widths|
    ensures Left(widths, g, i) == g + FloorSum(widths[..i]) + Gaps(i, g)
  {
    if i > 0 {
      LeftIs(widths, g, i - 1);
      assert Init(widths[..i]) == widths[..i - 1];
    }
  }

  /** The last column ends one gap short of the region and is at least its allocation. */
  lemma LastColumn(widths: seq<real>, g: int, width: int)
    requires widths != [] && g >= 0 && width >= Gaps(|widths| + 1, g) && Sum(widths) <= Room(|widths|, width, g) as real
    ensures width - g - Left(widths, g, |widths| - 1) == Room(|widths|, width, g) - FloorSum(Init(widths))
    ensures width - g - Left(widths, g, |widths| - 1) >= Last(widths).Floor
    ensures (width - g - Left(widths, g, |widths| - 1)) as real >= Last(widths)
  {
    var n := |widths|;
    LeftIs(widths, g, n - 1);
    FloorSumBelow(Init(widths));
    RoomIs(n, width, g);
  }

  lemma RoomIs(n: nat, width: int, g: int)
    requires n > 0 && g >= 0 && width >= Gaps(n + 1, g)
    ensures Room(n, width, g) == width - Gaps(n + 1, g) == width - 2 * g - Gaps(n - 1, g)
    ensures Room(n, width, g) >= 0 && width >= 2 * g
  {
    assert Gaps(n + 1, g) == Gaps(n, g) + g;
  }

  /** The room the gaps leave. */
  function Room(n: nat, width: int, g: int): int {
    Max(0, Max(0, Max(0, width) - 2 * g) - Gaps(n - 1, g))
  }

  ghost predicate IntegralMins(bounds: seq<ColumnBounds>) {
    forall i :: 0 <= i < |bounds| ==> Lo(bounds[i]) == Lo(bounds[i]).Floor as real
  }

  ghost predicate AllServed(rects: seq<Rect>, bounds: seq<ColumnBounds>) {
    forall i :: 0 <= i < |rects| ==> rects[i].width as real >= Lo(BoundsAt(bounds, i))
  }

  /** The rectangles for given widths. Only the last column absorbs what flooring leaves. */
  ghost predicate Placed(rects: seq<Rect>, alloc: seq<real>, g: int, aw: int, ah: int) {
    && |rects| == |alloc|
    && (forall i :: 0 <= i < |rects| ==> rects[i].y == g && rects[i].height == ah && rects[i].width >= 0)
    && (rects != [] ==> rects[0].x == g && Last(rects).width == Max(0, g + aw - Last(rects).x))
    && (forall i :: 0 < i < |rects| ==> rects[i].x == rects[i - 1].x + alloc[i - 1].Floor + g)
    && (forall i :: 0 <= i < |rects| - 1 ==> rects[i].width == Max(0, alloc[i].Floor))
  }

  method PlaceColumns(widths: seq<real>, g: int, aw: int, ah: int) returns (rects: seq<Rect>)
    requires ah >= 0
    ensures Placed(rects, widths, g, aw, ah)
  {
    var n := |widths|;
    rects := [];
    var x := g;
    for i := 0 to n
      invariant |rects| == i
      invariant i == 0 ==> x == g
      invariant 0 < i < n ==> x == rects[i - 1].x + widths[i - 1].Floor + g
      invariant i > 0 ==> rects[0].x == g
      invariant forall j :: 0 <= j < i ==> rects[j].y == g && rects[j].height == ah && rects[j].width >= 0
      invariant forall j :: 0 < j < i ==> rects[j].x == rects[j - 1].x + widths[j - 1].Floor + g
      invariant forall j :: 0 <= j < i && j < n - 1 ==> rects[j].width == Max(0, widths[j].Floor)
      invariant 0 < i == n ==> rects[n - 1].width == Max(0, g + aw - rects[n - 1].x)
    {
      var w := if i == n - 1 then g + aw - x else widths[i].Floor;
      rects := rects + [Clamped(x, g, w, ah)];
      x := x + w + g;
    }
  }

  lemma {:induction false} PlacedLeft(rects: seq<Rect>, alloc: seq<real>, g: int, aw: int, ah: int, i: nat)
    requires Placed(rects, alloc, g, aw, ah) && i < |rects|
    ensures rects[i].x == Left(alloc, g, i)
  {
    if i > 0 { PlacedLeft(rects, alloc, g, aw, ah, i - 1); }
  }

  /** Where the region holds the gaps, the columns tile it exactly: each but the last has its floored share, and
      the last one all that is left, at least its share. */
  lemma PlacedTiles(rects: seq<Rect>, alloc: seq<real>, g: int, width: int, ah: int)
    requires alloc != [] && g >= 0 && width >= Gaps(|alloc| + 1, g) && Sum(alloc) <= Room(|alloc|, width, g) as real
    requires forall i :: 0 <= i < |alloc| ==> alloc[i] >= 0.0
    requires Placed(rects, alloc, g, width - 2 * g, ah)
    ensures Tiles(rects, g, width)
    ensures forall i :: 0 <= i < |rects| - 1 ==> rects[i].width == alloc[i].Floor
    ensures Last(rects).width == Room(|alloc|, width, g) - FloorSum(Init(alloc)) && Last(rects).width as real >= Last(alloc)
  {
    LastPlaced(rects, alloc, g, width, ah);
    forall i | 0 <= i < |rects| - 1 ensures rects[i].width == alloc[i].Floor { assert alloc[i] >= 0.0; }
  }

  lemma LastPlaced(rects: seq<Rect>, alloc: seq<real>, g: int, width: int, ah: int)
    requires alloc != [] && g >= 0 && width >= Gaps(|alloc| + 1, g) && Sum(alloc) <= Room(|alloc|, width, g) as real
    requires Last(alloc) >= 0.0 && Placed(rects, alloc, g, width - 2 * g, ah)
    ensures Last(rects).width == width - g - Last(rects).x == Room(|alloc|, width, g) - FloorSum(Init(alloc))
    ensures Last(rects).width as real >= Last(alloc)
  {
    LastColumn(alloc, g, width);
    PlacedLeft(rects, alloc, g, width - 2 * g, ah, |rects| - 1);
  }

  /** What `columnsLayout` divides among the columns. */
  function ColumnWidths(weights: seq<real>, width: int, g: int, bounds: seq<ColumnBounds>): (r: seq<real>)
    ensures |r| == |weights|
  {
    Allocation(weights, bounds, Room(|weights|, width, g) as real)
  }

  /** `columnsLayout`. */
  method ColumnsLayout(weights: seq<real>, width: int, height: int, gap: int, bounds: seq<ColumnBounds>)
    returns (rects: seq<Rect>)
    ensures |rects| == |weights|
    ensures Placed(rects, ColumnWidths(weights, width, Max(0, gap), bounds), Max(0, gap),
                   Max(0, Max(0, width) - 2 * Max(0, gap)), Max(0, Max(0, height) - 2 * Max(0, gap)))
  {
    var n := |weights|;
    if n == 0 { return []; }
    var g := Max(0, gap);
    var aw, ah := Max(0, Max(0, width) - 2 * g), Max(0, Max(0, height) - 2 * g);
    var widths := AllocateColumns(weights, bounds, Room(n, width, g) as real);
    rects := PlaceColumns(widths, g, aw, ah);
  }

  /** Such a layout tiles a region that holds the gaps, whatever the bounds. */
  lemma LayoutTiles(rects: seq<Rect>, weights: seq<real>, width: int, g: int, ah: int, bounds: seq<ColumnBounds>)
    requires weights != [] && g >= 0 && width >= Gaps(|weights| + 1, g)
    requires Placed(rects, ColumnWidths(weights, width, g, bounds), g, Max(0, Max(0, width) - 2 * g), ah)
    ensures Tiles(rects, g, width)
    ensures forall i :: 0 <= i < |rects| - 1 ==> rects[i].width == ColumnWidths(weights, width, g, bounds)[i].Floor
    ensures Last(rects).width == Room(|weights|, width, g) - FloorSum(Init(ColumnWidths(weights, width, g, bounds)))
    ensures Last(rects).width as real >= Last(ColumnWidths(weights, width, g, bounds))
  {
    RoomIs(|weights|, width, g);
    AllocationFits(weights, bounds, Room(|weights|, width, g) as real);
    PlacedTiles(rects, ColumnWidths(weights, width, g, bounds), g, width, ah);
  }

  ghost predicate Whole(s: seq<real>) { forall i :: 0 <= i < |s| ==> s[i] == s[i].Floor as real }

  lemma {:induction false} FloorSumWhole(s: seq<real>)
    ensures FloorSum(s) as real == Sum(s) <==> Whole(s)
  {
    if s != [] {
      FloorSumWhole(Init(s));
      FloorSumBelow(Init(s));
      assert Whole(s) <==> Whole(Init(s)) && Last(s) == Last(s).Floor as real;
    }
  }

  /** The last column has no more than the allocation gave it if and only if the allocation leaves no room and
      gives the others whole pixels. */
  lemma LastColumnExactIff(rects: seq<Rect>, weights: seq<real>, width: int, g: int, ah: int, bounds: seq<ColumnBounds>)
    requires weights != [] && g >= 0 && width >= Gaps(|weights| + 1, g)
    requires Placed(rects, ColumnWidths(weights, width, g, bounds), g, Max(0, Max(0, width) - 2 * g), ah)
    ensures var alloc := ColumnWidths(weights, width, g, bounds);
            Last(rects).width as real <= Last(alloc)
            <==> Sum(alloc) == Room(|weights|, width, g) as real && Whole(Init(alloc))
  {
    var alloc := ColumnWidths(weights, width, g, bounds);
    LayoutTiles(rects, weights, width, g, ah, bounds);
    AllocationFits(weights, bounds, Room(|weights|, width, g) as real);
    FloorSumWhole(Init(alloc));
    FloorSumBelow(Init(alloc));
  }

  /** So a maximum on the last column need not survive: three equal columns in 101 pixels, the last at most 20. The
      others are allotted 40.5 each, and what flooring takes from them makes the last one 21 wide. */
  lemma FlooringBreaksMaximum(rects: seq<Rect>, ah: int)
    requires Placed(rects, ColumnWidths([1.0, 1.0, 1.0], 101, 0, [FREE, FREE, ColumnBounds(None, Some(20.0))]), 0, 101, ah)
    ensures Last(rects).width == 21
  {
    var w, bounds := [1.0, 1.0, 1.0], [FREE, FREE, ColumnBounds(None, Some(20.0))];
    var alloc := [40.5, 40.5, 20.0];
    CappedThirds(w, bounds);
    SumOfThree(alloc);
    GapsIs(2, 0);
    GapsIs(4, 0);
    assert Weights(w) == w && Room(3, 101, 0) == 101;
    assert ColumnWidths(w, 101, 0, bounds) == alloc;
    LayoutTiles(rects, w, 101, 0, ah, bounds);
    assert Init(alloc) == [40.5, 40.5] && Init([40.5, 40.5]) == [40.5];
    assert FloorSum([40.5]) == FloorSum(Init([40.5])) + 40;
    assert FloorSum(Init(alloc)) == FloorSum(Init(Init(alloc))) + 40;
  }

  lemma CappedThirds(w: seq<real>, bounds: seq<ColumnBounds>)
    requires w == [1.0, 1.0, 1.0] && bounds == [FREE, FREE, ColumnBounds(None, Some(20.0))]
    ensures Raw(w, bounds, 101.0) == [40.5, 40.5, 20.0]
  {
    var free, next: Pins := AllFree(3), [None, None, Some(20.0)];
    FreeIsAll(w);
    SumOfThree(w);
    assert free == [None, None, None] && free[2] != next[2];
    assert Pass(free, Shares(w, Scale(w, free, 101.0)), bounds) == next;
    OneOfThree(w, next);
    assert Scale(w, next, 101.0) == 40.5;
    assert Pass(next, Shares(w, 40.5), bounds) == next;
    assert Settle(next, w, bounds, 101.0, Scale(w, free, 101.0)) == (next, 40.5);
  }

  lemma OneOfThree(w: seq<real>, pins: Pins)
    requires |w| == |pins| == 3 && pins[0].None? && pins[1].None? && pins[2].Some?
    ensures FreeWeight(w, pins) == w[0] + w[1] && PinnedSum(pins) == pins[2].value
  {
    var w2, p2 := Init(w), Init(pins);
    assert Init(w2) == [w[0]] && Init(p2) == [None] && Init(Init(w2)) == [] && Init(Init(p2)) == [];
    assert FreeWeight(Init(w2), Init(p2)) == w[0];
    assert PinnedSum(Init(p2)) == 0.0;
  }

  // ----- Served minimums -----

  lemma {:induction false} TotalWidth(rects: seq<Rect>, widths: seq<real>, g: int, n: nat)
    requires n <= |rects| == |widths| && forall i :: 0 <= i < |rects| ==> rects[i].width as real == widths[i]
    requires forall i :: 0 < i < |rects| ==> rects[i].x == rects[i - 1].x + rects[i - 1].width + g
    ensures n > 0 ==> Sum(widths[..n]) == (rects[n - 1].x + rects[n - 1].width - rects[0].x - Gaps(n - 1, g)) as real
  {
    if n > 0 {
      TotalWidth(rects, widths, g, n - 1);
      assert Init(widths[..n]) == widths[..n - 1];
    }
  }

  lemma Serves(rects: seq<Rect>, alloc: seq<real>, bounds: seq<ColumnBounds>)
    requires rects != [] && |rects| == |alloc| && IntegralMins(bounds)
    requires forall i :: 0 <= i < |rects| - 1 ==> rects[i].width == alloc[i].Floor
    requires Last(rects).width as real >= Last(alloc)
    requires Honoured(alloc, bounds)
    ensures AllServed(rects, bounds)
  {
    forall i | 0 <= i < |rects| ensures rects[i].width as real >= Lo(BoundsAt(bounds, i)) {
      assert InBounds(alloc[i], BoundsAt(bounds, i));
      assert Lo(BoundsAt(bounds, i)) == Lo(BoundsAt(bounds, i)).Floor as real;
    }
  }

  lemma ServedFits(rects: seq<Rect>, bounds: seq<ColumnBounds>, g: int, width: int)
    requires rects != [] && g >= 0 && width >= Gaps(|rects| + 1, g) && Tiles(rects, g, width) && AllServed(rects, bounds)
    ensures Sum(Floors(|rects|, bounds)) <= Room(|rects|, width, g) as real
  {
    var n := |rects|;
    var widths := seq(n, i requires 0 <= i < n => rects[i].width as real);
    SumMonotone(Floors(n, bounds), widths);
    TotalWidth(rects, widths, g, n);
    assert widths[..n] == widths;
    RoomIs(n, width, g);
  }

  /** The claims that exceed the room, shrunk and floored, still leave every column its minimum; only the last one,
      which gets what flooring takes from the others, can be spared so. */
  ghost predicate Spared(claims: seq<real>, bounds: seq<ColumnBounds>, room: int) {
    && claims != [] && Sum(claims) > room as real && Sum(claims) > 0.0
    && var shrunk := Shares(claims, room as real / Sum(claims));
       && (forall i :: 0 <= i < |claims| - 1 ==> shrunk[i].Floor as real >= Lo(BoundsAt(bounds, i)))
       && (room - FloorSum(Init(shrunk))) as real >= Lo(BoundsAt(bounds, |claims| - 1))
  }

  /** With whole-pixel minimums: all are served if and only if the claims fit the room, or exceed it by so little
      that flooring spares the last column. Where the weights alone violate one kind of bound at most, that is if
      and only if the room holds the minimums. */
  lemma ServedIffRoom(rects: seq<Rect>, weights: seq<real>, width: int, g: int, ah: int, bounds: seq<ColumnBounds>)
    requires weights != [] && g >= 0 && width >= Gaps(|weights| + 1, g) && IntegralMins(bounds)
    requires Placed(rects, ColumnWidths(weights, width, g, bounds), g, Max(0, Max(0, width) - 2 * g), ah)
    ensures var room := Room(|weights|, width, g);
            var claims := Claims(Weights(weights), bounds, room as real);
            && (AllServed(rects, bounds) <==> Sum(claims) <= room as real || Spared(claims, bounds, room))
            && (Spared(claims, bounds, room) ==> Lo(BoundsAt(bounds, |weights| - 1)) > 0.0)
            && (AllServed(rects, bounds) ==> Sum(Floors(|weights|, bounds)) <= room as real)
            && (OneSided(Weights(weights), bounds, room as real) ==>
                  (AllServed(rects, bounds) <==> Sum(Floors(|weights|, bounds)) <= room as real))
  {
    var room := Room(|weights|, width, g) as real;
    LayoutTiles(rects, weights, width, g, ah, bounds);
    if AllServed(rects, bounds) { ServedFits(rects, bounds, g, width); }
    BoundsHonouredIff(weights, bounds, room);
    if Sum(Claims(Weights(weights), bounds, room)) <= room {
      Serves(rects, ColumnWidths(weights, width, g, bounds), bounds);
    } else {
      SparedIff(rects, weights, width, g, bounds);
    }
    if OneSided(Weights(weights), bounds, room) && Sum(Floors(|weights|, bounds)) <= room {
      OneSidedFills(weights, bounds, room);
    }
  }

  lemma SparedIff(rects: seq<Rect>, weights: seq<real>, width: int, g: int, bounds: seq<ColumnBounds>)
    requires weights != [] && |rects| == |weights| && IntegralMins(bounds)
    requires var alloc := ColumnWidths(weights, width, g, bounds);
             && (forall i :: 0 <= i < |rects| - 1 ==> rects[i].width == alloc[i].Floor)
             && Last(rects).width == Room(|weights|, width, g) - FloorSum(Init(alloc))
    requires var room := Room(|weights|, width, g) as real; Sum(Claims(Weights(weights), bounds, room)) > room
    ensures var room := Room(|weights|, width, g);
            var claims := Claims(Weights(weights), bounds, room as real);
            && (AllServed(rects, bounds) <==> Spared(claims, bounds, room))
            && (Spared(claims, bounds, room) ==> Lo(BoundsAt(bounds, |weights| - 1)) > 0.0)
  {
    var room, alloc := Room(|weights|, width, g), ColumnWidths(weights, width, g, bounds);
    var claims := Claims(Weights(weights), bounds, room as real);
    var shrunk := Shares(claims, room as real / Sum(claims));
    forall i | 0 <= i < |claims| ensures alloc[i] == shrunk[i] { ClaimsShrink(weights, bounds, room as real, i); }
    assert alloc == shrunk;
    var i := SqueezedFloor(Weights(weights), bounds, room as real);
    ProperFraction(room as real, Sum(claims));
    ShrinksStrictly(claims[i], room as real / Sum(claims));
    assert Lo(BoundsAt(bounds, i)) == Lo(BoundsAt(bounds, i)).Floor as real;
  }

  /** A minimum of 56 beside a maximum of 45 in 100 pixels: one pixel too much is claimed, and flooring the first
      column gives it back. */
  lemma FlooringSparesMinimum()
    ensures var bounds := [ColumnBounds(None, Some(45.0)), ColumnBounds(Some(56.0), None)];
            Claims([1.0, 1.0], bounds, 100.0) == [45.0, 56.0] && Spared([45.0, 56.0], bounds, 100)
  {
    var w := [1.0, 1.0];
    SumOfTwo(w);
    assert Opening(w, 100.0) == 50.0;
    var claims := [45.0, 56.0];
    SumOfTwo(claims);
    var shrunk := Shares(claims, 100.0 / 101.0);
    assert shrunk[0] == 4500.0 / 101.0 && shrunk[0].Floor == 44;
    assert Init(shrunk) == [shrunk[0]] && FloorSum(Init(shrunk)) == FloorSum(Init([shrunk[0]])) + 44;
  }

  // ----- Measuring -----

  /** What one column asks for: its pitch, kept within its bounds plus its share of the gaps. */
  function Want(pitch: real, b: ColumnBounds, share: real): real {
    var v0 := MaxReal(0.0, pitch);
    var v1 := if b.max.Some? && v0 > b.max.value + share then b.max.value + share else v0;
    var v2 := if b.min.Some? && v1 < b.min.value + share then b.min.value + share else v1;
    MaxReal(0.0, v2)
  }

  /** A pitch within the bounds, each of which has its share of the gaps on top, is what a column asks for; a smaller one
      counts as the minimum, a larger one as the maximum, and a minimum above the maximum wins. */
  lemma WantIs(pitch: real, b: ColumnBounds, share: real)
    requires (b.min.Some? ==> b.min.value > 0.0) && (b.max.Some? ==> b.max.value > 0.0) && share >= 0.0 && pitch >= 0.0
    ensures var want := Want(pitch, b, share);
            var below := b.min.Some? && pitch < b.min.value + share;
            var above := b.max.Some? && pitch > b.max.value + share;
            && (!below && !above ==> want == pitch)
            && (below ==> want == b.min.value + share)
            && (above && (b.min.None? || b.min.value <= b.max.value) ==> want == b.max.value + share)
            && (above && b.min.Some? && b.min.value > b.max.value ==> want == b.min.value + share)
  {
  }

  /** The shares add up to the gaps around and between the columns. */
  lemma GapSharesAddUp(n: nat, g: int)
    requires n > 0
    ensures n as real * GapShare(n, g) == ((n + 1) * g) as real
  {
    GapsIs(n + 1, g);
    GapShares(n, g);
    assert Share(n as real, GapShare(n, g)) == n as real * GapShare(n, g);
  }

  function Wants(pitches: seq<real>, bounds: seq<ColumnBounds>, share: real): (r: seq<real>)
    ensures |r| == |pitches|
  {
    seq(|pitches|, i requires 0 <= i < |pitches| => Want(pitches[i], BoundsAt(bounds, i), share))
  }

  function GapShare(n: nat, g: int): real
    requires n > 0
  {
    Gaps(n + 1, g) as real / n as real
  }

  /** Bounds as the plugin extracts them: present ones are positive. */
  ghost predicate PositiveBounds(bounds: seq<ColumnBounds>) {
    forall i :: 0 <= i < |bounds| ==>
      (bounds[i].min.Some? ==> bounds[i].min.value > 0.0) && (bounds[i].max.Some? ==> bounds[i].max.value > 0.0)
  }

  /** An unbounded column asks for at least its share of the gaps. */
  ghost predicate CoversGaps(pitches: seq<real>, bounds: seq<ColumnBounds>, share: real) {
    forall i :: 0 <= i < |pitches| ==> BoundsAt(bounds, i).min.Some? || pitches[i] >= share
  }

  lemma {:induction false} SumShares(lo: seq<real>, wants: seq<real>, share: real)
    requires |lo| == |wants| && forall i :: 0 <= i < |lo| ==> wants[i] >= lo[i] + share
    ensures Sum(wants) >= Sum(lo) + Share(|lo| as real, share)
  {
    if lo != [] {
      SumShares(Init(lo), Init(wants), share);
      assert Share(|lo| as real, share) == Share((|lo| - 1) as real, share) + share;
    }
  }

  lemma GapShares(n: nat, g: int)
    requires n > 0
    ensures Share(n as real, GapShare(n, g)) == Gaps(n + 1, g) as real
  {
    Divide(Gaps(n + 1, g) as real, n as real);
  }

  lemma ShareNonNegative(n: nat, g: int)
    requires n > 0 && g >= 0
    ensures GapShare(n, g) >= 0.0
  {
    assert Gaps(n + 1, g) >= 0;
  }

  lemma {:induction false} SumIntegral(s: seq<real>)
    requires forall i :: 0 <= i < |s| ==> s[i] == s[i].Floor as real
    ensures Sum(s) == FloorSum(s) as real
  {
    if s != [] { SumIntegral(Init(s)); }
  }

  /** Rounding the total once keeps room for every minimum and every gap. */
  lemma MeasureIsEnough(pitches: seq<real>, bounds: seq<ColumnBounds>, g: int, width: int)
    requires pitches != [] && g >= 0 && IntegralMins(bounds) && PositiveBounds(bounds)
    requires CoversGaps(pitches, bounds, GapShare(|pitches|, g))
    requires width >= Round(Sum(Wants(pitches, bounds, GapShare(|pitches|, g))))
    ensures width >= Gaps(|pitches| + 1, g)
    ensures Sum(Floors(|pitches|, bounds)) <= Room(|pitches|, width, g) as real
  {
    var n, share := |pitches|, GapShare(|pitches|, g);
    var wants, lo := Wants(pitches, bounds, share), Floors(n, bounds);
    ShareNonNegative(n, g);
    WantsServe(pitches, bounds, share);
    SumShares(lo, wants, share);
    GapShares(n, g);
    SumIntegral(lo);
    FloorsNonNegative(lo);
    RoomEnough(n, g, width, FloorSum(lo), Sum(wants));
  }

  lemma WantsServe(pitches: seq<real>, bounds: seq<ColumnBounds>, share: real)
    requires share >= 0.0 && IntegralMins(bounds) && PositiveBounds(bounds) && CoversGaps(pitches, bounds, share)
    ensures var wants, lo := Wants(pitches, bounds, share), Floors(|pitches|, bounds);
            forall i :: 0 <= i < |pitches| ==> wants[i] >= lo[i] + share && lo[i] == lo[i].Floor as real
  {
    forall i | 0 <= i < |pitches|
      ensures Want(pitches[i], BoundsAt(bounds, i), share) >= Lo(BoundsAt(bounds, i)) + share
      ensures Lo(BoundsAt(bounds, i)) == Lo(BoundsAt(bounds, i)).Floor as real
    {
      WantServes(pitches[i], BoundsAt(bounds, i), share);
    }
  }

  lemma {:induction false} FloorsNonNegative(s: seq<real>)
    requires forall i :: 0 <= i < |s| ==> s[i] >= 0.0
    ensures FloorSum(s) >= 0
  {
    if s != [] { FloorsNonNegative(Init(s)); }
  }

  lemma RoomEnough(n: nat, g: int, width: int, total: nat, natural: real)
    requires n > 0 && g >= 0 && natural >= total as real + Gaps(n + 1, g) as real && width >= Round(natural)
    ensures width >= Gaps(n + 1, g) && total <= Room(n, width, g)
  {
    assert width >= total + Gaps(n + 1, g);
    RoomIs(n, width, g);
  }

  lemma WantServes(pitch: real, b: ColumnBounds, share: real)
    requires (b.min.Some? ==> b.min.value > 0.0) && (b.max.Some? ==> b.max.value > 0.0)
    requires share >= 0.0 && (b.min.Some? || pitch >= share)
    ensures Want(pitch, b, share) >= Lo(b) + share
  {
  }

  /** `columnsMeasure`. */
  method ColumnsMeasure(pitches: seq<real>, width: int, height: int, gap: int, bounds: seq<ColumnBounds>)
    returns (w: int, h: int)
    ensures h == height
    ensures pitches == [] ==> w == width
    ensures pitches != [] ==> w == Max(width, Round(Sum(Wants(pitches, bounds, GapShare(|pitches|, Max(0, gap))))))
  {
    var n := |pitches|;
    if n == 0 { return width, height; }
    var g := Max(0, gap);
    var share := GapShare(n, g);
    var natural := 0.0;
    ghost var wants := Wants(pitches, bounds, share);
    for i := 0 to n
      invariant natural == Sum(wants[..i])
    {
      assert Init(wants[..i + 1]) == wants[..i];
      var b := BoundsAt(bounds, i);
      var v := MaxReal(0.0, pitches[i]);
      if b.max.Some? && v > b.max.value + share { v := b.max.value + share; }
      if b.min.Some? && v < b.min.value + share { v := b.min.value + share; }
      natural := natural + MaxReal(0.0, v);
    }
    assert wants[..n] == wants;
    return Max(width, Round(natural)), height;
  }

  // ----- Measured, then laid out -----

  lemma WantExact(pitch: real, b: ColumnBounds)
    requires pitch >= 0.0 && (b.min.Some? ==> b.min.value > 0.0) && (b.max.Some? ==> b.max.value > 0.0)
    ensures Want(pitch, b, 0.0) == Clamp(pitch, b)
  {
  }

  /** Without gaps, what the columns ask for is their targets at the level of the workarea's width. */
  lemma WantsAreTargets(fractions: seq<real>, bounds: seq<ColumnBounds>, workarea: int)
    requires PositiveBounds(bounds) && workarea >= 0 && forall i :: 0 <= i < |fractions| ==> fractions[i] >= 0.000001
    ensures var wants := Wants(Shares(fractions, workarea as real), bounds, 0.0);
            && wants == Targets(fractions, bounds, workarea as real) && Sum(wants) >= 0.0
            && Weights(fractions) == fractions && Positive(fractions)
  {
    var wants := Wants(Shares(fractions, workarea as real), bounds, 0.0);
    forall i | 0 <= i < |fractions| ensures wants[i] == Clamp(Share(fractions[i], workarea as real), BoundsAt(bounds, i)) {
      Times(fractions[i], 0.0, workarea as real);
      WantExact(Shares(fractions, workarea as real)[i], BoundsAt(bounds, i));
    }
    SumNonNegative(wants);
    assert Weights(fractions) == fractions;
  }

  lemma {:induction false} SumNonNegative(s: seq<real>)
    requires forall i :: 0 <= i < |s| ==> s[i] >= 0.0
    ensures Sum(s) >= 0.0
  {
    if s != [] { SumNonNegative(Init(s)); }
  }

  /** A region of exactly the natural width lands every column on its target if and only if every bound that the
      fractions of that region alone would violate is the target of its column. */
  lemma TargetsHitIff(fractions: seq<real>, bounds: seq<ColumnBounds>, workarea: int, avail: real)
    requires fractions != [] && PositiveBounds(bounds) && workarea >= 0
    requires forall i :: 0 <= i < |fractions| ==> fractions[i] >= 0.000001
    requires avail == Sum(Wants(Shares(fractions, workarea as real), bounds, 0.0))
    ensures var wants := Wants(Shares(fractions, workarea as real), bounds, 0.0);
            Allocation(fractions, bounds, avail) == wants <==> OpensOnTarget(fractions, bounds, avail, wants)
  {
    WantsAreTargets(fractions, bounds, workarea);
    AllocationFoundIff(fractions, bounds, avail, workarea as real);
  }

  /** In particular where they violate one kind of bound at most. */
  lemma MeasuredExactly(fractions: seq<real>, bounds: seq<ColumnBounds>, workarea: int, avail: real)
    requires fractions != [] && PositiveBounds(bounds) && workarea >= 0
    requires forall i :: 0 <= i < |fractions| ==> fractions[i] >= 0.000001
    requires avail == Sum(Wants(Shares(fractions, workarea as real), bounds, 0.0))
    requires OneSided(fractions, bounds, avail)
    ensures Allocation(fractions, bounds, avail) == Wants(Shares(fractions, workarea as real), bounds, 0.0)
  {
    WantsAreTargets(fractions, bounds, workarea);
    OneSidedOpens(fractions, bounds, avail, workarea as real);
    TargetsHitIff(fractions, bounds, workarea, avail);
  }

  /** With both kinds a measured region can miss: 40%, 40% and 20% of 100 pixels, a minimum of 70 and a maximum of
      50 that the target does not reach. The natural width is 130, and the first pass pins the second column at 50. */
  lemma MixedBoundsMissTarget()
    ensures var fractions := [0.4, 0.4, 0.2];
            var bounds := [ColumnBounds(Some(70.0), None), ColumnBounds(None, Some(50.0)), FREE];
            && Wants(Shares(fractions, 100.0), bounds, 0.0) == [70.0, 40.0, 20.0]
            && Sum([70.0, 40.0, 20.0]) == 130.0
            && First(fractions, bounds, 130.0) == [Some(70.0), Some(50.0), None]
            && Allocation(fractions, bounds, 130.0) != [70.0, 40.0, 20.0]
  {
    var fractions := [0.4, 0.4, 0.2];
    var bounds := [ColumnBounds(Some(70.0), None), ColumnBounds(None, Some(50.0)), FREE];
    var wants := Wants(Shares(fractions, 100.0), bounds, 0.0);
    assert wants == [70.0, 40.0, 20.0];
    SumOfThree(wants);
    SumOfThree(fractions);
    assert Opening(fractions, 130.0) == 130.0;
    var first := First(fractions, bounds, 130.0);
    assert Shares(fractions, 130.0) == [52.0, 52.0, 26.0];
    assert first == [Some(70.0), Some(50.0), None];
    assert first[1] == Bound(Share(fractions[1], 130.0), BoundsAt(bounds, 1));
    TargetsHitIff(fractions, bounds, 100, 130.0);
  }

  lemma SumOfThree(s: seq<real>)
    requires |s| == 3
    ensures Sum(s) == s[0] + s[1] + s[2]
  {
    SumOfTwo(Init(s));
  }
}
