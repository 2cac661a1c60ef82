/** The master-stack layout. */
module MasterStack {
  import opened Seqs
  import opened Numbers
  import opened Columns
  import opened WaterFill
  import opened Tiling

  function Transposed(r: Rect): Rect { Rect(r.y, r.x, r.height, r.width) }

  function Rotated(rects: seq<Rect>): seq<Rect> {
    seq(|rects|, i requires 0 <= i < |rects| => Transposed(rects[i]))
  }

  /** The master fills the left column; the stack tiles the right one top to bottom, ending where the region
      does, its last slice taking what equal division leaves. */
  ghost predicate MasterAndStack(rects: seq<Rect>, width: int, height: int, g: int) {
    && |rects| >= 2
    && rects[0].x == g && rects[0].y == g && rects[0].width >= 0 && rects[0].height == height - 2 * g
    && (forall i :: 1 <= i < |rects| ==>
          rects[i].x == g + rects[0].width + g && rects[i].x + rects[i].width == width - g && rects[i].width >= 0)
    && Tiles(Rotated(rects[1..]), g, height)
    && (forall i :: 1 <= i < |rects| - 1 ==> rects[i].height == rects[1].height)
    && (|rects| > 2 ==> rects[1].height <= Last(rects).height < rects[1].height + |rects| - 1)
  }

  /** Such rectangles are pairwise disjoint and inside the region. */
  lemma MasterStackDisjoint(rects: seq<Rect>, width: int, height: int, g: int, i: nat, j: nat)
    requires MasterAndStack(rects, width, height, g) && g >= 0 && i < j < |rects|
    ensures Disjoint(rects[i], rects[j])
    ensures Inside(rects[j], width, height) && (height >= 2 * g ==> Inside(rects[0], width, height))
  {
    var stack := Rotated(rects[1..]);
    assert stack[j - 1] == Transposed(rects[j]);
    TilesInside(stack, g, height, j - 1);
    if i > 0 {
      assert stack[i - 1] == Transposed(rects[i]);
      TilesApart(stack, g, height, i - 1, j - 1);
    }
  }

  /** Equal slices of `ah` in `k` rows with `k - 1` gaps. */
  lemma Slices(ah: int, g: int, k: int, slice: int)
    requires k >= 1 && ah >= (k - 1) * g && slice == (ah - (k - 1) * g) / k
    ensures 0 <= slice && 0 <= ah - (k - 1) * (slice + g) - slice < k
  {
    var n := ah - (k - 1) * g;
    assert k * slice + n % k == n;
    assert k * slice == (k - 1) * slice + slice;
    assert (k - 1) * (slice + g) == (k - 1) * slice + (k - 1) * g;
  }

  function MasterFraction(f: real): real { MinReal(0.95, MaxReal(0.05, f)) }

  /** The master's part of the room both columns share. */
  function MasterWidth(room: int, frac: real): int { Round(room as real * frac) }

  function SliceHeight(ah: int, g: int, k: nat): int
    requires k >= 1
  {
    (ah - (k - 1) * g) / k
  }

  /** The region holds the gaps of `n` windows. */
  predicate Roomy(n: int, width: int, height: int, g: int) { width >= 3 * g && height >= Gaps(n, g) }

  /** The fraction kept within a twentieth of either end. */
  function Moderate(fraction: real): real {
    if fraction < 0.05 then 0.05 else if fraction > 0.95 then 0.95 else fraction
  }

  /** The master's share of what both columns divide, to the nearest pixel, a tie going up. */
  ghost predicate MasterShare(master: int, room: int, fraction: real) {
    Nearest(master, Part(Moderate(fraction), room))
  }

  function Part(fraction: real, room: int): real { fraction * room as real }

  ghost predicate Nearest(n: int, x: real) { -0.5 < n as real - x <= 0.5 }

  lemma MasterIsShare(room: int, fraction: real)
    ensures MasterShare(MasterWidth(room, MasterFraction(fraction)), room, fraction)
  {
    RoundNearest(room as real * MasterFraction(fraction));
    assert MasterFraction(fraction) == Moderate(fraction);
  }

  lemma RoundNearest(x: real)
    ensures Nearest(Round(x), x)
  {
  }

  /** A larger fraction never gives a narrower master. */
  lemma MasterGrows(a: int, b: int, room: int, f: real, g: real)
    requires MasterShare(a, room, f) && MasterShare(b, room, g) && room >= 0 && f <= g
    ensures a <= b
  {
    Grows(room, Moderate(f), Moderate(g));
    NearestOrder(a, b, Part(Moderate(f), room), Part(Moderate(g), room));
  }

  lemma Grows(room: int, lo: real, hi: real)
    requires room >= 0 && lo <= hi
    ensures Part(lo, room) <= Part(hi, room)
  {
  }

  lemma NearestOrder(a: int, b: int, x: real, y: real)
    requires Nearest(a, x) && Nearest(b, y) && x <= y
    ensures a <= b
  {
  }

  /** With 0.6 of 1000 pixels the master is 600 wide. */
  lemma MasterAtSixTenths(master: int)
    requires MasterShare(master, 1000, 0.6)
    ensures master == 600
  {
  }

  method MasterStackLayout(windowCount: int, width: int, height: int, gap: int, masterFraction: real)
    returns (rects: seq<Rect>)
    ensures |rects| == Max(0, windowCount)
    ensures windowCount == 1 ==>
              var g := Max(0, gap);
              rects[0] == Rect(g, g, Max(0, Max(0, width) - 2 * g), Max(0, Max(0, height) - 2 * g))
    ensures var g := Max(0, gap);
            windowCount >= 2 && Roomy(windowCount, width, height, g) ==>
              MasterAndStack(rects, width, height, g) && MasterShare(rects[0].width, width - 3 * g, masterFraction)
  {
    MasterIsShare(width - 3 * Max(0, gap), masterFraction);
    if windowCount <= 0 { return []; }
    var g := Max(0, gap);
    var aw, ah := Max(0, Max(0, width) - 2 * g), Max(0, Max(0, height) - 2 * g);
    if windowCount == 1 { return [Clamped(g, g, aw, ah)]; }
    rects := MasterThenStack(windowCount - 1, width, height, g, aw, ah, MasterFraction(masterFraction));
  }

  method MasterThenStack(k: nat, width: int, height: int, g: int, aw: int, ah: int, frac: real) returns (rects: seq<Rect>)
    requires k >= 1 && g >= 0 && 0.05 <= frac <= 0.95
    requires aw == Max(0, Max(0, width) - 2 * g) && ah == Max(0, Max(0, height) - 2 * g)
    ensures |rects| == k + 1
    ensures Roomy(k + 1, width, height, g) ==>
              MasterAndStack(rects, width, height, g) && rects[0].width == MasterWidth(width - 3 * g, frac)
  {
    var masterW := Max(0, MasterWidth(aw - g, frac));
    var stackW := Max(0, aw - g - masterW);
    rects := [Clamped(g, g, masterW, ah)];
    var slice := SliceHeight(ah, g, k);
    var stack := Stack(g + masterW + g, stackW, g, ah, slice, k);
    rects := rects + stack;
    if Roomy(k + 1, width, height, g) {
      RowsFit(height, g, k);
      Assembled(width, height, g, k, masterW, frac, slice, stack);
    }
  }

  lemma Assembled(width: int, height: int, g: int, k: nat, masterW: int, frac: real, slice: int, stack: seq<Rect>)
    requires k >= 1 && g >= 0 && Roomy(k + 1, width, height, g) && 0.05 <= frac <= 0.95
    requires masterW == Max(0, MasterWidth(width - 3 * g, frac))
    requires slice == SliceHeight(height - 2 * g, g, k)
    requires Stacked(stack, g + masterW + g, Max(0, width - 3 * g - masterW), g, height - 2 * g, slice, k)
    ensures masterW == MasterWidth(width - 3 * g, frac)
    ensures MasterAndStack([Clamped(g, g, masterW, height - 2 * g)] + stack, width, height, g)
  {
    MasterFits(width - 3 * g, frac);
    EqualSlices(stack, g + masterW + g, width - 3 * g - masterW, g, height, slice, k);
    Shape(Clamped(g, g, masterW, height - 2 * g), stack, width, height, g, slice);
  }

  lemma Shape(master: Rect, stack: seq<Rect>, width: int, height: int, g: int, slice: int)
    requires master == Rect(g, g, master.width, height - 2 * g) && master.width >= 0 && stack != []
    requires Tiles(Rotated(stack), g, height)
    requires forall i :: 0 <= i < |stack| ==>
      stack[i].x == g + master.width + g && stack[i].width == width - 3 * g - master.width >= 0
    requires forall i :: 0 <= i < |stack| - 1 ==> stack[i].height == slice
    requires slice <= Last(stack).height < slice + |stack|
    ensures MasterAndStack([master] + stack, width, height, g)
  {
    var rects := [master] + stack;
    assert rects[1..] == stack;
    forall i | 1 <= i < |rects| ensures rects[i] == stack[i - 1] { }
    if |stack| == 1 { assert rects[1] == stack[0]; }
  }

  lemma RowsFit(height: int, g: int, k: nat)
    requires k >= 1 && g >= 0 && height >= Gaps(k + 1, g)
    ensures height - 2 * g >= (k - 1) * g >= 0 && height >= 2 * g
  {
    GapsIs(k + 1, g);
    assert (k + 1) * g == 2 * g + (k - 1) * g;
    assert (k - 1) * g >= 0;
  }

  lemma MasterFits(n: int, frac: real)
    requires n >= 0 && 0.05 <= frac <= 0.95
    ensures 0 <= MasterWidth(n, frac) <= n
  {
    Shrinks(n as real, frac);
    assert Share(n as real, frac) == n as real * frac;
  }

  lemma EqualSlices(stack: seq<Rect>, x: int, w: int, g: int, height: int, slice: int, k: nat)
    requires k >= 1 && w >= 0 && g >= 0 && height >= Gaps(k + 1, g) && slice == SliceHeight(height - 2 * g, g, k)
    requires Stacked(stack, x, w, g, height - 2 * g, slice, k)
    ensures Tiles(Rotated(stack), g, height) && height >= 2 * g
    ensures forall i :: 0 <= i < k ==> stack[i].x == x && stack[i].width == w
    ensures forall i :: 0 <= i < k - 1 ==> stack[i].height == slice
    ensures slice <= stack[k - 1].height < slice + k
  {
    RowsFit(height, g, k);
    Slices(height - 2 * g, g, k, slice);
    StackTiles(stack, x, w, g, height - 2 * g, slice, k);
  }

  ghost predicate Stacked(rects: seq<Rect>, x: int, w: int, g: int, ah: int, slice: int, k: int) {
    && |rects| == k
    && forall i :: 0 <= i < k ==>
         rects[i] == Clamped(x, g + i * (slice + g), w, if i == k - 1 then ah - i * (slice + g) else slice)
  }

  /** The slices, the last one down to the end of the column. */
  method Stack(x: int, w: int, g: int, ah: int, slice: int, k: nat) returns (rects: seq<Rect>)
    ensures Stacked(rects, x, w, g, ah, slice, k)
  {
    rects := [];
    for i := 0 to k
      invariant |rects| == i
      invariant forall j :: 0 <= j < i ==>
        rects[j] == Clamped(x, g + j * (slice + g), w, if j == k - 1 then ah - j * (slice + g) else slice)
    {
      var y := g + i * (slice + g);
      var h := if i == k - 1 then g + ah - y else slice;
      rects := rects + [Clamped(x, y, w, h)];
    }
  }

  lemma StackTiles(rects: seq<Rect>, x: int, w: int, g: int, ah: int, slice: int, k: nat)
    requires Stacked(rects, x, w, g, ah, slice, k) && k >= 1 && w >= 0 && g >= 0 && slice >= 0
    requires 0 <= ah - (k - 1) * (slice + g) - slice < k
    ensures Tiles(Rotated(rects), g, ah + 2 * g)
    ensures forall i :: 0 <= i < k ==> rects[i].x == x && rects[i].width == w
    ensures forall i :: 0 <= i < k - 1 ==> rects[i].height == slice
    ensures slice <= rects[k - 1].height < slice + k
  {
    var t := Rotated(rects);
    forall i | 0 < i < k ensures t[i].x == t[i - 1].x + t[i - 1].width + g {
      assert rects[i].y == g + i * (slice + g) && rects[i - 1].y == g + (i - 1) * (slice + g);
      assert i * (slice + g) == (i - 1) * (slice + g) + (slice + g);
    }
    assert rects[0].y == g + 0 * (slice + g);
  }
}
