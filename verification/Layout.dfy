/** The layout plugin: measuring an island and laying it out from the same window sizes. */
module Layout {
  import opened Seqs
  import opened Numbers
  import opened Columns
  import opened WaterFill
  import opened Tiling
  import opened MasterStack

  datatype Mode = Stacking | Columnar

  datatype Params = Params(mode: Mode, masterFraction: real, column: real, gap: int)

  /** An island's layout hint, its recognised fields only. */
  datatype Hint = Hint(mode: Option<Mode>, column: Option<real>, columns: Option<seq<real>>)

  datatype Window = Window(id: int, minWidth: Option<real>, maxWidth: Option<real>)

  const COLUMN_MIN := 0.1
  const COLUMN_MAX := 1.0

  function Clip(x: real): (r: real)
    ensures COLUMN_MIN <= r <= COLUMN_MAX
  {
    MinReal(COLUMN_MAX, MaxReal(COLUMN_MIN, x))
  }

  function ModeOf(p: Params, hint: Hint): Mode {
    if hint.mode.Some? then hint.mode.value else p.mode
  }

  /** The declared width of the column at position `i`. */
  function Seed(p: Params, hint: Hint, i: nat): real {
    if hint.columns.Some? && i < |hint.columns.value| then Clip(hint.columns.value[i])
    else if hint.column.Some? then Clip(hint.column.value)
    else p.column
  }

  /** A window the user resized keeps its width; any other follows its island. */
  function EffectiveWidth(colWidths: map<int, real>, p: Params, hint: Hint, windows: seq<Window>, i: nat): real
    requires i < |windows|
  {
    if windows[i].id in colWidths then colWidths[windows[i].id] else Seed(p, hint, i)
  }

  /** A width kept between a tenth and all of the workarea. */
  predicate Kept(x: real, r: real) {
    if x < 0.1 then r == 0.1 else if x > 1.0 then r == 1.0 else r == x
  }

  /** Which width a window gets: its own if the user gave it one; else what the island declares for its position; past
      the declared positions the island's common width; on an island that declares nothing the configured one.
      Declared widths are kept within the limits. */
  lemma WidthApplies(colWidths: map<int, real>, p: Params, hint: Hint, windows: seq<Window>, i: nat)
    requires i < |windows|
    ensures var f, id := Fractions(colWidths, p, hint, windows)[i], windows[i].id;
            && (id in colWidths ==> f == colWidths[id])
            && (id !in colWidths && hint.columns.Some? && i < |hint.columns.value| ==> Kept(hint.columns.value[i], f))
            && (id !in colWidths && (hint.columns.None? || i >= |hint.columns.value|) && hint.column.Some? ==>
                  Kept(hint.column.value, f))
            && (id !in colWidths && (hint.columns.None? || i >= |hint.columns.value|) && hint.column.None? ==> f == p.column)
  {
  }

  /** The island's own mode decides, else the configured one. */
  lemma ModeApplies(p: Params, hint: Hint)
    ensures ModeOf(p, hint) == Columnar <==> hint.mode == Some(Columnar) || (hint.mode == None && p.mode == Columnar)
  {
  }

  /** A positive stated size constrains a window's column; any other does not. */
  lemma SizesConstrain(windows: seq<Window>, i: nat)
    requires i < |windows|
    ensures var b, min, max := Bounds(windows)[i], windows[i].minWidth, windows[i].maxWidth;
            && (forall x :: b.min == Some(x) <==> min == Some(x) && x > 0.0)
            && (forall x :: b.max == Some(x) <==> max == Some(x) && x > 0.0)
  {
  }

  function Fractions(colWidths: map<int, real>, p: Params, hint: Hint, windows: seq<Window>): (r: seq<real>)
    ensures |r| == |windows|
  {
    seq(|windows|, i requires 0 <= i < |windows| => EffectiveWidth(colWidths, p, hint, windows, i))
  }

  /** `widthBounds`: a size that is not positive does not constrain. */
  function WidthBounds(w: Window): ColumnBounds {
    ColumnBounds(if w.minWidth.Some? && w.minWidth.value > 0.0 then w.minWidth else None,
                 if w.maxWidth.Some? && w.maxWidth.value > 0.0 then w.maxWidth else None)
  }

  function Bounds(windows: seq<Window>): (r: seq<ColumnBounds>)
    ensures |r| == |windows| && PositiveBounds(r)
  {
    seq(|windows|, i requires 0 <= i < |windows| => WidthBounds(windows[i]))
  }

  function Shifted(r: Rect, x: int, y: int): Rect { Rect(r.x + x, r.y + y, r.width, r.height) }

  function ShiftedAll(rects: seq<Rect>, x: int, y: int): (r: seq<Rect>)
    ensures |r| == |rects|
  {
    seq(|rects|, i requires 0 <= i < |rects| => Shifted(rects[i], x, y))
  }

  /** The windows state whole-pixel minimums, if any, and the unbounded ones pay for their gaps. */
  ghost predicate Measurable(windows: seq<Window>, fractions: seq<real>, width: int, g: int)
    requires windows != []
  {
    && IntegralMins(Bounds(windows))
    && CoversGaps(Shares(fractions, width as real), Bounds(windows), GapShare(|windows|, g))
  }

  /** What `measure` reports for columns. */
  ghost predicate Measured(windows: seq<Window>, fractions: seq<real>, width: int, g: int, w: int)
    requires windows != []
  {
    w == Max(width, Round(Sum(Wants(Shares(fractions, width as real), Bounds(windows), GapShare(|windows|, g)))))
  }

  /** The columns stand where the widths of their windows' fractions put them. */
  ghost predicate Laid(rects: seq<Rect>, windows: seq<Window>, fractions: seq<real>, width: int, height: int, g: int)
    requires |fractions| == |windows|
  {
    Placed(rects, ColumnWidths(fractions, width, g, Bounds(windows)), g,
           Max(0, Max(0, width) - 2 * g), Max(0, Max(0, height) - 2 * g))
  }

  /** Dividing the region by the windows' fractions alone violates one kind of bound at most. */
  ghost predicate OneKind(windows: seq<Window>, fractions: seq<real>, width: int, g: int) {
    OneSided(Weights(fractions), Bounds(windows), Room(|windows|, width, g) as real)
  }

  /** What the columns claim by the windows' fractions and bounds. */
  function ClaimsOf(windows: seq<Window>, fractions: seq<real>, width: int, g: int): seq<real> {
    Claims(Weights(fractions), Bounds(windows), Room(|windows|, width, g) as real)
  }

  /** The claims fit the region, or exceed it by so little that flooring spares the last column. */
  ghost predicate Roomful(windows: seq<Window>, fractions: seq<real>, width: int, g: int) {
    var claims, room := ClaimsOf(windows, fractions, width, g), Room(|windows|, width, g);
    Sum(claims) <= room as real || Spared(claims, Bounds(windows), room)
  }

  /** Without gaps, an island whose natural width is whole and covers the workarea gets it, and every column is as
      wide as its window asked for, if and only if each bound the fractions alone would violate is asked for. */
  ghost predicate Lands(rects: seq<Rect>, windows: seq<Window>, fractions: seq<real>, width: int, height: int, w: int)
    requires windows != [] && |fractions| == |windows|
  {
    var wants := Wants(Shares(fractions, width as real), Bounds(windows), 0.0);
    0.0 <= width as real <= Sum(wants) && Sum(wants) == Sum(wants).Floor as real ==>
      && w as real == Sum(wants)
      && (ColumnWidths(fractions, w, 0, Bounds(windows)) == wants
          <==> OpensOnTarget(fractions, Bounds(windows), w as real, wants))
      && (OpensOnTarget(fractions, Bounds(windows), w as real, wants) ==> Placed(rects, wants, 0, w, Max(0, height)))
  }

  /** An island laid out in the size it measured: tiled exactly where the measure reserved the gaps, with every
      minimum served if and only if the claims allow, as they do where the fractions alone violate one kind of
      bound at most. */
  ghost predicate Arranged(rects: seq<Rect>, windows: seq<Window>, fractions: seq<real>,
                           width: int, height: int, g: int, w: int)
    requires windows != [] && |fractions| == |windows|
  {
    && Laid(rects, windows, fractions, w, height, g)
    && (Measurable(windows, fractions, width, g) ==>
          && Tiles(rects, g, w)
          && (AllServed(rects, Bounds(windows)) <==> Roomful(windows, fractions, w, g))
          && (OneKind(windows, fractions, w, g) ==> Roomful(windows, fractions, w, g)))
    && (g == 0 ==> Lands(rects, windows, fractions, width, height, w))
  }

  lemma MeasuredServes(windows: seq<Window>, fractions: seq<real>, width: int, height: int, g: int, w: int, rects: seq<Rect>)
    requires windows != [] && |fractions| == |windows| && g >= 0 && Sizes(fractions)
    requires Measured(windows, fractions, width, g, w) && Laid(rects, windows, fractions, w, height, g)
    ensures Arranged(rects, windows, fractions, width, height, g, w)
  {
    if Measurable(windows, fractions, width, g) {
      MeasuredTiles(windows, fractions, width, height, g, w, rects);
    }
    if g == 0 { MeasuredLands(windows, fractions, width, height, w, rects); }
  }

  lemma MeasuredTiles(windows: seq<Window>, fractions: seq<real>, width: int, height: int, g: int, w: int, rects: seq<Rect>)
    requires windows != [] && |fractions| == |windows| && g >= 0 && Measurable(windows, fractions, width, g)
    requires Measured(windows, fractions, width, g, w) && Laid(rects, windows, fractions, w, height, g)
    ensures Tiles(rects, g, w)
    ensures AllServed(rects, Bounds(windows)) <==> Roomful(windows, fractions, w, g)
    ensures OneKind(windows, fractions, w, g) ==> Roomful(windows, fractions, w, g)
  {
    MeasureIsEnough(Shares(fractions, width as real), Bounds(windows), g, w);
    LayoutTiles(rects, fractions, w, g, Max(0, Max(0, height) - 2 * g), Bounds(windows));
    ServedIffRoom(rects, fractions, w, g, Max(0, Max(0, height) - 2 * g), Bounds(windows));
  }

  lemma MeasuredLands(windows: seq<Window>, fractions: seq<real>, width: int, height: int, w: int, rects: seq<Rect>)
    requires windows != [] && |fractions| == |windows| && Sizes(fractions)
    requires Measured(windows, fractions, width, 0, w) && Laid(rects, windows, fractions, w, height, 0)
    ensures Lands(rects, windows, fractions, width, height, w)
  {
    var wants := Wants(Shares(fractions, width as real), Bounds(windows), 0.0);
    if 0.0 <= width as real <= Sum(wants) && Sum(wants) == Sum(wants).Floor as real {
      MeasuredNatural(windows, fractions, width, w);
      NaturalWidths(windows, fractions, width, w);
      GaplessRoom(|windows|, w);
    }
  }

  lemma MeasuredNatural(windows: seq<Window>, fractions: seq<real>, width: int, w: int)
    requires windows != [] && |fractions| == |windows| && Measured(windows, fractions, width, 0, w)
    requires var natural := Sum(Wants(Shares(fractions, width as real), Bounds(windows), 0.0));
             0.0 <= width as real <= natural && natural == natural.Floor as real
    ensures w as real == Sum(Wants(Shares(fractions, width as real), Bounds(windows), 0.0)) && w >= 0
  {
    GaplessRoom(|windows|, 0);
    WholeNatural(Sum(Wants(Shares(fractions, width as real), Bounds(windows), 0.0)), width);
  }

  lemma NaturalWidths(windows: seq<Window>, fractions: seq<real>, width: int, w: int)
    requires windows != [] && |fractions| == |windows| && Sizes(fractions) && width >= 0 && w >= 0
    requires w as real == Sum(Wants(Shares(fractions, width as real), Bounds(windows), 0.0))
    ensures var wants := Wants(Shares(fractions, width as real), Bounds(windows), 0.0);
            ColumnWidths(fractions, w, 0, Bounds(windows)) == wants
            <==> OpensOnTarget(fractions, Bounds(windows), w as real, wants)
  {
    GaplessRoom(|windows|, w);
    TargetsHitIff(fractions, Bounds(windows), width, w as real);
  }

  lemma WholeNatural(natural: real, width: int)
    requires natural == natural.Floor as real && width as real <= natural
    ensures Max(width, Round(natural)) as real == natural
  {
    RoundBetween(natural, natural.Floor);
  }

  lemma GaplessRoom(n: nat, w: int)
    requires n > 0 && w >= 0
    ensures Room(n, w, 0) == w && Max(0, Max(0, w) - 2 * 0) == w && GapShare(n, 0) == 0.0
  {
    GapsIs(n - 1, 0);
    GapsIs(n + 1, 0);
  }

  lemma ShiftedBack(rects: seq<Rect>, x: int, y: int)
    ensures ShiftedAll(ShiftedAll(rects, x, y), -x, -y) == rects
  {
  }

  ghost predicate Sizes(fractions: seq<real>) {
    forall i :: 0 <= i < |fractions| ==> COLUMN_MIN <= fractions[i] <= COLUMN_MAX
  }

  // ----- Resizing -----

  /** What a resize starts from: the window's own width, else what it was last laid out at. */
  function Base(colWidths: map<int, real>, lastSeed: map<int, real>, column: real, id: int): real {
    if id in colWidths then colWidths[id] else if id in lastSeed then lastSeed[id] else column
  }

  function Resized(colWidths: map<int, real>, lastSeed: map<int, real>, column: real, id: int, delta: real): map<int, real> {
    colWidths[id := Clip(Base(colWidths, lastSeed, column, id) + delta)]
  }

  ghost predicate DistinctIds(windows: seq<Window>) { forall i, j :: 0 <= i < j < |windows| ==> windows[i].id != windows[j].id }

  /** The windows were last laid out on this island. */
  ghost predicate Seeded(lastSeed: map<int, real>, p: Params, hint: Hint, windows: seq<Window>) {
    forall i :: 0 <= i < |windows| ==> windows[i].id in lastSeed && lastSeed[windows[i].id] == Seed(p, hint, i)
  }

  ghost function IdsOf(windows: seq<Window>): set<int> { set i | 0 <= i < |windows| :: windows[i].id }

  /** No other window's resize base changed. */
  ghost predicate OthersKeep(before: map<int, real>, after: map<int, real>, windows: seq<Window>) {
    forall id :: id !in IdsOf(windows) ==>
      (id in after <==> id in before) && (id in after ==> after[id] == before[id])
  }

  lemma SeedNext(before: map<int, real>, lastSeed: map<int, real>, p: Params, hint: Hint, windows: seq<Window>, i: nat)
    requires i < |windows| && OthersKeep(before, lastSeed, windows[..i])
    requires DistinctIds(windows) ==> Seeded(lastSeed, p, hint, windows[..i])
    ensures var next := lastSeed[windows[i].id := Seed(p, hint, i)];
            && OthersKeep(before, next, windows[..i + 1])
            && (DistinctIds(windows) ==> Seeded(next, p, hint, windows[..i + 1]))
  {
    var next := lastSeed[windows[i].id := Seed(p, hint, i)];
    assert windows[..i + 1] == windows[..i] + [windows[i]];
    assert IdsOf(windows[..i + 1]) == IdsOf(windows[..i]) + {windows[i].id} by {
      assert forall j :: 0 <= j < i ==> windows[..i + 1][j] == windows[..i][j];
      assert windows[..i + 1][i] == windows[i];
    }
  }

  /** A resize starts from what the window shows: it moves the width of that window by the delta, within the
      limits, and no other. */
  lemma ResizeMovesShown(colWidths: map<int, real>, lastSeed: map<int, real>, p: Params, hint: Hint, windows: seq<Window>,
                         i: nat, delta: real)
    requires i < |windows| && DistinctIds(windows) && Seeded(lastSeed, p, hint, windows)
    ensures var shown := Fractions(colWidths, p, hint, windows);
            Fractions(Resized(colWidths, lastSeed, p.column, windows[i].id, delta), p, hint, windows)
            == shown[i := Clip(shown[i] + delta)]
  {
    assert forall j :: 0 <= j < |windows| && j != i ==> windows[j].id != windows[i].id;
  }

  class LayoutPlugin {
    var params: Params
    var colWidths: map<int, real>   // the user's own widths
    var lastSeed: map<int, real>    // what each window was last laid out at

    /** Widths are fractions of the workarea the configuration and the resize action admit. */
    ghost predicate Valid() reads this {
      && COLUMN_MIN <= params.column <= COLUMN_MAX && params.gap >= 0
      && (forall id :: id in colWidths ==> COLUMN_MIN <= colWidths[id] <= COLUMN_MAX)
      && (forall id :: id in lastSeed ==> COLUMN_MIN <= lastSeed[id] <= COLUMN_MAX)
    }

    /** `measure` would report the width `w` for these columns. */
    ghost predicate Measures(windows: seq<Window>, hint: Hint, width: int, w: int)
      requires windows != []
      reads this`params, this`colWidths
    {
      Measured(windows, Fractions(colWidths, params, hint, windows), width, params.gap, w)
    }

    /** `compute` would place these columns so. */
    ghost predicate Computes(windows: seq<Window>, hint: Hint, region: Rect, outer: seq<Rect>)
      reads this`params, this`colWidths
    {
      Laid(ShiftedAll(outer, -region.x, -region.y), windows, Fractions(colWidths, params, hint, windows),
           region.width, region.height, params.gap)
    }

    constructor (params: Params)
      requires COLUMN_MIN <= params.column <= COLUMN_MAX && params.gap >= 0
      ensures Valid() && this.params == params && colWidths == map[] && lastSeed == map[]
    {
      this.params, colWidths, lastSeed := params, map[], map[];
    }

    method WidthOf(id: int, seed: real) returns (f: real)
      requires Valid() && COLUMN_MIN <= seed <= COLUMN_MAX
      modifies this`lastSeed
      ensures Valid() && lastSeed == old(lastSeed)[id := seed]
      ensures f == if id in colWidths then colWidths[id] else seed
    {
      lastSeed := lastSeed[id := seed];
      f := if id in colWidths then colWidths[id] else seed;
    }

    /** The widths of an island's windows; only their resize bases are written. */
    method Widths(windows: seq<Window>, hint: Hint) returns (fractions: seq<real>)
      requires Valid()
      modifies this`lastSeed
      ensures Valid() && fractions == Fractions(colWidths, params, hint, windows) && Sizes(fractions)
      ensures OthersKeep(old(lastSeed), lastSeed, windows)
      ensures DistinctIds(windows) ==> Seeded(lastSeed, params, hint, windows)
    {
      fractions := [];
      for i := 0 to |windows|
        invariant Valid() && |fractions| == i
        invariant OthersKeep(old(lastSeed), lastSeed, windows[..i])
        invariant DistinctIds(windows) ==> Seeded(lastSeed, params, hint, windows[..i])
        invariant forall j :: 0 <= j < i ==>
          fractions[j] == EffectiveWidth(colWidths, params, hint, windows, j) && COLUMN_MIN <= fractions[j] <= COLUMN_MAX
      {
        SeedNext(old(lastSeed), lastSeed, params, hint, windows, i);
        var f := WidthOf(windows[i].id, Seed(params, hint, i));
        fractions := fractions + [f];
      }
      assert windows[..|windows|] == windows;
    }

    /** `measure`: the island's natural size. */
    method Measure(windows: seq<Window>, hint: Hint, width: int, height: int) returns (w: int, h: int)
      requires Valid()
      modifies this`lastSeed
      ensures Valid() && h == height
      ensures ModeOf(params, hint).Stacking? || windows == [] ==> w == width
      ensures ModeOf(params, hint).Columnar? && windows != [] ==>
                Measures(windows, hint, width, w)
    {
      if ModeOf(params, hint).Stacking? { return width, height; }
      var fractions := Widths(windows, hint);
      w, h := ColumnsMeasure(Shares(fractions, width as real), width, height, params.gap, Bounds(windows));
    }

    /** `compute`: the windows' rectangles in the region. */
    method Compute(windows: seq<Window>, hint: Hint, region: Rect) returns (outer: seq<Rect>)
      requires Valid()
      modifies this`lastSeed
      ensures Valid() && |outer| == |windows|
      ensures ModeOf(params, hint).Columnar? && windows != [] ==>
                Computes(windows, hint, region, outer)
      ensures ModeOf(params, hint).Columnar? && DistinctIds(windows) ==> Seeded(lastSeed, params, hint, windows)
      ensures ModeOf(params, hint).Stacking? && |windows| >= 2 && Roomy(|windows|, region.width, region.height, params.gap) ==>
                MasterAndStack(ShiftedAll(outer, -region.x, -region.y), region.width, region.height, params.gap)
    {
      var rects: seq<Rect>;
      if ModeOf(params, hint).Columnar? {
        rects := PlaceColumnsOf(windows, hint, region);
      } else {
        rects := MasterStackLayout(|windows|, region.width, region.height, params.gap, params.masterFraction);
      }
      outer := ShiftedAll(rects, region.x, region.y);
      ShiftedBack(rects, region.x, region.y);
    }

    method PlaceColumnsOf(windows: seq<Window>, hint: Hint, region: Rect) returns (rects: seq<Rect>)
      requires Valid()
      modifies this`lastSeed
      ensures Valid() && |rects| == |windows|
      ensures Laid(rects, windows, Fractions(colWidths, params, hint, windows), region.width, region.height, params.gap)
      ensures DistinctIds(windows) ==> Seeded(lastSeed, params, hint, windows)
    {
      var fractions := Widths(windows, hint);
      rects := ColumnsLayout(fractions, region.width, region.height, params.gap, Bounds(windows));
    }

    /** The columns tile the island, every window gets the minimum the measure reserved for it, and without gaps
        the width it asked for. */
    ghost predicate Serves(windows: seq<Window>, hint: Hint, region: Rect, width: int, outer: seq<Rect>)
      requires windows != []
      reads this`params, this`colWidths
    {
      Arranged(ShiftedAll(outer, -region.x, -region.y), windows, Fractions(colWidths, params, hint, windows),
               width, region.height, params.gap, region.width)
    }

    lemma FractionsInRange(windows: seq<Window>, hint: Hint)
      requires Valid()
      ensures Sizes(Fractions(colWidths, params, hint, windows))
    {
    }

    lemma ComputedServes(windows: seq<Window>, hint: Hint, region: Rect, width: int, outer: seq<Rect>)
      requires windows != [] && Valid()
      requires Measures(windows, hint, width, region.width) && Computes(windows, hint, region, outer)
      ensures Serves(windows, hint, region, width, outer)
    {
      FractionsInRange(windows, hint);
      MeasuredServes(windows, Fractions(colWidths, params, hint, windows), width, region.height, params.gap, region.width,
                     ShiftedAll(outer, -region.x, -region.y));
    }

    /** An island laid out in the size it measured. */
    method Arrange(windows: seq<Window>, hint: Hint, x: int, y: int, width: int, height: int)
      returns (outer: seq<Rect>, w: int)
      requires Valid()
      modifies this`lastSeed
      ensures Valid() && |outer| == |windows|
      ensures ModeOf(params, hint).Columnar? && windows != [] ==> Serves(windows, hint, Rect(x, y, w, height), width, outer)
    {
      var h;
      w, h := Measure(windows, hint, width, height);
      outer := Compute(windows, hint, Rect(x, y, w, h));
      if ModeOf(params, hint).Columnar? && windows != [] {
        ComputedServes(windows, hint, Rect(x, y, w, h), width, outer);
      }
    }

    /** `setParams`' resize: from what the window shows now. */
    method ResizeColumn(id: int, delta: real)
      requires Valid()
      modifies this`colWidths
      ensures Valid() && colWidths == Resized(old(colWidths), lastSeed, params.column, id, delta)
    {
      var base := if id in colWidths then colWidths[id] else if id in lastSeed then lastSeed[id] else params.column;
      colWidths := colWidths[id := Clip(base + delta)];
    }

    /** Columns laid out, then one of them resized: the next layout shows it moved by the delta, within the
        limits, and asks the same for every other. */
    method ResizeShown(windows: seq<Window>, hint: Hint, region: Rect, i: nat, delta: real) returns (outer: seq<Rect>)
      requires Valid() && i < |windows| && DistinctIds(windows) && ModeOf(params, hint).Columnar?
      modifies this`colWidths, this`lastSeed
      ensures Valid()
      ensures var shown := Fractions(old(colWidths), params, hint, windows);
              && Laid(ShiftedAll(outer, -region.x, -region.y), windows, shown, region.width, region.height, params.gap)
              && Fractions(colWidths, params, hint, windows) == shown[i := Clip(shown[i] + delta)]
    {
      outer := Compute(windows, hint, region);
      ResizeMovesShown(colWidths, lastSeed, params, hint, windows, i, delta);
      ResizeColumn(windows[i].id, delta);
    }

    method Unmapped(id: int)
      requires Valid()
      modifies this`colWidths, this`lastSeed
      ensures Valid() && colWidths == old(colWidths) - {id} && lastSeed == old(lastSeed) - {id}
    {
      colWidths, lastSeed := colWidths - {id}, lastSeed - {id};
    }
  }
}
