/** Where islands go: row packing and placement on one output. Lengths are real numbers; islands are given
    by their position in slot order. */
module Islands {
  import opened Seqs
  import opened Numbers

  // ----- Packing -----

  /** The extent of a row so far, trailing gutter included. */
  function RowExtent(widths: seq<real>, rows: seq<nat>, row: nat, gutter: real): real
    requires |rows| <= |widths|
  {
    if rows == [] then 0.0
    else RowExtent(widths, Init(rows), row, gutter)
         + if Last(rows) == row then widths[|rows| - 1] + gutter else 0.0
  }

  /** The row of the next island: a new one only where it would overrun the budget of the last. */
  function NextRow(widths: seq<real>, rows: seq<nat>, budget: real, gutter: real): nat
    requires |rows| < |widths|
  {
    if rows == [] then 0
    else
      var x := RowExtent(widths, rows, Last(rows), gutter);
      if x > 0.0 && x + widths[|rows|] > budget then Last(rows) + 1 else Last(rows)
  }

  /** A greedy fill. */
  ghost predicate Wrapped(widths: seq<real>, rows: seq<nat>, budget: real, gutter: real) {
    && |rows| <= |widths|
    && (rows != [] ==>
          Wrapped(widths, Init(rows), budget, gutter) && Last(rows) == NextRow(widths, Init(rows), budget, gutter))
  }

  lemma NextIsland(widths: seq<real>, rows: seq<nat>, row: nat, budget: real, gutter: real)
    requires Wrapped(widths, rows, budget, gutter) && |rows| < |widths| && row == NextRow(widths, rows, budget, gutter)
    ensures Wrapped(widths, rows + [row], budget, gutter)
    ensures RowExtent(widths, rows + [row], row, gutter) == RowExtent(widths, rows, row, gutter) + widths[|rows|] + gutter
  {
    assert Init(rows + [row]) == rows;
  }

  /** One greedy fill against a budget. */
  method WrapRows(widths: seq<real>, budget: real, gutter: real) returns (rows: seq<nat>)
    ensures |rows| == |widths| && Wrapped(widths, rows, budget, gutter)
  {
    rows := [];
    var row: nat, x := 0, 0.0;
    for i := 0 to |widths|
      invariant |rows| == i && Wrapped(widths, rows, budget, gutter)
      invariant row == (if i == 0 then 0 else Last(rows))
      invariant x == RowExtent(widths, rows, row, gutter)
    {
      if x > 0.0 && x + widths[i] > budget {
        RowsSoFar(widths, rows, budget, gutter);
        row, x := row + 1, 0.0;
        UnusedRow(widths, rows, row, gutter);
      }
      NextIsland(widths, rows, row, budget, gutter);
      rows := rows + [row];
      x := x + widths[i] + gutter;
    }
  }

  lemma {:induction false} UnusedRow(widths: seq<real>, rows: seq<nat>, row: nat, gutter: real)
    requires |rows| <= |widths| && forall j :: 0 <= j < |rows| ==> rows[j] < row
    ensures RowExtent(widths, rows, row, gutter) == 0.0
  {
    if rows != [] { UnusedRow(widths, Init(rows), row, gutter); }
  }

  /** The last row is the highest. */
  lemma {:induction false} RowsSoFar(widths: seq<real>, rows: seq<nat>, budget: real, gutter: real)
    requires Wrapped(widths, rows, budget, gutter)
    ensures forall i :: 0 <= i < |rows| ==> rows[i] <= Last(rows)
  {
    if |rows| > 1 { RowsSoFar(widths, Init(rows), budget, gutter); }
  }

  /** No row is empty: every row up to the last is somebody's. */
  lemma {:induction false} RowsContiguous(widths: seq<real>, rows: seq<nat>, budget: real, gutter: real, row: nat)
    requires Wrapped(widths, rows, budget, gutter) && rows != [] && row <= Last(rows)
    ensures row in rows
  {
    if row != Last(rows) {
      RowsContiguous(widths, Init(rows), budget, gutter, row);
    }
  }

  lemma {:induction false} WrappedPrefix(widths: seq<real>, rows: seq<nat>, budget: real, gutter: real, n: nat)
    requires Wrapped(widths, rows, budget, gutter) && n <= |rows|
    ensures Wrapped(widths, rows[..n], budget, gutter)
  {
    if n == |rows| {
      assert rows[..n] == rows;
    } else {
      WrappedPrefix(widths, Init(rows), budget, gutter, n);
      assert Init(rows)[..n] == rows[..n];
    }
  }

  /** Rows never go back. */
  lemma RowsAscend(widths: seq<real>, rows: seq<nat>, budget: real, gutter: real, i: nat, j: nat)
    requires Wrapped(widths, rows, budget, gutter) && i <= j < |rows|
    ensures rows[i] <= rows[j]
  {
    WrappedPrefix(widths, rows, budget, gutter, j + 1);
    RowsSoFar(widths, rows[..j + 1], budget, gutter);
    assert rows[..j + 1][i] == rows[i];
  }

  /** A row ends only where the next island would overrun the budget. */
  lemma BreaksOnlyWhenFull(widths: seq<real>, rows: seq<nat>, budget: real, gutter: real, i: nat)
    requires Wrapped(widths, rows, budget, gutter) && 0 < i < |rows| && rows[i] != rows[i - 1]
    ensures rows[i] == rows[i - 1] + 1 && RowExtent(widths, rows[..i], rows[i - 1], gutter) + widths[i] > budget
  {
    assert Init(rows[..i + 1]) == rows[..i];
    WrappedPrefix(widths, rows, budget, gutter, i + 1);
  }

  /** Each row, as each island joins it, fits the budget or holds that island alone. */
  lemma RowsFit(widths: seq<real>, rows: seq<nat>, budget: real, gutter: real, i: nat)
    requires Wrapped(widths, rows, budget, gutter) && i < |rows| && gutter >= 0.0
    requires forall j :: 0 <= j < |widths| ==> widths[j] > 0.0
    ensures RowExtent(widths, rows[..i + 1], rows[i], gutter) - gutter <= MaxReal(budget, widths[i])
  {
    var before := rows[..i];
    assert Init(rows[..i + 1]) == before;
    WrappedPrefix(widths, rows, budget, gutter, i + 1);
    WrappedPrefix(widths, rows, budget, gutter, i);
    if before != [] {
      if rows[i] != Last(before) {
        RowsSoFar(widths, before, budget, gutter);
        UnusedRow(widths, before, rows[i], gutter);
      } else {
        ExtentNonNegative(widths, Init(before), Last(before), gutter);
      }
    }
  }

  lemma {:induction false} ExtentNonNegative(widths: seq<real>, rows: seq<nat>, row: nat, gutter: real)
    requires |rows| <= |widths| && gutter >= 0.0 && forall j :: 0 <= j < |widths| ==> widths[j] > 0.0
    ensures RowExtent(widths, rows, row, gutter) >= 0.0
  {
    if rows != [] { ExtentNonNegative(widths, Init(rows), row, gutter); }
  }

  /** What the bounds of `r` rows could afford. */
  function Budget(r: nat, rowHeight: real, gutter: real, aspect: real): real {
    aspect * (r as real * rowHeight + (r as real - 1.0) * gutter)
  }

  /** Against their budget `r` rows with their gutters have the screen's shape: each further row earns another row
      and gutter of width. */
  lemma {:induction false} BudgetShapes(r: nat, rowHeight: real, gutter: real, aspect: real)
    ensures Budget(1, rowHeight, gutter, aspect) == aspect * rowHeight
    ensures Budget(r + 1, rowHeight, gutter, aspect) == Budget(r, rowHeight, gutter, aspect) + aspect * (rowHeight + gutter)
  {
    var h := r as real * rowHeight + (r as real - 1.0) * gutter;
    assert (r + 1) as real * rowHeight == r as real * rowHeight + rowHeight;
    assert r as real * gutter == (r as real - 1.0) * gutter + gutter;
    assert aspect * (h + (rowHeight + gutter)) == aspect * h + aspect * (rowHeight + gutter);
  }

  datatype Packing = Packing(rows: seq<nat>, score: real)

  /** `packRows`: of one greedy fill for each row count, the first with the best score. The score is not
      interpreted. */
  method PackRows(widths: seq<real>, rowHeight: real, gutter: real, aspect: real, score: seq<nat> -> real)
    returns (best: Option<Packing>, ghost fills: seq<seq<nat>>)
    ensures best.None? <==> widths == [] || rowHeight <= 0.0 || aspect <= 0.0
    ensures best.Some? ==>
              && |fills| == |widths|
              && (forall r :: 0 <= r < |fills| ==>
                    |fills[r]| == |widths| && Wrapped(widths, fills[r], Budget(r + 1, rowHeight, gutter, aspect), gutter))
              && exists b :: 0 <= b < |fills| && best.value == Packing(fills[b], score(fills[b]))
                   && (forall r :: 0 <= r < |fills| ==> score(fills[b]) <= score(fills[r]))
                   && (forall r :: 0 <= r < b ==> score(fills[b]) < score(fills[r]))
  {
    best, fills := None, [];
    if widths == [] || rowHeight <= 0.0 || aspect <= 0.0 { return; }
    ghost var b := 0;
    for r := 1 to |widths| + 1
      invariant |fills| == r - 1
      invariant forall k :: 0 <= k < |fills| ==>
        |fills[k]| == |widths| && Wrapped(widths, fills[k], Budget(k + 1, rowHeight, gutter, aspect), gutter)
      invariant r == 1 <==> best.None?
      invariant best.Some? ==>
        && 0 <= b < |fills| && best.value == Packing(fills[b], score(fills[b]))
        && (forall k :: 0 <= k < |fills| ==> score(fills[b]) <= score(fills[k]))
        && (forall k :: 0 <= k < b ==> score(fills[b]) < score(fills[k]))
    {
      var rows := WrapRows(widths, Budget(r, rowHeight, gutter, aspect), gutter);
      var s := score(rows);
      if best.None? || s < best.value.score {
        best, b := Some(Packing(rows, s)), |fills|;
      }
      fills := fills + [rows];
    }
  }

  // ----- Placement -----

  datatype Island = Island(x: real, y: real, width: real, height: real)

  ghost predicate Apart(a: Island, b: Island) {
    a.x + a.width <= b.x || b.x + b.width <= a.x || a.y + a.height <= b.y || b.y + b.height <= a.y
  }

  function RowTop(y: real, row: nat, height: real, gutter: real): real { y + row as real * (height + gutter) }

  /** Each island stands at the end of its row so far. */
  ghost predicate PlacedIn(islands: seq<Island>, widths: seq<real>, rows: seq<nat>, x: real, y: real,
                           height: real, gutter: real) {
    && |islands| == |rows| <= |widths|
    && forall i :: 0 <= i < |islands| ==> islands[i] == PlaceOf(widths, rows, i, x, y, height, gutter)
  }

  function PlaceOf(widths: seq<real>, rows: seq<nat>, i: nat, x: real, y: real, height: real, gutter: real): Island
    requires i < |rows| <= |widths|
  {
    Island(x + RowExtent(widths, rows[..i], rows[i], gutter), RowTop(y, rows[i], height, gutter), widths[i], height)
  }

  /** The placement loop: `x` advances per row, whatever the row assignment. */
  method Place(widths: seq<real>, rows: seq<nat>, x: real, y: real, height: real, gutter: real)
    returns (islands: seq<Island>)
    requires |rows| == |widths|
    ensures PlacedIn(islands, widths, rows, x, y, height, gutter)
  {
    islands := [];
    var xByRow: map<nat, real> := map[];
    for i := 0 to |widths|
      invariant |islands| == i
      invariant forall k :: 0 <= k < i ==> islands[k] == PlaceOf(widths, rows, k, x, y, height, gutter)
      invariant forall r: nat :: r in xByRow ==> xByRow[r] == x + RowExtent(widths, rows[..i], r, gutter)
      invariant forall r: nat :: r !in xByRow ==> RowExtent(widths, rows[..i], r, gutter) == 0.0
    {
      var at := if rows[i] in xByRow then xByRow[rows[i]] else x;
      assert Init(rows[..i + 1]) == rows[..i];
      islands := islands + [Island(at, RowTop(y, rows[i], height, gutter), widths[i], height)];
      xByRow := xByRow[rows[i] := at + widths[i] + gutter];
    }
  }

  lemma {:induction false} ExtentGrows(widths: seq<real>, rows: seq<nat>, row: nat, gutter: real, i: nat, j: nat)
    requires |rows| <= |widths| && i <= j <= |rows| && gutter >= 0.0
    requires forall k :: 0 <= k < |widths| ==> widths[k] > 0.0
    ensures RowExtent(widths, rows[..i], row, gutter) <= RowExtent(widths, rows[..j], row, gutter)
    ensures (forall k :: i <= k < j ==> rows[k] != row) ==>
              RowExtent(widths, rows[..i], row, gutter) == RowExtent(widths, rows[..j], row, gutter)
    decreases j
  {
    if i < j {
      ExtentGrows(widths, rows, row, gutter, i, j - 1);
      assert Init(rows[..j]) == rows[..j - 1];
    }
  }

  lemma ExtentStep(widths: seq<real>, rows: seq<nat>, gutter: real, i: nat)
    requires i < |rows| <= |widths|
    ensures RowExtent(widths, rows[..i + 1], rows[i], gutter)
            == RowExtent(widths, rows[..i], rows[i], gutter) + widths[i] + gutter
  {
    assert Init(rows[..i + 1]) == rows[..i];
  }

  /** Islands never overlap; neighbours in a row stand exactly one gutter apart. */
  lemma IslandsApart(islands: seq<Island>, widths: seq<real>, rows: seq<nat>, x: real, y: real,
                     height: real, gutter: real, i: nat, j: nat)
    requires PlacedIn(islands, widths, rows, x, y, height, gutter) && i < j < |islands|
    requires height >= 0.0 && gutter >= 0.0 && forall k :: 0 <= k < |widths| ==> widths[k] > 0.0
    ensures Apart(islands[i], islands[j])
    ensures rows[i] == rows[j] && (forall k :: i < k < j ==> rows[k] != rows[i]) ==>
              islands[j].x == islands[i].x + islands[i].width + gutter
    ensures rows[i] == rows[j] ==> islands[i].x + islands[i].width + gutter <= islands[j].x
    ensures rows[i] < rows[j] ==> islands[i].y + islands[i].height + gutter <= islands[j].y
  {
    if rows[i] == rows[j] {
      ExtentStep(widths, rows, gutter, i);
      ExtentGrows(widths, rows, rows[i], gutter, i + 1, j);
    } else if rows[i] < rows[j] {
      RowsApart(y, rows[i], rows[j], height, gutter);
    } else {
      RowsApart(y, rows[j], rows[i], height, gutter);
    }
  }

  /** The first island of a row stands at the left, row 0 at the top and each further row a height and a gutter below
      the one before; islands keep their width and fill their row's height. */
  lemma RowsStacked(islands: seq<Island>, widths: seq<real>, rows: seq<nat>, x: real, y: real,
                    height: real, gutter: real, i: nat, j: nat)
    requires PlacedIn(islands, widths, rows, x, y, height, gutter) && i < |islands| && j < |islands|
    ensures islands[i].width == widths[i] && islands[i].height == height
    ensures (forall k :: 0 <= k < i ==> rows[k] != rows[i]) ==> islands[i].x == x
    ensures rows[i] == 0 ==> islands[i].y == y
    ensures rows[j] == rows[i] ==> islands[j].y == islands[i].y
    ensures rows[j] == rows[i] + 1 ==> islands[j].y == islands[i].y + height + gutter
  {
    if forall k :: 0 <= k < i ==> rows[k] != rows[i] { NoneInRow(widths, rows[..i], rows[i], gutter); }
    assert rows[j] == rows[i] + 1 ==> rows[j] as real * (height + gutter) == rows[i] as real * (height + gutter) + (height + gutter);
  }

  lemma {:induction false} NoneInRow(widths: seq<real>, rows: seq<nat>, row: nat, gutter: real)
    requires |rows| <= |widths| && forall k :: 0 <= k < |rows| ==> rows[k] != row
    ensures RowExtent(widths, rows, row, gutter) == 0.0
  {
    if rows != [] { NoneInRow(widths, Init(rows), row, gutter); }
  }

  lemma RowsApart(y: real, r: nat, s: nat, height: real, gutter: real)
    requires r < s && height >= 0.0 && gutter >= 0.0
    ensures RowTop(y, r, height, gutter) + height + gutter <= RowTop(y, s, height, gutter)
  {
    var step, n := height + gutter, s - r - 1;
    assert s as real * step == r as real * step + step + n as real * step;
    NonNegativeProduct(n as real, step);
  }

  lemma NonNegativeProduct(a: real, b: real)
    requires a >= 0.0 && b >= 0.0
    ensures a * b >= 0.0
  {
  }
}
