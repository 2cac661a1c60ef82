/** Column widths by water-filling. Widths and weights are real numbers. */
module Columns {
  import opened Seqs
  import opened Numbers

  /** A column's bounds in pixels; an absent bound does not constrain. */
  datatype ColumnBounds = ColumnBounds(min: Option<real>, max: Option<real>)

  const FREE := ColumnBounds(None, None)

  /** `bounds[i]`, where the list may be shorter than the columns. */
  function BoundsAt(bounds: seq<ColumnBounds>, i: nat): ColumnBounds {
    if i < |bounds| then bounds[i] else FREE
  }

  function Lo(b: ColumnBounds): (r: real)
    ensures r >= 0.0
  {
    if b.min.Some? then MaxReal(0.0, b.min.value) else 0.0
  }

  /** The upper bound, none when infinite; a minimum above it wins. */
  function Hi(b: ColumnBounds): (r: Option<real>)
    ensures r.Some? ==> r.value >= Lo(b)
  {
    if b.max.Some? then Some(MaxReal(Lo(b), b.max.value)) else None
  }

  /** A minimum counts from zero up, and a maximum below it counts as the minimum. */
  lemma LimitsAre(b: ColumnBounds)
    ensures Lo(b) == if b.min.Some? && b.min.value > 0.0 then b.min.value else 0.0
    ensures Hi(b).None? <==> b.max.None?
    ensures b.max.Some? ==> Hi(b) == Some(if b.max.value < Lo(b) then Lo(b) else b.max.value)
  {
  }

  function Weight(w: real): (r: real)
    ensures r >= 0.000001
  {
    MaxReal(0.000001, w)
  }

  function Floors(n: nat, bounds: seq<ColumnBounds>): (r: seq<real>)
    ensures |r| == n
  {
    seq(n, i requires 0 <= i < n => Lo(BoundsAt(bounds, i)))
  }

  function Weights(weights: seq<real>): (r: seq<real>)
    ensures |r| == |weights|
  {
    seq(|weights|, i requires 0 <= i < |weights| => Weight(weights[i]))
  }

  function Sum(s: seq<real>): real {
    if s == [] then 0.0 else Sum(Init(s)) + Last(s)
  }

  // ----- The allocation -----

  /** What a weight takes at a level. */
  function Share(w: real, level: real): real { w * level }

  /** Every column's width at a level. */
  function Shares(w: seq<real>, level: real): (r: seq<real>)
    ensures |r| == |w|
  {
    seq(|w|, i requires 0 <= i < |w| => Share(w[i], level))
  }

  /** The columns pinned so far, each at its width; the others are free. */
  type Pins = seq<Option<real>>

  function AllFree(n: nat): (r: Pins)
    ensures |r| == n
  {
    seq(n, i => None)
  }

  /** The bound a candidate width violates. */
  function Bound(cand: real, b: ColumnBounds): Option<real> {
    if cand < Lo(b) then Some(Lo(b))
    else if Hi(b).Some? && cand > Hi(b).value then Hi(b)
    else None
  }

  /** One pass: every violator is pinned at the bound it violates. */
  function Pass(pins: Pins, shares: seq<real>, bounds: seq<ColumnBounds>): (r: Pins)
    requires |pins| == |shares|
    ensures |r| == |pins|
  {
    seq(|pins|, i requires 0 <= i < |pins| =>
      if pins[i].Some? then pins[i] else Bound(shares[i], BoundsAt(bounds, i)))
  }

  function PinnedSum(pins: Pins): real {
    if pins == [] then 0.0
    else PinnedSum(Init(pins)) + if Last(pins).Some? then Last(pins).value else 0.0
  }

  function FreeWeight(w: seq<real>, pins: Pins): real
    requires |w| == |pins|
  {
    if w == [] then 0.0
    else FreeWeight(Init(w), Init(pins)) + if Last(pins).Some? then 0.0 else Last(w)
  }

  function FreeCount(pins: Pins): nat {
    if pins == [] then 0 else FreeCount(Init(pins)) + if Last(pins).None? then 1 else 0
  }

  /** What the pinned columns leave, per unit of free weight. */
  function Scale(w: seq<real>, pins: Pins, avail: real): real
    requires |w| == |pins| && FreeWeight(w, pins) > 0.0
  {
    (avail - PinnedSum(pins)) / FreeWeight(w, pins)
  }

  /** Passes until nothing violates or nothing is free: the pins, and the scale of the last pass. */
  function Settle(pins: Pins, w: seq<real>, bounds: seq<ColumnBounds>, avail: real, level: real): (r: (Pins, real))
    requires |w| == |pins|
    ensures |r.0| == |w|
    decreases FreeCount(pins)
  {
    if FreeWeight(w, pins) <= 0.0 then (pins, level)
    else
      var scale := Scale(w, pins, avail);
      var next := Pass(pins, Shares(w, scale), bounds);
      PinsGrow(pins, next);
      if next == pins then (pins, scale) else Settle(next, w, bounds, avail, scale)
  }

  /** Pinned columns keep their width, free ones take their share. */
  function Values(pins: Pins, shares: seq<real>): (r: seq<real>)
    requires |pins| == |shares|
    ensures |r| == |pins|
  {
    seq(|pins|, i requires 0 <= i < |pins| => if pins[i].Some? then pins[i].value else shares[i])
  }

  function Settled(w: seq<real>, bounds: seq<ColumnBounds>, avail: real): (r: (Pins, real))
    ensures |r.0| == |w|
  {
    Settle(AllFree(|w|), w, bounds, avail, 0.0)
  }

  /** The widths the passes leave. */
  function Raw(w: seq<real>, bounds: seq<ColumnBounds>, avail: real): (r: seq<real>)
    ensures |r| == |w|
  {
    var (pins, level) := Settled(w, bounds, avail);
    Values(pins, Shares(w, level))
  }

  /** Too much for the room shrinks in proportion. */
  function Squeezed(raw: seq<real>, avail: real): (r: seq<real>)
    ensures |r| == |raw|
  {
    var total := Sum(raw);
    if total > avail && total > 0.0
    then seq(|raw|, i requires 0 <= i < |raw| => Share(raw[i], avail / total))
    else raw
  }

  function Allocation(weights: seq<real>, bounds: seq<ColumnBounds>, avail: real): (r: seq<real>)
    ensures |r| == |weights|
  {
    Squeezed(Raw(Weights(weights), bounds, avail), avail)
  }

  // ----- Pins only grow -----

  ghost predicate Extends(pins: Pins, next: Pins) {
    |pins| == |next| && forall i :: 0 <= i < |pins| && pins[i].Some? ==> next[i] == pins[i]
  }

  lemma {:induction false} PinsGrow(pins: Pins, next: Pins)
    requires Extends(pins, next)
    ensures FreeCount(next) <= FreeCount(pins)
    ensures next != pins ==> FreeCount(next) < FreeCount(pins)
  {
    if pins != [] {
      assert pins == Init(pins) + [Last(pins)] && next == Init(next) + [Last(next)];
      PinsGrow(Init(pins), Init(next));
    }
  }

  lemma {:induction false} AllFreeCount(n: nat)
    ensures FreeCount(AllFree(n)) == n
  {
    if n > 0 {
      AllFreeCount(n - 1);
      assert Init(AllFree(n)) == AllFree(n - 1);
    }
  }

  // ----- The loops -----

  lemma {:induction false} SumUpdate(s: seq<real>, i: nat, v: real)
    requires i < |s|
    ensures Sum(s[i := v]) == Sum(s) - s[i] + v
  {
    if i == |s| - 1 {
      assert Init(s[i := v]) == Init(s);
    } else {
      assert Init(s[i := v]) == Init(s)[i := v];
      SumUpdate(Init(s), i, v);
    }
  }

  /** The pins behind the two arrays. */
  function PinsOf(out: seq<real>, pinned: seq<bool>): (r: Pins)
    requires |out| == |pinned|
    ensures |r| == |out|
  {
    seq(|out|, i requires 0 <= i < |out| => if pinned[i] then Some(out[i]) else None)
  }

  /** Free columns have no width yet, and the remainder is what the pinned ones leave. */
  ghost predicate Books(out: seq<real>, pinned: seq<bool>, avail: real, remaining: real) {
    && |out| == |pinned| && remaining == avail - Sum(out)
    && forall i :: 0 <= i < |out| && !pinned[i] ==> out[i] == 0.0
  }

  lemma {:induction false} BooksSum(out: seq<real>, pinned: seq<bool>)
    requires |out| == |pinned| && forall i :: 0 <= i < |out| && !pinned[i] ==> out[i] == 0.0
    ensures PinnedSum(PinsOf(out, pinned)) == Sum(out)
  {
    if out != [] {
      BooksSum(Init(out), Init(pinned));
      assert Init(PinsOf(out, pinned)) == PinsOf(Init(out), Init(pinned));
    }
  }

  method FreeWeightOf(w: seq<real>, out: seq<real>, pinned: seq<bool>) returns (f: real)
    requires |w| == |pinned| == |out|
    ensures f == FreeWeight(w, PinsOf(out, pinned))
  {
    f := 0.0;
    ghost var pins := PinsOf(out, pinned);
    for i := 0 to |w|
      invariant f == FreeWeight(w[..i], pins[..i])
    {
      assert Init(w[..i + 1]) == w[..i] && Init(pins[..i + 1]) == pins[..i];
      if !pinned[i] { f := f + w[i]; }
    }
    assert w[..|w|] == w && pins[..|w|] == pins;
  }

  /** One pass over the arrays. */
  method PinViolators(out0: seq<real>, pinned0: seq<bool>, w: seq<real>, bounds: seq<ColumnBounds>,
                      avail: real, remaining0: real, scale: real)
    returns (out: seq<real>, pinned: seq<bool>, remaining: real, pinnedAny: bool)
    requires Books(out0, pinned0, avail, remaining0) && |w| == |out0|
    ensures Books(out, pinned, avail, remaining) && |out| == |w|
    ensures PinsOf(out, pinned) == Pass(PinsOf(out0, pinned0), Shares(w, scale), bounds)
    ensures pinnedAny <==> PinsOf(out, pinned) != PinsOf(out0, pinned0)
  {
    out, pinned, remaining, pinnedAny := out0, pinned0, remaining0, false;
    ghost var before := PinsOf(out0, pinned0);
    ghost var after := Pass(before, Shares(w, scale), bounds);
    for i := 0 to |w|
      invariant |out| == |w| && Books(out, pinned, avail, remaining)
      invariant forall j :: 0 <= j < i ==> (if pinned[j] then Some(out[j]) else None) == after[j]
      invariant forall j :: i <= j < |w| ==> pinned[j] == pinned0[j] && out[j] == out0[j]
      invariant pinnedAny <==> exists j :: 0 <= j < i && after[j] != before[j]
    {
      if !pinned[i] {
        var bound := Bound(Share(w[i], scale), BoundsAt(bounds, i));
        assert after[i] == bound && before[i] == None;
        if bound.Some? {
          SumUpdate(out, i, bound.value);
          out, pinned, remaining, pinnedAny :=
            out[i := bound.value], pinned[i := true], remaining - bound.value, true;
        }
      }
    }
    assert PinsOf(out, pinned) == after;
  }

  /** Nothing violates: the free columns take their shares. */
  method FillFree(out0: seq<real>, pinned: seq<bool>, w: seq<real>, scale: real) returns (out: seq<real>)
    requires |out0| == |pinned| == |w|
    ensures out == Values(PinsOf(out0, pinned), Shares(w, scale))
  {
    out := out0;
    for i := 0 to |w|
      invariant |out| == |w|
      invariant forall j :: 0 <= j < |w| ==> out[j] == if pinned[j] || j >= i then out0[j] else Share(w[j], scale)
    {
      if !pinned[i] { out := out[i := Share(w[i], scale)]; }
    }
  }

  lemma {:induction false} NoneFree(w: seq<real>, pins: Pins)
    requires |w| == |pins| && forall i :: 0 <= i < |w| ==> w[i] > 0.0
    ensures FreeWeight(w, pins) >= 0.0
    ensures FreeWeight(w, pins) <= 0.0 <==> forall i :: 0 <= i < |pins| ==> pins[i].Some?
  {
    if w != [] { NoneFree(Init(w), Init(pins)); }
  }

  lemma {:induction false} SumZero(s: seq<real>)
    requires forall i :: 0 <= i < |s| ==> s[i] == 0.0
    ensures Sum(s) == 0.0
  {
    if s != [] { SumZero(Init(s)); }
  }

  lemma FillStart(n: nat, out: seq<real>, pinned: seq<bool>, avail: real)
    requires out == seq(n, i => 0.0) && pinned == seq(n, i => false)
    ensures Books(out, pinned, avail, avail) && PinsOf(out, pinned) == AllFree(n) && FreeCount(AllFree(n)) == n
  {
    SumZero(out);
    AllFreeCount(n);
  }

  /** The passes from these pins on lead where they lead from the start. */
  ghost predicate Underway(pins: Pins, w: seq<real>, bounds: seq<ColumnBounds>, avail: real, level: real) {
    |w| == |pins| && Settle(pins, w, bounds, avail, level) == Settled(w, bounds, avail)
  }

  /** A pass ends the run or goes on with fewer free columns. */
  lemma PassOn(pins: Pins, w: seq<real>, bounds: seq<ColumnBounds>, avail: real, level: real)
    requires Underway(pins, w, bounds, avail, level) && FreeWeight(w, pins) > 0.0
    ensures var scale := Scale(w, pins, avail);
            var next := Pass(pins, Shares(w, scale), bounds);
            if next == pins then Values(pins, Shares(w, scale)) == Raw(w, bounds, avail)
            else Underway(next, w, bounds, avail, scale) && FreeCount(next) < FreeCount(pins)
  {
    PinsGrow(pins, Pass(pins, Shares(w, Scale(w, pins, avail)), bounds));
  }

  lemma AllPinned(out: seq<real>, pinned: seq<bool>, w: seq<real>, bounds: seq<ColumnBounds>, avail: real, level: real)
    requires |out| == |pinned| == |w| && Underway(PinsOf(out, pinned), w, bounds, avail, level)
    requires FreeWeight(w, PinsOf(out, pinned)) <= 0.0 && forall i :: 0 <= i < |w| ==> w[i] > 0.0
    ensures out == Raw(w, bounds, avail)
  {
    NoneFree(w, PinsOf(out, pinned));
    assert forall i :: 0 <= i < |w| ==> PinsOf(out, pinned)[i].Some?;
    assert out == Values(PinsOf(out, pinned), Shares(w, level));
  }

  /** One round of the loop: done, or fewer columns are free. */
  method OneRound(out0: seq<real>, pinned0: seq<bool>, w: seq<real>, bounds: seq<ColumnBounds>,
               avail: real, remaining0: real, ghost level: real)
    returns (done: bool, out: seq<real>, pinned: seq<bool>, remaining: real, ghost scale: real)
    requires |out0| == |w| && Books(out0, pinned0, avail, remaining0) && forall i :: 0 <= i < |w| ==> w[i] > 0.0
    requires Underway(PinsOf(out0, pinned0), w, bounds, avail, level)
    ensures done ==> out == Raw(w, bounds, avail)
    ensures !done ==> |out| == |w| && Books(out, pinned, avail, remaining)
                      && Underway(PinsOf(out, pinned), w, bounds, avail, scale)
                      && FreeCount(PinsOf(out, pinned)) < FreeCount(PinsOf(out0, pinned0))
  {
    out, pinned, remaining, scale := out0, pinned0, remaining0, level;
    var freeWeight := FreeWeightOf(w, out, pinned);
    if freeWeight <= 0.0 {
      AllPinned(out, pinned, w, bounds, avail, level);
      return true, out, pinned, remaining, scale;
    }
    BooksSum(out, pinned);
    PassOn(PinsOf(out, pinned), w, bounds, avail, level);
    var s := remaining / freeWeight;
    var pinnedAny;
    out, pinned, remaining, pinnedAny := PinViolators(out, pinned, w, bounds, avail, remaining, s);
    if !pinnedAny { out := FillFree(out, pinned, w, s); }
    return !pinnedAny, out, pinned, remaining, s;
  }

  /** The passes, before any squeeze: they settle every column within n + 1 rounds. */
  method Fill(w: seq<real>, bounds: seq<ColumnBounds>, avail: real) returns (out: seq<real>)
    requires forall i :: 0 <= i < |w| ==> w[i] > 0.0
    ensures out == Raw(w, bounds, avail)
  {
    var n, remaining := |w|, avail;
    out := seq(n, i => 0.0);
    var pinned := seq(n, i => false);
    ghost var level := 0.0;
    FillStart(n, out, pinned, avail);
    for pass := 0 to n + 1
      invariant |out| == n && Books(out, pinned, avail, remaining)
      invariant FreeCount(PinsOf(out, pinned)) + pass <= n
      invariant Underway(PinsOf(out, pinned), w, bounds, avail, level)
    {
      var done;
      done, out, pinned, remaining, level := OneRound(out, pinned, w, bounds, avail, remaining, level);
      if done { return; }
    }
    assert false;
  }

  /** `allocateColumns`: the passes, then a squeeze when what they pinned exceeds the room. */
  method AllocateColumns(weights: seq<real>, bounds: seq<ColumnBounds>, avail: real) returns (out: seq<real>)
    ensures out == Allocation(weights, bounds, avail)
  {
    out := Fill(Weights(weights), bounds, avail);
    var total := 0.0;
    for i := 0 to |out|
      invariant total == Sum(out[..i])
    {
      assert Init(out[..i + 1]) == out[..i];
      total := total + out[i];
    }
    assert out[..|out|] == out;
    if total > avail && total > 0.0 { out := Squeeze(out, avail, total); }
  }

  method Squeeze(raw: seq<real>, avail: real, total: real) returns (out: seq<real>)
    requires total == Sum(raw) && total > avail && total > 0.0
    ensures out == Squeezed(raw, avail)
  {
    var s := avail / total;
    out := raw;
    for i := 0 to |out|
      invariant |out| == |raw|
      invariant forall j :: 0 <= j < |out| ==> out[j] == if j < i then Share(raw[j], s) else raw[j]
    {
      out := out[i := Share(out[i], s)];
    }
  }
}
