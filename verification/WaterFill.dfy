/** What the column allocation achieves: when it honours every bound, and when it finds the water level. */
module WaterFill {
  import opened Seqs
  import opened Columns

  ghost predicate Positive(w: seq<real>) { forall i :: 0 <= i < |w| ==> w[i] > 0.0 }

  predicate InBounds(x: real, b: ColumnBounds) { Lo(b) <= x && (Hi(b).Some? ==> x <= Hi(b).value) }

  predicate AtBound(x: real, b: ColumnBounds) { x == Lo(b) || Some(x) == Hi(b) }

  ghost predicate Honoured(out: seq<real>, bounds: seq<ColumnBounds>) {
    forall i :: 0 <= i < |out| ==> InBounds(out[i], BoundsAt(bounds, i))
  }

  /** The share, kept within the bounds. */
  function Clamp(x: real, b: ColumnBounds): real {
    if x < Lo(b) then Lo(b) else if Hi(b).Some? && x > Hi(b).value then Hi(b).value else x
  }

  /** Every column takes its share at one common level, kept within its bounds. */
  ghost predicate AtLevel(out: seq<real>, w: seq<real>, bounds: seq<ColumnBounds>, level: real)
    requires |out| == |w|
  {
    forall i :: 0 <= i < |out| ==> out[i] == Clamp(Share(w[i], level), BoundsAt(bounds, i))
  }

  // ----- Sums -----

  lemma {:induction false} SumMonotone(s: seq<real>, t: seq<real>)
    requires |s| == |t| && forall i :: 0 <= i < |s| ==> s[i] <= t[i]
    ensures Sum(s) <= Sum(t)
    ensures Sum(s) == Sum(t) ==> s == t
  {
    if s != [] {
      SumMonotone(Init(s), Init(t));
      assert s == Init(s) + [Last(s)] && t == Init(t) + [Last(t)];
    }
  }

  lemma {:induction false} SumScaled(s: seq<real>, k: real, t: seq<real>)
    requires |s| == |t| && forall i :: 0 <= i < |s| ==> t[i] == Share(s[i], k)
    ensures Sum(t) == Share(Sum(s), k)
  {
    if s != [] { SumScaled(Init(s), k, Init(t)); }
  }

  lemma Times(w: real, a: real, b: real)
    requires w >= 0.0 && a <= b
    ensures Share(w, a) <= Share(w, b)
  {
  }

  lemma SharesOrder(w: seq<real>, a: real, b: real)
    requires a <= b && Positive(w)
    ensures forall i :: 0 <= i < |w| ==> Shares(w, a)[i] <= Shares(w, b)[i]
  {
    forall i | 0 <= i < |w| ensures Shares(w, a)[i] <= Shares(w, b)[i] { Times(w[i], a, b); }
  }

  lemma Divide(r: real, f: real)
    requires f > 0.0
    ensures Share(f, r / f) == r
  {
  }

  lemma Compare(f: real, a: real, b: real)
    requires f > 0.0
    ensures Share(f, a) <= Share(f, b) <==> a <= b
  {
    assert f * b - f * a == f * (b - a);
  }

  /** The total at a level: what is pinned, and the free weight's share. */
  lemma {:induction false} ValuesSum(pins: Pins, w: seq<real>, level: real)
    requires |pins| == |w|
    ensures Sum(Values(pins, Shares(w, level))) == PinnedSum(pins) + Share(FreeWeight(w, pins), level)
  {
    if w != [] {
      ValuesSum(Init(pins), Init(w), level);
      assert Init(Values(pins, Shares(w, level))) == Values(Init(pins), Shares(Init(w), level));
    }
  }

  /** The total grows with the level. */
  lemma TotalsOrder(pins: Pins, w: seq<real>, a: real, b: real)
    requires |pins| == |w| && FreeWeight(w, pins) > 0.0
    ensures a <= b <==> Sum(Values(pins, Shares(w, a))) <= Sum(Values(pins, Shares(w, b)))
  {
    ValuesSum(pins, w, a);
    ValuesSum(pins, w, b);
    Compare(FreeWeight(w, pins), a, b);
  }

  /** A pass divides the remainder exactly. */
  lemma ScaleTotal(pins: Pins, w: seq<real>, avail: real)
    requires |pins| == |w| && FreeWeight(w, pins) > 0.0
    ensures Sum(Values(pins, Shares(w, Scale(w, pins, avail)))) == avail
  {
    ValuesSum(pins, w, Scale(w, pins, avail));
    Divide(avail - PinnedSum(pins), FreeWeight(w, pins));
  }

  /** So its scale compares with any level as the totals do. */
  lemma ScaleBalances(pins: Pins, w: seq<real>, avail: real, level: real)
    requires |pins| == |w| && FreeWeight(w, pins) > 0.0
    ensures var scale := Scale(w, pins, avail);
            && Sum(Values(pins, Shares(w, scale))) == avail
            && (scale <= level <==> avail <= Sum(Values(pins, Shares(w, level))))
            && (level <= scale <==> Sum(Values(pins, Shares(w, level))) <= avail)
  {
    ScaleTotal(pins, w, avail);
    TotalsOrder(pins, w, Scale(w, pins, avail), level);
    TotalsOrder(pins, w, level, Scale(w, pins, avail));
  }

  // ----- Whatever the bounds -----

  ghost predicate PinsAtBounds(pins: Pins, bounds: seq<ColumnBounds>) {
    forall i :: 0 <= i < |pins| && pins[i].Some? ==> AtBound(pins[i].value, BoundsAt(bounds, i))
  }

  /** Where the passes end: nothing free violates its bounds, and the room is used up if anything is free. */
  ghost predicate Resting(pins: Pins, w: seq<real>, bounds: seq<ColumnBounds>, avail: real, level: real)
    requires |pins| == |w|
  {
    FreeWeight(w, pins) > 0.0 ==>
      && Pass(pins, Shares(w, level), bounds) == pins
      && Sum(Values(pins, Shares(w, level))) == avail
  }

  lemma {:induction false} SettleRests(pins: Pins, w: seq<real>, bounds: seq<ColumnBounds>, avail: real, level: real)
    requires |pins| == |w| && PinsAtBounds(pins, bounds)
    ensures var (last, l) := Settle(pins, w, bounds, avail, level);
            Extends(pins, last) && PinsAtBounds(last, bounds) && Resting(last, w, bounds, avail, l)
    decreases FreeCount(pins)
  {
    if FreeWeight(w, pins) > 0.0 {
      var scale := Scale(w, pins, avail);
      var next := Pass(pins, Shares(w, scale), bounds);
      ScaleBalances(pins, w, avail, scale);
      PinsGrow(pins, next);
      if next != pins { SettleRests(next, w, bounds, avail, scale); }
    }
  }

  lemma {:induction false} SettleExtends(pins: Pins, w: seq<real>, bounds: seq<ColumnBounds>, avail: real, level: real)
    requires |pins| == |w|
    ensures Extends(pins, Settle(pins, w, bounds, avail, level).0)
    decreases FreeCount(pins)
  {
    if FreeWeight(w, pins) > 0.0 {
      var scale := Scale(w, pins, avail);
      var next := Pass(pins, Shares(w, scale), bounds);
      PinsGrow(pins, next);
      if next != pins { SettleExtends(next, w, bounds, avail, scale); }
    }
  }

  /** The passes honour every bound, and divide what the bounded columns leave among the others in proportion to
      their weights; they leave room only with every column at a bound, and may overrun it. */
  lemma RawHonours(w: seq<real>, bounds: seq<ColumnBounds>, avail: real)
    requires Positive(w)
    ensures var raw := Raw(w, bounds, avail);
            && Honoured(raw, bounds)
            && (forall i :: 0 <= i < |raw| ==>
                  AtBound(raw[i], BoundsAt(bounds, i)) || raw[i] == Share(w[i], Settled(w, bounds, avail).1))
            && (Sum(raw) == avail || forall i :: 0 <= i < |raw| ==> AtBound(raw[i], BoundsAt(bounds, i)))
  {
    SettleRests(AllFree(|w|), w, bounds, avail, 0.0);
    var (pins, level) := Settled(w, bounds, avail);
    NoneFree(w, pins);
    if FreeWeight(w, pins) > 0.0 {
      forall i | 0 <= i < |pins| && pins[i].None? ensures Bound(Shares(w, level)[i], BoundsAt(bounds, i)).None? {
        assert Pass(pins, Shares(w, level), bounds)[i] == pins[i];
      }
    }
  }

  lemma Shrinks(x: real, s: real)
    requires x >= 0.0 && 0.0 <= s <= 1.0
    ensures 0.0 <= Share(x, s) <= x
  {
  }

  lemma ProperFraction(a: real, b: real)
    requires b > a >= 0.0
    ensures 0.0 <= a / b < 1.0 && Share(b, a / b) == a
  {
  }

  /** No width is negative or above its maximum, the sum is at most the room, and room is left over only if
      every column is at a bound. */
  lemma AllocationFits(weights: seq<real>, bounds: seq<ColumnBounds>, avail: real)
    requires avail >= 0.0
    ensures var out := Allocation(weights, bounds, avail);
            && (forall i :: 0 <= i < |out| ==>
                  out[i] >= 0.0 && (Hi(BoundsAt(bounds, i)).Some? ==> out[i] <= Hi(BoundsAt(bounds, i)).value))
            && Sum(out) <= avail
            && (Sum(out) == avail || forall i :: 0 <= i < |out| ==> AtBound(out[i], BoundsAt(bounds, i)))
  {
    var raw := Raw(Weights(weights), bounds, avail);
    RawHonours(Weights(weights), bounds, avail);
    if Sum(raw) > avail {
      ProperFraction(avail, Sum(raw));
      SumScaled(raw, avail / Sum(raw), Squeezed(raw, avail));
      forall i | 0 <= i < |raw| ensures 0.0 <= Squeezed(raw, avail)[i] <= raw[i] { Shrinks(raw[i], avail / Sum(raw)); }
    }
  }

  // ----- The first pass -----

  /** The level the weights alone would give. */
  function Opening(w: seq<real>, avail: real): real {
    if Sum(w) > 0.0 then avail / Sum(w) else 0.0
  }
  lemma {:induction false} FreeIsAll(w: seq<real>)
    ensures FreeWeight(w, AllFree(|w|)) == Sum(w) && PinnedSum(AllFree(|w|)) == 0.0
  {
    if w != [] {
      FreeIsAll(Init(w));
      assert Init(AllFree(|w|)) == AllFree(|w| - 1);
    }
  }

  lemma {:induction false} PositiveSum(w: seq<real>)
    requires Positive(w)
    ensures w != [] ==> Sum(w) > 0.0
  {
    if |w| > 1 { PositiveSum(Init(w)); } else if w != [] { assert Init(w) == []; }
  }

  /** The first pass starts from the weights alone. */
  lemma Opens(w: seq<real>, bounds: seq<ColumnBounds>, avail: real)
    requires Positive(w) && w != []
    ensures Settled(w, bounds, avail) == Settle(AllFree(|w|), w, bounds, avail, Opening(w, avail))
    ensures Sum(Values(AllFree(|w|), Shares(w, Opening(w, avail)))) == avail
  {
    FreeIsAll(w);
    PositiveSum(w);
    ScaleBalances(AllFree(|w|), w, avail, Opening(w, avail));
  }

  /** Everything follows from the first pass, which compares the bounds with the shares at the opening level. */
  function First(w: seq<real>, bounds: seq<ColumnBounds>, avail: real): (r: Pins)
    ensures |r| == |w|
  {
    Pass(AllFree(|w|), Shares(w, Opening(w, avail)), bounds)
  }

  lemma FirstPass(w: seq<real>, bounds: seq<ColumnBounds>, avail: real)
    requires Positive(w) && w != []
    ensures Settled(w, bounds, avail) == Settle(First(w, bounds, avail), w, bounds, avail, Opening(w, avail))
    ensures Extends(First(w, bounds, avail), Settled(w, bounds, avail).0)
  {
    Opens(w, bounds, avail);
    FreeIsAll(w);
    PositiveSum(w);
    assert Scale(w, AllFree(|w|), avail) == Opening(w, avail);
    SettleExtends(First(w, bounds, avail), w, bounds, avail, Opening(w, avail));
  }

  /** No free column is below its minimum. */
  ghost predicate AboveFloors(pins: Pins, w: seq<real>, bounds: seq<ColumnBounds>, level: real)
    requires |pins| == |w|
  {
    forall i :: 0 <= i < |pins| && pins[i].None? ==> Lo(BoundsAt(bounds, i)) <= Share(w[i], level)
  }

  /** No free column is above its maximum. */
  ghost predicate UnderCaps(pins: Pins, w: seq<real>, bounds: seq<ColumnBounds>, level: real)
    requires |pins| == |w|
  {
    forall i :: 0 <= i < |pins| && pins[i].None? && Hi(BoundsAt(bounds, i)).Some? ==>
      Share(w[i], level) <= Hi(BoundsAt(bounds, i)).value
  }

  lemma FirstContains(w: seq<real>, bounds: seq<ColumnBounds>, avail: real)
    ensures AboveFloors(First(w, bounds, avail), w, bounds, Opening(w, avail))
    ensures UnderCaps(First(w, bounds, avail), w, bounds, Opening(w, avail))
  {
    var first := First(w, bounds, avail);
    forall i | 0 <= i < |w| && first[i].None?
      ensures Bound(Share(w[i], Opening(w, avail)), BoundsAt(bounds, i)).None?
    {
    }
  }

  // ----- Exactly when every bound is honoured -----

  /** What a column claims: its maximum if the weights alone would give it more, else its minimum. */
  function Claim(share: real, b: ColumnBounds): real {
    if Hi(b).Some? && share > Hi(b).value then Hi(b).value else Lo(b)
  }

  function Claims(w: seq<real>, bounds: seq<ColumnBounds>, avail: real): (r: seq<real>)
    ensures |r| == |w|
  {
    seq(|w|, i requires 0 <= i < |w| => Claim(Share(w[i], Opening(w, avail)), BoundsAt(bounds, i)))
  }

  /** If the first pass frees room, the level only rises and the room is never overrun. */
  lemma {:induction false} Rises(pins: Pins, w: seq<real>, bounds: seq<ColumnBounds>, avail: real, level: real)
    requires |pins| == |w| && Positive(w) && AboveFloors(pins, w, bounds, level)
    requires Sum(Values(pins, Shares(w, level))) <= avail
    ensures var (last, l) := Settle(pins, w, bounds, avail, level); Sum(Values(last, Shares(w, l))) <= avail
    decreases FreeCount(pins)
  {
    if FreeWeight(w, pins) > 0.0 {
      var scale := Scale(w, pins, avail);
      var next := Pass(pins, Shares(w, scale), bounds);
      PinsGrow(pins, next);
      ScaleBalances(pins, w, avail, level);
      PassRises(pins, w, bounds, level, scale);
      if next != pins { Rises(next, w, bounds, avail, scale); }
    }
  }

  lemma PassRises(pins: Pins, w: seq<real>, bounds: seq<ColumnBounds>, level: real, scale: real)
    requires |pins| == |w| && Positive(w) && AboveFloors(pins, w, bounds, level) && level <= scale
    ensures var shares := Shares(w, scale);
            var next := Pass(pins, shares, bounds);
            AboveFloors(next, w, bounds, scale) && Sum(Values(next, shares)) <= Sum(Values(pins, shares))
  {
    var shares := Shares(w, scale);
    var next := Pass(pins, shares, bounds);
    forall i | 0 <= i < |w| && pins[i].None? ensures Lo(BoundsAt(bounds, i)) <= shares[i] { Times(w[i], level, scale); }
    SumMonotone(Values(next, shares), Values(pins, shares));
  }

  /** The pinned columns have what they claim, and the free ones claim no more than their minimums. */
  ghost predicate OnClaims(pins: Pins, bounds: seq<ColumnBounds>, claims: seq<real>)
    requires |pins| == |claims|
  {
    forall i :: 0 <= i < |pins| ==> claims[i] == if pins[i].Some? then pins[i].value else Lo(BoundsAt(bounds, i))
  }

  /** If it takes room, the level only falls and every column pinned has what it claims. */
  lemma {:induction false} Falls(pins: Pins, w: seq<real>, bounds: seq<ColumnBounds>, avail: real, level: real, claims: seq<real>)
    requires |pins| == |w| == |claims| && Positive(w) && UnderCaps(pins, w, bounds, level)
    requires OnClaims(pins, bounds, claims) && avail <= Sum(Values(pins, Shares(w, level)))
    ensures OnClaims(Settle(pins, w, bounds, avail, level).0, bounds, claims)
    decreases FreeCount(pins)
  {
    if FreeWeight(w, pins) > 0.0 {
      var scale := Scale(w, pins, avail);
      var next := Pass(pins, Shares(w, scale), bounds);
      PinsGrow(pins, next);
      ScaleBalances(pins, w, avail, level);
      PassFalls(pins, w, bounds, level, scale, claims);
      if next != pins { Falls(next, w, bounds, avail, scale, claims); }
    }
  }

  lemma PassFalls(pins: Pins, w: seq<real>, bounds: seq<ColumnBounds>, level: real, scale: real, claims: seq<real>)
    requires |pins| == |w| == |claims| && Positive(w) && UnderCaps(pins, w, bounds, level) && scale <= level
    requires OnClaims(pins, bounds, claims)
    ensures var shares := Shares(w, scale);
            var next := Pass(pins, shares, bounds);
            && UnderCaps(next, w, bounds, scale) && OnClaims(next, bounds, claims)
            && Sum(Values(pins, shares)) <= Sum(Values(next, shares))
  {
    var shares := Shares(w, scale);
    var next := Pass(pins, shares, bounds);
    forall i | 0 <= i < |w| && pins[i].None? && Hi(BoundsAt(bounds, i)).Some?
      ensures shares[i] <= Hi(BoundsAt(bounds, i)).value
    {
      Times(w[i], scale, level);
    }
    SumMonotone(Values(pins, shares), Values(next, shares));
  }

  lemma FirstClaims(w: seq<real>, bounds: seq<ColumnBounds>, avail: real)
    ensures OnClaims(First(w, bounds, avail), bounds, Claims(w, bounds, avail))
  {
  }

  /** No column ends with less than it claims. */
  lemma ClaimsBelow(w: seq<real>, bounds: seq<ColumnBounds>, avail: real)
    requires Positive(w) && w != []
    ensures Sum(Claims(w, bounds, avail)) <= Sum(Raw(w, bounds, avail))
  {
    var claims, raw, first := Claims(w, bounds, avail), Raw(w, bounds, avail), First(w, bounds, avail);
    FirstPass(w, bounds, avail);
    FirstClaims(w, bounds, avail);
    RawHonours(w, bounds, avail);
    forall i | 0 <= i < |w| ensures claims[i] <= raw[i] {
      assert InBounds(raw[i], BoundsAt(bounds, i));
      if first[i].Some? { assert Settled(w, bounds, avail).0[i] == first[i]; }
    }
    SumMonotone(claims, raw);
  }

  /** The passes stay within the room if the claims do; otherwise they end at the claims. */
  lemma ClaimsDecide(w: seq<real>, bounds: seq<ColumnBounds>, avail: real)
    requires Positive(w) && w != []
    ensures var claims, raw := Claims(w, bounds, avail), Raw(w, bounds, avail);
            if Sum(claims) <= avail then Sum(raw) <= avail else raw == claims
  {
    var first, level := First(w, bounds, avail), Opening(w, avail);
    FirstPass(w, bounds, avail);
    FirstContains(w, bounds, avail);
    ClaimsBelow(w, bounds, avail);
    if Sum(Values(first, Shares(w, level))) <= avail {
      Rises(first, w, bounds, avail, level);
    } else {
      FirstClaims(w, bounds, avail);
      Falls(first, w, bounds, avail, level, Claims(w, bounds, avail));
      EndsOnClaims(w, bounds, avail);
    }
  }

  lemma EndsOnClaims(w: seq<real>, bounds: seq<ColumnBounds>, avail: real)
    requires Positive(w) && OnClaims(Settled(w, bounds, avail).0, bounds, Claims(w, bounds, avail))
    ensures Raw(w, bounds, avail) == Claims(w, bounds, avail) || Sum(Raw(w, bounds, avail)) == avail
  {
    var (pins, level) := Settled(w, bounds, avail);
    SettleRests(AllFree(|w|), w, bounds, avail, 0.0);
    NoneFree(w, pins);
  }

  /** Where the claims exceed the room, every column shrinks in proportion to its claim. */
  lemma ClaimsShrink(weights: seq<real>, bounds: seq<ColumnBounds>, avail: real, i: nat)
    requires i < |weights| && avail >= 0.0 && Sum(Claims(Weights(weights), bounds, avail)) > avail
    ensures var claims := Claims(Weights(weights), bounds, avail);
            Allocation(weights, bounds, avail)[i] == Share(claims[i], avail / Sum(claims))
  {
    ClaimsDecide(Weights(weights), bounds, avail);
  }

  /** Every bound, minimum and maximum, is honoured if and only if the claims fit the room; nothing is squeezed
      then. */
  lemma BoundsHonouredIff(weights: seq<real>, bounds: seq<ColumnBounds>, avail: real)
    requires avail >= 0.0
    ensures var w := Weights(weights);
            && (Honoured(Allocation(weights, bounds, avail), bounds) <==> Sum(Claims(w, bounds, avail)) <= avail)
            && (Sum(Claims(w, bounds, avail)) <= avail ==> Allocation(weights, bounds, avail) == Raw(w, bounds, avail))
  {
    var w := Weights(weights);
    var claims := Claims(w, bounds, avail);
    RawHonours(w, bounds, avail);
    if w != [] {
      ClaimsDecide(w, bounds, avail);
      if Sum(claims) > avail {
        var i := SqueezedFloor(w, bounds, avail);
        ClaimsShrink(weights, bounds, avail, i);
        ProperFraction(avail, Sum(claims));
        ShrinksStrictly(claims[i], avail / Sum(claims));
      }
    }
  }

  /** Among claims that exceed the room, one is a minimum above its share. */
  lemma SqueezedFloor(w: seq<real>, bounds: seq<ColumnBounds>, avail: real) returns (i: nat)
    requires Positive(w) && w != [] && avail >= 0.0 && Sum(Claims(w, bounds, avail)) > avail
    ensures i < |w| && Claims(w, bounds, avail)[i] == Lo(BoundsAt(bounds, i)) > 0.0
  {
    var claims, shares := Claims(w, bounds, avail), Shares(w, Opening(w, avail));
    Opens(w, bounds, avail);
    OpeningNonNegative(w, avail);
    assert Values(AllFree(|w|), shares) == shares;
    if forall j :: 0 <= j < |w| ==> claims[j] <= shares[j] {
      SumMonotone(claims, shares);
      assert false;
    }
    i :| 0 <= i < |w| && claims[i] > shares[i];
    Times(w[i], 0.0, Opening(w, avail));
  }

  lemma ShrinksStrictly(x: real, s: real)
    requires x > 0.0 && s < 1.0
    ensures Share(x, s) < x
  {
  }

  lemma OpeningNonNegative(w: seq<real>, avail: real)
    requires avail >= 0.0
    ensures Opening(w, avail) >= 0.0
  {
  }

  // ----- Exactly when the water level is found -----

  /** The columns at a level, each kept within its bounds. */
  function Targets(w: seq<real>, bounds: seq<ColumnBounds>, level: real): (r: seq<real>)
    ensures |r| == |w|
  {
    seq(|w|, i requires 0 <= i < |w| => Clamp(Share(w[i], level), BoundsAt(bounds, i)))
  }

  ghost predicate OnTarget(pins: Pins, targets: seq<real>)
    requires |pins| == |targets|
  {
    forall i :: 0 <= i < |pins| && pins[i].Some? ==> pins[i].value == targets[i]
  }

  /** A bound the weights alone would violate is a target. */
  ghost predicate OpensOnTarget(w: seq<real>, bounds: seq<ColumnBounds>, avail: real, targets: seq<real>) {
    forall i :: 0 <= i < |w| && i < |targets| ==>
      var b := Bound(Share(w[i], Opening(w, avail)), BoundsAt(bounds, i)); b.None? || b.value == targets[i]
  }

  /** Between the last level and the target level, a pass pins on target only. */
  lemma PassOnTarget(pins: Pins, w: seq<real>, bounds: seq<ColumnBounds>, level: real, scale: real, target: real)
    requires |pins| == |w| && Positive(w) && AboveFloors(pins, w, bounds, level) && UnderCaps(pins, w, bounds, level)
    requires OnTarget(pins, Targets(w, bounds, target))
    requires level <= scale <= target || target <= scale <= level
    ensures var next := Pass(pins, Shares(w, scale), bounds);
            && AboveFloors(next, w, bounds, scale) && UnderCaps(next, w, bounds, scale)
            && OnTarget(next, Targets(w, bounds, target))
  {
    forall i | 0 <= i < |w|
      ensures level <= scale <= target ==> Share(w[i], level) <= Share(w[i], scale) <= Share(w[i], target)
      ensures target <= scale <= level ==> Share(w[i], target) <= Share(w[i], scale) <= Share(w[i], level)
    {
      if level <= scale { Times(w[i], level, scale); } else { Times(w[i], scale, level); }
      if scale <= target { Times(w[i], scale, target); } else { Times(w[i], target, scale); }
    }
  }

  /** While all is on target, the next scale lies between the last level and the target level. */
  lemma ScaleBetween(pins: Pins, w: seq<real>, bounds: seq<ColumnBounds>, avail: real, level: real, target: real)
    requires |pins| == |w| && Positive(w) && AboveFloors(pins, w, bounds, level) && UnderCaps(pins, w, bounds, level)
    requires OnTarget(pins, Targets(w, bounds, target)) && Sum(Targets(w, bounds, target)) == avail
    requires FreeWeight(w, pins) > 0.0
    ensures var scale := Scale(w, pins, avail); level <= scale <= target || target <= scale <= level
  {
    var targets, here, there := Targets(w, bounds, target), Values(pins, Shares(w, level)), Values(pins, Shares(w, target));
    ScaleBalances(pins, w, avail, level);
    ScaleBalances(pins, w, avail, target);
    if level <= target {
      forall i | 0 <= i < |w| ensures here[i] <= targets[i] <= there[i] { Times(w[i], level, target); }
      SumMonotone(here, targets);
      SumMonotone(targets, there);
    } else {
      forall i | 0 <= i < |w| ensures there[i] <= targets[i] <= here[i] { Times(w[i], target, level); }
      SumMonotone(there, targets);
      SumMonotone(targets, here);
    }
  }

  lemma {:induction false} SettlesOnTarget(pins: Pins, w: seq<real>, bounds: seq<ColumnBounds>, avail: real,
                                           level: real, target: real)
    requires |pins| == |w| && Positive(w) && AboveFloors(pins, w, bounds, level) && UnderCaps(pins, w, bounds, level)
    requires OnTarget(pins, Targets(w, bounds, target)) && Sum(Targets(w, bounds, target)) == avail
    ensures var (last, l) := Settle(pins, w, bounds, avail, level);
            && OnTarget(last, Targets(w, bounds, target))
            && AboveFloors(last, w, bounds, l) && UnderCaps(last, w, bounds, l)
    decreases FreeCount(pins)
  {
    if FreeWeight(w, pins) > 0.0 {
      var scale := Scale(w, pins, avail);
      var next := Pass(pins, Shares(w, scale), bounds);
      PinsGrow(pins, next);
      ScaleBetween(pins, w, bounds, avail, level, target);
      PassOnTarget(pins, w, bounds, level, scale, target);
      if next != pins { SettlesOnTarget(next, w, bounds, avail, scale, target); }
    }
  }

  /** Columns pinned on target leave the others theirs. */
  lemma RestOnTarget(pins: Pins, w: seq<real>, bounds: seq<ColumnBounds>, level: real, target: real)
    requires |pins| == |w| && Positive(w) && AboveFloors(pins, w, bounds, level) && UnderCaps(pins, w, bounds, level)
    requires OnTarget(pins, Targets(w, bounds, target))
    requires Sum(Values(pins, Shares(w, level))) == Sum(Targets(w, bounds, target))
    ensures Values(pins, Shares(w, level)) == Targets(w, bounds, target)
  {
    var targets, here := Targets(w, bounds, target), Values(pins, Shares(w, level));
    if level <= target {
      forall i | 0 <= i < |w| ensures here[i] <= targets[i] { Times(w[i], level, target); }
      SumMonotone(here, targets);
    } else {
      forall i | 0 <= i < |w| ensures targets[i] <= here[i] { Times(w[i], target, level); }
      SumMonotone(targets, here);
    }
  }

  /** Where the columns at some level, kept within their bounds, fill the room, the passes find it if and only if
      every bound the opening level violates is a target. */
  lemma LevelFoundIff(w: seq<real>, bounds: seq<ColumnBounds>, avail: real, target: real)
    requires Positive(w) && w != [] && Sum(Targets(w, bounds, target)) == avail
    ensures Raw(w, bounds, avail) == Targets(w, bounds, target) <==> OpensOnTarget(w, bounds, avail, Targets(w, bounds, target))
  {
    var targets, first := Targets(w, bounds, target), First(w, bounds, avail);
    var (pins, level) := Settled(w, bounds, avail);
    FirstPass(w, bounds, avail);
    if OpensOnTarget(w, bounds, avail, targets) {
      FirstContains(w, bounds, avail);
      SettlesOnTarget(first, w, bounds, avail, Opening(w, avail), target);
      SettleRests(AllFree(|w|), w, bounds, avail, 0.0);
      NoneFree(w, pins);
      if FreeWeight(w, pins) > 0.0 { RestOnTarget(pins, w, bounds, level, target); }
    } else {
      var i :| 0 <= i < |w| && first[i].Some? && first[i].value != targets[i];
      assert pins[i] == first[i];
    }
  }

  /** The same after the squeeze. */
  lemma AllocationFoundIff(weights: seq<real>, bounds: seq<ColumnBounds>, avail: real, target: real)
    requires weights != [] && avail >= 0.0 && Sum(Targets(Weights(weights), bounds, target)) == avail
    ensures var w := Weights(weights);
            Allocation(weights, bounds, avail) == Targets(w, bounds, target)
            <==> OpensOnTarget(w, bounds, avail, Targets(w, bounds, target))
  {
    var w := Weights(weights);
    LevelFoundIff(w, bounds, avail, target);
    BoundsHonouredIff(weights, bounds, avail);
    assert Honoured(Targets(w, bounds, target), bounds);
  }

  // ----- One kind of bound at a time -----

  /** At that level no column exceeds its maximum. */
  ghost predicate CapsIdle(w: seq<real>, bounds: seq<ColumnBounds>, level: real) {
    forall i :: 0 <= i < |w| && Hi(BoundsAt(bounds, i)).Some? ==> Share(w[i], level) <= Hi(BoundsAt(bounds, i)).value
  }

  /** At that level no column falls below its minimum. */
  ghost predicate FloorsIdle(w: seq<real>, bounds: seq<ColumnBounds>, level: real) {
    forall i :: 0 <= i < |w| ==> Lo(BoundsAt(bounds, i)) <= Share(w[i], level)
  }

  /** Dividing the room by weight alone violates minimums only, or maximums only, or nothing. */
  ghost predicate OneSided(w: seq<real>, bounds: seq<ColumnBounds>, avail: real) {
    CapsIdle(w, bounds, Opening(w, avail)) || FloorsIdle(w, bounds, Opening(w, avail))
  }

  /** Only minimums are pinned, none below its share. */
  ghost predicate AtFloors(pins: Pins, w: seq<real>, bounds: seq<ColumnBounds>, level: real)
    requires |pins| == |w|
  {
    forall i :: 0 <= i < |pins| && pins[i].Some? ==>
      pins[i].value == Lo(BoundsAt(bounds, i)) && Share(w[i], level) <= pins[i].value
  }

  /** Only maximums are pinned, none above its share. */
  ghost predicate AtCaps(pins: Pins, w: seq<real>, bounds: seq<ColumnBounds>, level: real)
    requires |pins| == |w|
  {
    forall i :: 0 <= i < |pins| && pins[i].Some? ==>
      pins[i] == Hi(BoundsAt(bounds, i)) && pins[i].value <= Share(w[i], level)
  }

  lemma AtCapsAbove(pins: Pins, w: seq<real>, bounds: seq<ColumnBounds>, level: real, scale: real)
    requires |pins| == |w| && Positive(w) && level <= scale && AtCaps(pins, w, bounds, level)
    ensures AtCaps(pins, w, bounds, scale)
  {
    forall i | 0 <= i < |w| ensures Share(w[i], level) <= Share(w[i], scale) { Times(w[i], level, scale); }
  }

  lemma CapsIdleBelow(w: seq<real>, bounds: seq<ColumnBounds>, level: real, scale: real)
    requires Positive(w) && CapsIdle(w, bounds, level) && scale <= level
    ensures CapsIdle(w, bounds, scale)
  {
    SharesOrder(w, scale, level);
    assert forall i :: 0 <= i < |w| ==> Shares(w, level)[i] == Share(w[i], level) && Shares(w, scale)[i] == Share(w[i], scale);
  }

  lemma FloorsIdleAbove(w: seq<real>, bounds: seq<ColumnBounds>, level: real, scale: real)
    requires Positive(w) && FloorsIdle(w, bounds, level) && level <= scale
    ensures FloorsIdle(w, bounds, scale)
  {
    SharesOrder(w, level, scale);
    assert forall i :: 0 <= i < |w| ==> Shares(w, level)[i] == Share(w[i], level) && Shares(w, scale)[i] == Share(w[i], scale);
  }

  /** Pinning at minimums lowers the level. */
  lemma FloorsPass(pins: Pins, w: seq<real>, bounds: seq<ColumnBounds>, avail: real, level: real)
    requires |pins| == |w| && Positive(w) && FreeWeight(w, pins) > 0.0 && CapsIdle(w, bounds, level)
    requires AtFloors(pins, w, bounds, level) && avail <= Sum(Values(pins, Shares(w, level)))
    ensures var scale := Scale(w, pins, avail);
            var next := Pass(pins, Shares(w, scale), bounds);
            && scale <= level && CapsIdle(w, bounds, scale)
            && AtFloors(next, w, bounds, scale) && avail <= Sum(Values(next, Shares(w, scale)))
  {
    var scale := Scale(w, pins, avail);
    var shares := Shares(w, scale);
    ScaleBalances(pins, w, avail, level);
    SharesOrder(w, scale, level);
    CapsIdleBelow(w, bounds, level, scale);
    SumMonotone(Values(pins, shares), Values(Pass(pins, shares, bounds), shares));
  }

  lemma {:induction false} FloorsRun(pins: Pins, w: seq<real>, bounds: seq<ColumnBounds>, avail: real, level: real)
    requires |pins| == |w| && Positive(w) && CapsIdle(w, bounds, level)
    requires AtFloors(pins, w, bounds, level) && avail <= Sum(Values(pins, Shares(w, level)))
    ensures var (last, l) := Settle(pins, w, bounds, avail, level);
            AtFloors(last, w, bounds, l) && avail <= Sum(Values(last, Shares(w, l)))
    decreases FreeCount(pins)
  {
    if FreeWeight(w, pins) > 0.0 {
      var scale := Scale(w, pins, avail);
      var next := Pass(pins, Shares(w, scale), bounds);
      PinsGrow(pins, next);
      FloorsPass(pins, w, bounds, avail, level);
      if next != pins { FloorsRun(next, w, bounds, avail, scale); }
    }
  }

  lemma {:induction false} CapsRun(pins: Pins, w: seq<real>, bounds: seq<ColumnBounds>, avail: real, level: real)
    requires |pins| == |w| && Positive(w) && level >= 0.0 && FloorsIdle(w, bounds, level)
    requires AtCaps(pins, w, bounds, level) && Sum(Values(pins, Shares(w, level))) <= avail
    ensures var (last, l) := Settle(pins, w, bounds, avail, level);
            AtCaps(last, w, bounds, l) && Sum(Values(last, Shares(w, l))) <= avail
    decreases FreeCount(pins)
  {
    if FreeWeight(w, pins) > 0.0 {
      var scale := Scale(w, pins, avail);
      var next := Pass(pins, Shares(w, scale), bounds);
      PinsGrow(pins, next);
      CapsIdlePass(pins, w, bounds, avail, level);
      if next != pins { CapsRun(next, w, bounds, avail, scale); }
    }
  }

  /** Pinning at maximums raises the level. */
  lemma CapsIdlePass(pins: Pins, w: seq<real>, bounds: seq<ColumnBounds>, avail: real, level: real)
    requires |pins| == |w| && Positive(w) && FreeWeight(w, pins) > 0.0 && FloorsIdle(w, bounds, level)
    requires AtCaps(pins, w, bounds, level) && Sum(Values(pins, Shares(w, level))) <= avail
    ensures var scale := Scale(w, pins, avail);
            var next := Pass(pins, Shares(w, scale), bounds);
            && level <= scale && FloorsIdle(w, bounds, scale)
            && AtCaps(next, w, bounds, scale) && Sum(Values(next, Shares(w, scale))) <= avail
  {
    var scale := Scale(w, pins, avail);
    var shares := Shares(w, scale);
    ScaleBalances(pins, w, avail, level);
    SharesOrder(w, level, scale);
    FloorsIdleAbove(w, bounds, level, scale);
    AtCapsAbove(pins, w, bounds, level, scale);
    CapsNext(pins, w, bounds, scale);
    SumMonotone(Values(Pass(pins, shares, bounds), shares), Values(pins, shares));
  }

  lemma CapsNext(pins: Pins, w: seq<real>, bounds: seq<ColumnBounds>, scale: real)
    requires |pins| == |w| && FloorsIdle(w, bounds, scale) && AtCaps(pins, w, bounds, scale)
    ensures var shares := Shares(w, scale);
            var next := Pass(pins, shares, bounds);
            && AtCaps(next, w, bounds, scale)
            && forall i :: 0 <= i < |w| ==> Values(next, shares)[i] <= Values(pins, shares)[i]
  {
  }

  lemma RestsAtLevel(pins: Pins, w: seq<real>, bounds: seq<ColumnBounds>, avail: real, level: real)
    requires |pins| == |w| && Positive(w) && Resting(pins, w, bounds, avail, level)
    requires AtFloors(pins, w, bounds, level) || AtCaps(pins, w, bounds, level)
    ensures AtLevel(Values(pins, Shares(w, level)), w, bounds, level)
  {
    NoneFree(w, pins);
    forall i | 0 <= i < |pins|
      ensures Values(pins, Shares(w, level))[i] == Clamp(Share(w[i], level), BoundsAt(bounds, i))
    {
      if pins[i].None? { assert Pass(pins, Shares(w, level), bounds)[i] == pins[i]; }
    }
  }

  /** Where the weights alone violate no maximum: the water level, filling the room; or, where the minimums
      alone exceed the room, every column at its minimum. */
  lemma FloorsFill(w: seq<real>, bounds: seq<ColumnBounds>, avail: real)
    requires Positive(w) && w != [] && CapsIdle(w, bounds, Opening(w, avail))
    ensures var raw, lo := Raw(w, bounds, avail), Floors(|w|, bounds);
            && AtLevel(raw, w, bounds, Settled(w, bounds, avail).1)
            && (Sum(lo) <= avail ==> Sum(raw) == avail)
            && (Sum(lo) > avail ==> raw == lo)
  {
    Opens(w, bounds, avail);
    FloorsRun(AllFree(|w|), w, bounds, avail, Opening(w, avail));
    SettleRests(AllFree(|w|), w, bounds, avail, Opening(w, avail));
    var (pins, level) := Settled(w, bounds, avail);
    RestsAtLevel(pins, w, bounds, avail, level);
    NoneFree(w, pins);
    SumMonotone(Floors(|w|, bounds), Raw(w, bounds, avail));
    if FreeWeight(w, pins) <= 0.0 { assert Raw(w, bounds, avail) == Floors(|w|, bounds); }
  }

  /** Where they violate no minimum: the water level, within the room, and leaving none of it unless every
      column is at its maximum. */
  lemma CapsFill(w: seq<real>, bounds: seq<ColumnBounds>, avail: real)
    requires Positive(w) && w != [] && avail >= 0.0 && FloorsIdle(w, bounds, Opening(w, avail))
    ensures var raw := Raw(w, bounds, avail);
            && AtLevel(raw, w, bounds, Settled(w, bounds, avail).1)
            && Sum(raw) <= avail
            && (Sum(raw) == avail || forall i :: 0 <= i < |raw| ==> Some(raw[i]) == Hi(BoundsAt(bounds, i)))
  {
    Opens(w, bounds, avail);
    OpeningNonNegative(w, avail);
    CapsRun(AllFree(|w|), w, bounds, avail, Opening(w, avail));
    SettleRests(AllFree(|w|), w, bounds, avail, Opening(w, avail));
    var (pins, level) := Settled(w, bounds, avail);
    RestsAtLevel(pins, w, bounds, avail, level);
    NoneFree(w, pins);
  }

  /** With one kind of violation to begin with, minimums that fit are all honoured, and so is every maximum: the
      allocation is the water level. */
  lemma OneSidedFills(weights: seq<real>, bounds: seq<ColumnBounds>, avail: real)
    requires weights != [] && avail >= 0.0 && OneSided(Weights(weights), bounds, avail)
    requires Sum(Floors(|weights|, bounds)) <= avail
    ensures var out, w := Allocation(weights, bounds, avail), Weights(weights);
            && out == Raw(w, bounds, avail) && Sum(out) <= avail && Honoured(out, bounds)
            && AtLevel(out, w, bounds, Settled(w, bounds, avail).1)
            && (CapsIdle(w, bounds, Opening(w, avail)) ==> Sum(out) == avail)
  {
    var w := Weights(weights);
    RawHonours(w, bounds, avail);
    if CapsIdle(w, bounds, Opening(w, avail)) { FloorsFill(w, bounds, avail); } else { CapsFill(w, bounds, avail); }
  }

  /** With one kind of violation to begin with, a target is where it opens. */
  lemma OneSidedOpens(w: seq<real>, bounds: seq<ColumnBounds>, avail: real, target: real)
    requires Positive(w) && w != [] && OneSided(w, bounds, avail) && Sum(Targets(w, bounds, target)) == avail
    ensures OpensOnTarget(w, bounds, avail, Targets(w, bounds, target))
  {
    var level, targets := Opening(w, avail), Targets(w, bounds, target);
    var shares := Shares(w, level);
    Opens(w, bounds, avail);
    assert Values(AllFree(|w|), shares) == shares;
    if CapsIdle(w, bounds, level) {
      if level <= target {
        forall i | 0 <= i < |w| ensures shares[i] <= targets[i] { Times(w[i], level, target); }
        SumMonotone(shares, targets);
      } else {
        forall i | 0 <= i < |w| ensures Share(w[i], target) <= shares[i] { Times(w[i], target, level); }
      }
    } else {
      if target <= level {
        forall i | 0 <= i < |w| ensures targets[i] <= shares[i] { Times(w[i], target, level); }
        SumMonotone(targets, shares);
      } else {
        forall i | 0 <= i < |w| ensures shares[i] <= Share(w[i], target) { Times(w[i], level, target); }
      }
    }
  }

  /** Where no maximum is violated and the minimums alone exceed the room, all columns shrink in proportion to
      their minimums. */
  lemma FloorsShrinkInProportion(weights: seq<real>, bounds: seq<ColumnBounds>, avail: real, i: nat)
    requires i < |weights| && avail >= 0.0
    requires CapsIdle(Weights(weights), bounds, Opening(Weights(weights), avail))
    requires Sum(Floors(|weights|, bounds)) > avail
    ensures Allocation(weights, bounds, avail)[i]
            == Share(Lo(BoundsAt(bounds, i)), avail / Sum(Floors(|weights|, bounds)))
  {
    assert Claims(Weights(weights), bounds, avail) == Floors(|weights|, bounds);
    ClaimsShrink(weights, bounds, avail, i);
  }

  lemma ClampOrder(x: real, y: real, b: ColumnBounds)
    requires x <= y
    ensures Clamp(x, b) <= Clamp(y, b)
  {
  }

  lemma LevelOrder(a: seq<real>, b: seq<real>, w: seq<real>, bounds: seq<ColumnBounds>, la: real, lb: real)
    requires |a| == |b| == |w| && Positive(w)
    requires AtLevel(a, w, bounds, la) && AtLevel(b, w, bounds, lb) && la <= lb
    ensures Sum(a) == Sum(b) ==> a == b
  {
    forall i | 0 <= i < |a| ensures a[i] <= b[i] {
      Times(w[i], la, lb);
      ClampOrder(Share(w[i], la), Share(w[i], lb), BoundsAt(bounds, i));
    }
    SumMonotone(a, b);
  }

  /** The level is no accident of the passes: the total determines every column. */
  lemma LevelUnique(a: seq<real>, b: seq<real>, w: seq<real>, bounds: seq<ColumnBounds>, la: real, lb: real)
    requires |a| == |b| == |w| && Positive(w)
    requires AtLevel(a, w, bounds, la) && AtLevel(b, w, bounds, lb) && Sum(a) == Sum(b)
    ensures a == b
  {
    if la <= lb { LevelOrder(a, b, w, bounds, la, lb); } else { LevelOrder(b, a, w, bounds, lb, la); }
  }

  /** Both kinds at once: weights 1 and 1 in 100 pixels, a minimum of 60 beside a maximum of 45. The passes pin
      105, and the squeeze breaks a minimum for which there is room. */
  lemma MixedBoundsBreakMinimum()
    ensures var weights, bounds := [1.0, 1.0], [ColumnBounds(Some(60.0), None), ColumnBounds(None, Some(45.0))];
            && Sum(Floors(2, bounds)) <= 100.0
            && Raw(Weights(weights), bounds, 100.0) == [60.0, 45.0]
            && Sum(Raw(Weights(weights), bounds, 100.0)) == 105.0
            && Allocation(weights, bounds, 100.0)[0] < 60.0
  {
    var weights, bounds := [1.0, 1.0], [ColumnBounds(Some(60.0), None), ColumnBounds(None, Some(45.0))];
    var w, free: Pins := Weights(weights), AllFree(2);
    SumOfTwo([0.0, 0.0]);
    assert w == weights && free == [None, None];
    FreeIsAll(w);
    SumOfTwo(w);
    assert Scale(w, free, 100.0) == 50.0;
    var next: Pins := [Some(60.0), Some(45.0)];
    assert Pass(free, Shares(w, 50.0), bounds) == next;
    NoneFree(w, next);
    assert Settle(next, w, bounds, 100.0, 50.0) == (next, 50.0);
    assert Settled(w, bounds, 100.0) == (next, 50.0);
    assert Raw(w, bounds, 100.0) == [60.0, 45.0];
    SumOfTwo([60.0, 45.0]);
    SumOfTwo(Floors(2, bounds));
    ProperFraction(100.0, 105.0);
    ShrinksStrictly(60.0, 100.0 / 105.0);
  }

  lemma SumOfTwo(s: seq<real>)
    requires |s| == 2
    ensures Sum(s) == s[0] + s[1]
  {
    assert Init(s) == [s[0]] && Init(Init(s)) == [];
    assert Sum(Init(s)) == Sum(Init(Init(s))) + s[0];
  }
}
