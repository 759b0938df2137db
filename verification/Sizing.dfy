// ZEPHR's sizing curve: net edge as a function of order size.
module Sizing {
  import opened Common
  import opened Costs

  // One leg to price: the levels it would consume, and the costs that do not
  // depend on size (fee, latency and half the quoted spread, in bps).
  datatype LegInput = LegInput(side: Side, levels: seq<Level>, feeBps: real, latencyBps: real, spreadBps: real)

  // Market impact beyond the visible book, by notional and depth. Only its
  // growth with notional matters here.
  type Impact = (real, real) -> real

  // An empty book has unbounded impact: None.
  datatype LegQuote = LegQuote(
    notional: real, expectedPrice: real, slippageBps: real, impactBps: Option<real>, feeBps: real,
    latencyBps: real, spreadBps: real, exhausted: bool, usableLiquidity: real)
  {
    function TotalCostBps(): (r: Option<real>) {
      if impactBps.None? then None
      else Some(slippageBps + impactBps.value + feeBps + latencyBps + spreadBps)
    }
  }

  function QuoteLeg(leg: LegInput, notional: real, impact: Impact): (q: LegQuote) {
    var walk := Walk(leg.levels, notional, leg.side);
    var depth := Depth(leg.levels);
    LegQuote(
      notional,
      if walk.averagePrice != 0.0 then walk.averagePrice else if leg.levels != [] then leg.levels[0].price else 0.0,
      walk.slippageBps,
      if depth <= 0.0 then None else Some(impact(notional, depth)),
      leg.feeBps, leg.latencyBps, leg.spreadBps, walk.exhausted, depth)
  }

  function QuoteLegs(legs: seq<LegInput>, notional: real, impact: Impact): (r: seq<LegQuote>)
    ensures |r| == |legs|
    ensures forall i :: 0 <= i < |legs| ==> r[i] == QuoteLeg(legs[i], notional, impact)
  {
    seq(|legs|, i requires 0 <= i < |legs| => QuoteLeg(legs[i], notional, impact))
  }

  // Costs add up across legs; None when any of them is unbounded.
  function SumCosts(quotes: seq<LegQuote>): (r: Option<real>) {
    if quotes == [] then Some(0.0)
    else
      match (SumCosts(quotes[..|quotes| - 1]), quotes[|quotes| - 1].TotalCostBps())
      case (Some(a), Some(b)) => Some(a + b)
      case _ => None
  }

  datatype Terms = Terms(grossEdgeBps: real, hedgeBps: real, minNetEdgeBps: real)

  datatype SizePoint = SizePoint(notional: real, netEdgeBps: Option<real>, legs: seq<LegQuote>, feasible: bool) {
    function ExpectedProfit(): (r: real) {
      notional * (if netEdgeBps.Some? then netEdgeBps.value else 0.0) / 10000.0
    }
  }

  function PointAt(legs: seq<LegInput>, terms: Terms, notional: real, impact: Impact): (p: SizePoint) {
    var quotes := QuoteLegs(legs, notional, impact);
    var cost := SumCosts(quotes);
    var net := if cost.None? then None else Some(terms.grossEdgeBps - (cost.value + terms.hedgeBps));
    SizePoint(notional, net, quotes,
              legs != [] && (forall q :: q in quotes ==> !q.exhausted)
              && net.Some? && net.value >= terms.minNetEdgeBps)
  }

  datatype SizingCurve = SizingCurve(points: seq<SizePoint>, maxEconomicalNotional: real, best: Option<SizePoint>)

  // -- the ladder ------------------------------------------------------------------------

  function Within(sizes: seq<real>, maxNotional: Option<real>): (r: seq<real>)
    ensures forall x :: x in r <==> x in sizes && (maxNotional.None? || x <= maxNotional.value)
  {
    if sizes == [] then []
    else
      var before, last := Within(sizes[..|sizes| - 1], maxNotional), sizes[|sizes| - 1];
      assert sizes == sizes[..|sizes| - 1] + [last];
      if maxNotional.None? || last <= maxNotional.value then before + [last] else before
  }

  function Placed(ascending: seq<real>, x: real): (r: seq<real>) {
    if ascending == [] || x < ascending[0] then [x] + ascending
    else if x == ascending[0] then ascending
    else [ascending[0]] + Placed(ascending[1..], x)
  }

  function SortedUnique(sizes: seq<real>): (r: seq<real>) {
    if sizes == [] then [] else Placed(SortedUnique(sizes[..|sizes| - 1]), sizes[|sizes| - 1])
  }

  // The configured sizes up to the maximum; the maximum joins them, in order,
  // when it is positive and not among them.
  function Ladder(sizes: seq<real>, maxNotional: Option<real>): (r: seq<real>) {
    var kept := Within(sizes, maxNotional);
    if maxNotional.Some? && maxNotional.value > 0.0 && maxNotional.value !in kept
    then SortedUnique(kept + [maxNotional.value]) else kept
  }

  ghost predicate Ascending(sizes: seq<real>) {
    forall i, j :: 0 <= i < j < |sizes| ==> sizes[i] < sizes[j]
  }

  lemma {:induction false} PlacedAscending(ascending: seq<real>, x: real)
    requires Ascending(ascending)
    ensures Ascending(Placed(ascending, x))
    ensures forall y :: y in Placed(ascending, x) <==> y in ascending || y == x
  {
    if ascending != [] {
      assert ascending == [ascending[0]] + ascending[1..];
      if x > ascending[0] {
        PlacedAscending(ascending[1..], x);
        var rest := Placed(ascending[1..], x);
        forall i | 0 <= i < |rest| ensures ascending[0] < rest[i] {
          assert rest[i] in rest;
        }
      }
    }
  }

  lemma {:induction false} SortedUniqueAscending(sizes: seq<real>)
    ensures Ascending(SortedUnique(sizes))
    ensures forall y :: y in SortedUnique(sizes) <==> y in sizes
  {
    if sizes != [] {
      var before, last := sizes[..|sizes| - 1], sizes[|sizes| - 1];
      SortedUniqueAscending(before);
      assert sizes == before + [last];
      PlacedAscending(SortedUnique(before), last);
    }
  }

  // The ladder holds the configured sizes up to the maximum, and the maximum
  // itself when it is positive; nothing on it exceeds the maximum.
  lemma LadderMembers(sizes: seq<real>, maxNotional: Option<real>, x: real)
    ensures x in Ladder(sizes, maxNotional) <==>
      || (x in sizes && (maxNotional.None? || x <= maxNotional.value))
      || (maxNotional == Some(x) && x > 0.0)
    ensures maxNotional.Some? && maxNotional.value > 0.0 && maxNotional.value !in sizes ==> Ascending(Ladder(sizes, maxNotional))
  {
    var kept := Within(sizes, maxNotional);
    if maxNotional.Some? {
      SortedUniqueAscending(kept + [maxNotional.value]);
      assert x in kept + [maxNotional.value] <==> x in kept || x == maxNotional.value;
    }
  }

  // Evaluates the ladder; picks the most profitable feasible point and the
  // largest feasible size.
  method BuildSizingCurve(
    legs: seq<LegInput>, terms: Terms, sizes: seq<real>, maxNotional: Option<real>, impact: Impact)
    returns (curve: SizingCurve)
    ensures var ladder := Ladder(sizes, maxNotional);
      && |curve.points| == |ladder|
      && forall i :: 0 <= i < |ladder| ==> curve.points[i] == PointAt(legs, terms, ladder[i], impact)
    ensures curve.best.None? <==> forall p :: p in curve.points ==> !p.feasible
    ensures curve.best.Some? ==>
      && curve.best.value in curve.points && curve.best.value.feasible
      && forall p :: p in curve.points && p.feasible ==> p.ExpectedProfit() <= curve.best.value.ExpectedProfit()
    ensures curve.best.None? ==> curve.maxEconomicalNotional == 0.0
    ensures curve.best.Some? ==>
      && (exists p :: p in curve.points && p.feasible && p.notional == curve.maxEconomicalNotional)
      && forall p :: p in curve.points && p.feasible ==> p.notional <= curve.maxEconomicalNotional
  {
    var ladder := Ladder(sizes, maxNotional);
    hide Ladder;
    hide PointAt, SizePoint.ExpectedProfit;
    var points: seq<SizePoint>, best: Option<SizePoint>, maxSize := [], None, 0.0;
    for i := 0 to |ladder|
      invariant |points| == i
      invariant forall j :: 0 <= j < i ==> points[j] == PointAt(legs, terms, ladder[j], impact)
      invariant best.None? <==> forall p :: p in points ==> !p.feasible
      invariant best.Some? ==>
        && best.value in points && best.value.feasible
        && forall p :: p in points && p.feasible ==> p.ExpectedProfit() <= best.value.ExpectedProfit()
      invariant best.None? ==> maxSize == 0.0
      invariant best.Some? ==>
        && (exists p :: p in points && p.feasible && p.notional == maxSize)
        && forall p :: p in points && p.feasible ==> p.notional <= maxSize
    {
      var point := PointAt(legs, terms, ladder[i], impact);
      points := points + [point];
      assert point in points;
      if point.feasible {
        if best.None? {
          best, maxSize := Some(point), point.notional;
        } else {
          if point.ExpectedProfit() > best.value.ExpectedProfit() {
            best := Some(point);
          }
          if point.notional > maxSize {
            maxSize := point.notional;
          }
        }
      }
    }
    curve := SizingCurve(points, maxSize, best);
  }

  // -- shrinking is safe ----------------------------------------------------------------

  ghost predicate Nondecreasing(impact: Impact) {
    forall x: real, y: real, depth: real :: x <= y ==> impact(x, depth) <= impact(y, depth)
  }

  ghost predicate Priceable(legs: seq<LegInput>) {
    forall leg :: leg in legs ==> Stocked(leg.levels) && Sorted(leg.side, leg.levels)
  }

  // A smaller leg never costs more, and never exhausts a book a larger one does not.
  lemma SmallerLegCostsLess(leg: LegInput, x: real, y: real, impact: Impact)
    requires Nondecreasing(impact) && x <= y && Stocked(leg.levels) && Sorted(leg.side, leg.levels)
    ensures var q, r := QuoteLeg(leg, x, impact), QuoteLeg(leg, y, impact);
      && (q.exhausted ==> r.exhausted)
      && (q.TotalCostBps().None? <==> r.TotalCostBps().None?)
      && (q.TotalCostBps().Some? ==> q.TotalCostBps().value <= r.TotalCostBps().value)
  {
    WalkMonotone(leg.levels, x, y, leg.side);
  }

  lemma {:induction false} CostsMonotone(legs: seq<LegInput>, x: real, y: real, impact: Impact)
    requires Nondecreasing(impact) && x <= y && Priceable(legs)
    ensures var a, b := SumCosts(QuoteLegs(legs, x, impact)), SumCosts(QuoteLegs(legs, y, impact));
      (a.None? <==> b.None?) && (a.Some? ==> a.value <= b.value)
  {
    hide QuoteLeg, LegQuote.TotalCostBps, Stocked, Sorted, Nondecreasing;
    if legs != [] {
      var before, leg := legs[..|legs| - 1], legs[|legs| - 1];
      CostsMonotone(before, x, y, impact);
      SmallerLegCostsLess(leg, x, y, impact);
      var q, r := QuoteLegs(legs, x, impact), QuoteLegs(legs, y, impact);
      assert q[..|legs| - 1] == QuoteLegs(before, x, impact);
      assert r[..|legs| - 1] == QuoteLegs(before, y, impact);
    }
  }

  // Feasibility is downward closed, and shrinking never lowers the net edge.
  lemma ShrinkingIsSafe(legs: seq<LegInput>, terms: Terms, x: real, y: real, impact: Impact)
    requires Nondecreasing(impact) && Priceable(legs) && x <= y
    requires PointAt(legs, terms, y, impact).feasible
    ensures var p := PointAt(legs, terms, x, impact);
      p.feasible && p.netEdgeBps.value >= PointAt(legs, terms, y, impact).netEdgeBps.value
  {
    CostsMonotone(legs, x, y, impact);
    var q, r := QuoteLegs(legs, x, impact), QuoteLegs(legs, y, impact);
    forall i | 0 <= i < |legs| ensures !q[i].exhausted {
      assert r[i] in r;
      SmallerLegCostsLess(legs[i], x, y, impact);
    }
  }

  // On any curve the builder returns, every ladder size up to the maximum
  // economical notional is feasible, and no size above it is.
  lemma LadderFeasibleBelowMaximum(
    legs: seq<LegInput>, terms: Terms, ladder: seq<real>, impact: Impact, curve: SizingCurve, i: nat)
    requires Nondecreasing(impact) && Priceable(legs) && i < |ladder| == |curve.points|
    requires forall j :: 0 <= j < |ladder| ==> curve.points[j] == PointAt(legs, terms, ladder[j], impact)
    requires exists p :: p in curve.points && p.feasible && p.notional == curve.maxEconomicalNotional
    requires forall p :: p in curve.points && p.feasible ==> p.notional <= curve.maxEconomicalNotional
    ensures curve.points[i].feasible <==> ladder[i] <= curve.maxEconomicalNotional
  {
    var top :| 0 <= top < |ladder| && curve.points[top].feasible
      && curve.points[top].notional == curve.maxEconomicalNotional;
    if ladder[i] <= curve.maxEconomicalNotional {
      ShrinkingIsSafe(legs, terms, ladder[i], ladder[top], impact);
    } else {
      assert curve.points[i] in curve.points;
    }
  }

  // -- what makes a size feasible -------------------------------------------------------

  // What one leg costs at a size: slippage against the touch, impact beyond the
  // book, and its fixed costs.
  function LegCost(leg: LegInput, notional: real, impact: Impact): (r: real) {
    Walk(leg.levels, notional, leg.side).slippageBps + impact(notional, Depth(leg.levels))
    + leg.feeBps + leg.latencyBps + leg.spreadBps
  }

  function TotalCost(legs: seq<LegInput>, notional: real, impact: Impact): (r: real) {
    if legs == [] then 0.0
    else TotalCost(legs[..|legs| - 1], notional, impact) + LegCost(legs[|legs| - 1], notional, impact)
  }

  // The book holds the size, to within the tolerance.
  predicate DeepEnough(leg: LegInput, notional: real) {
    leg.levels != [] && notional <= Depth(leg.levels) + EXHAUSTED_TOLERANCE
  }

  // A size is feasible exactly when every leg's book holds it and what is left
  // of the gross edge after the hedge and every leg's costs reaches the
  // minimum; the profit expected of it is that edge on the notional.
  lemma FeasibleMeans(legs: seq<LegInput>, terms: Terms, notional: real, impact: Impact)
    requires Priceable(legs) && notional > 0.0
    ensures var p := PointAt(legs, terms, notional, impact);
      var edge := terms.grossEdgeBps - terms.hedgeBps - TotalCost(legs, notional, impact);
      && (p.feasible <==>
            legs != [] && (forall leg :: leg in legs ==> DeepEnough(leg, notional)) && edge >= terms.minNetEdgeBps)
      && (p.feasible ==> p.netEdgeBps == Some(edge) && 10000.0 * p.ExpectedProfit() == Times(notional, edge))
  {
    hide Walk, Depth, QuoteLegs, Priceable, DeepEnough;
    DeepEverywhere(legs, notional, impact);
    if forall leg :: leg in legs ==> DeepEnough(leg, notional) {
      CostsAreLegCosts(legs, notional, impact);
    }
  }

  // A leg is expected to trade at the average it spends its notional at, or at
  // the touch when nothing would be filled.
  lemma QuoteExpects(leg: LegInput, notional: real, impact: Impact)
    requires leg.levels != [] && Stocked(leg.levels) && Sorted(leg.side, leg.levels)
    ensures var q, r := QuoteLeg(leg, notional, impact), Walk(leg.levels, notional, leg.side);
      && q.usableLiquidity == Depth(leg.levels)
      && (notional > 0.0 ==>
            && Times(q.expectedPrice, r.filledQuantity) == r.filledNotional
            && Worse(leg.side, q.expectedPrice, leg.levels[0].price))
      && (notional <= 0.0 ==> q.expectedPrice == leg.levels[0].price)
  {
    if notional > 0.0 {
      TakesSomething(leg.levels, notional);
      WalkSpendsWithinBook(leg.levels, notional, leg.side);
      SlippageIsShortfall(leg.levels, notional, leg.side);
      AveragePaid(leg.levels, notional, leg.side);
      hide Walk, Depth, Times, Sorted, Stocked;
    }
  }

  lemma AveragePaid(levels: seq<Level>, notional: real, side: Side)
    requires levels != [] && notional > 0.0 && Take(levels, notional).quantity > 0.0 && Take(levels, notional).spent > 0.0
    ensures Walk(levels, notional, side).averagePrice > 0.0
  {
    hide Take;
  }

  lemma DeepEverywhere(legs: seq<LegInput>, notional: real, impact: Impact)
    requires Priceable(legs) && notional > 0.0
    ensures (forall q :: q in QuoteLegs(legs, notional, impact) ==> !q.exhausted) <==>
      forall leg :: leg in legs ==> DeepEnough(leg, notional)
  {
    hide Walk, QuoteLeg, Stocked, Sorted, DeepEnough;
    var quotes := QuoteLegs(legs, notional, impact);
    forall leg | leg in legs ensures !QuoteLeg(leg, notional, impact).exhausted <==> DeepEnough(leg, notional) {
      DeepIsNotExhausted(leg, notional, impact);
    }
    forall k | 0 <= k < |legs| ensures !quotes[k].exhausted <==> DeepEnough(legs[k], notional) {
      assert legs[k] in legs;
    }
    if k :| 0 <= k < |legs| && !DeepEnough(legs[k], notional) {
      assert quotes[k] in quotes && legs[k] in legs;
    }
  }

  lemma DeepIsNotExhausted(leg: LegInput, notional: real, impact: Impact)
    requires Stocked(leg.levels) && Sorted(leg.side, leg.levels) && notional > 0.0
    ensures !QuoteLeg(leg, notional, impact).exhausted <==> DeepEnough(leg, notional)
  {
    if leg.levels != [] {
      WalkSpendsWithinBook(leg.levels, notional, leg.side);
      hide Walk, Depth;
    }
  }

  lemma {:induction false} CostsAreLegCosts(legs: seq<LegInput>, notional: real, impact: Impact)
    requires Priceable(legs) && forall leg :: leg in legs ==> DeepEnough(leg, notional)
    ensures SumCosts(QuoteLegs(legs, notional, impact)) == Some(TotalCost(legs, notional, impact))
  {
    hide Walk, Stocked, Sorted;
    if legs != [] {
      var before, last := legs[..|legs| - 1], legs[|legs| - 1];
      CostsAreLegCosts(before, notional, impact);
      var quotes := QuoteLegs(legs, notional, impact);
      assert quotes[..|quotes| - 1] == QuoteLegs(before, notional, impact);
      assert last in legs;
      StockedDepth(last);
    }
  }

  lemma StockedDepth(leg: LegInput)
    requires leg.levels != [] && Stocked(leg.levels)
    ensures Depth(leg.levels) > 0.0
  {
    Positive(leg.levels[0]);
  }

  // -- the intent ---------------------------------------------------------------------------

  datatype CostBreakdown = CostBreakdown(
    feesBps: real, spreadBps: real, slippageBps: real, hedgeBps: real, fundingBps: real, latencyBps: real,
    otherBps: real)
  {
    function TotalBps(): (r: real) {
      feesBps + spreadBps + slippageBps + hedgeBps + fundingBps + latencyBps + otherBps
    }

    function NetFrom(grossEdgeBps: real): (r: real) {
      grossEdgeBps - TotalBps()
    }
  }

  function SumOf(quotes: seq<LegQuote>, part: LegQuote -> real): (r: real) {
    if quotes == [] then 0.0 else SumOf(quotes[..|quotes| - 1], part) + part(quotes[|quotes| - 1])
  }

  function Fee(q: LegQuote): (r: real) { q.feeBps }
  function Spread(q: LegQuote): (r: real) { q.spreadBps }
  function Latency(q: LegQuote): (r: real) { q.latencyBps }
  function Slip(q: LegQuote): (r: real) {
    q.slippageBps + if q.impactBps.Some? then q.impactBps.value else 0.0
  }

  // The orchestrator's cost breakdown of a chosen point: the same costs, summed
  // by kind instead of by leg.
  function IntentCosts(best: SizePoint, hedgeBps: real): (c: CostBreakdown) {
    CostBreakdown(SumOf(best.legs, Fee), SumOf(best.legs, Spread), SumOf(best.legs, Slip), hedgeBps, 0.0,
                  SumOf(best.legs, Latency), 0.0)
  }

  lemma {:induction false} CostsByKind(quotes: seq<LegQuote>)
    requires SumCosts(quotes).Some?
    ensures SumCosts(quotes).value
         == SumOf(quotes, Fee) + SumOf(quotes, Spread) + SumOf(quotes, Slip) + SumOf(quotes, Latency)
  {
    if quotes != [] {
      CostsByKind(quotes[..|quotes| - 1]);
    }
  }

  // The edge the intent carries to RUNE is the edge ZEPHR computed.
  lemma IntentEdgeIsPointEdge(legs: seq<LegInput>, terms: Terms, notional: real, impact: Impact)
    requires PointAt(legs, terms, notional, impact).feasible
    ensures var p := PointAt(legs, terms, notional, impact);
      IntentCosts(p, terms.hedgeBps).NetFrom(terms.grossEdgeBps) == p.netEdgeBps.value
  {
    CostsByKind(QuoteLegs(legs, notional, impact));
  }
}
