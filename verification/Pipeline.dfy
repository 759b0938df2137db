// From sizing curve to risk decision: what the orchestrator asks RUNE for, and
// what an approval still promises at the size RUNE cut it to.
module Pipeline {
  import opened Common
  import opened PostTrade
  import opened RuneRisk
  import opened Sizing

  // The intent carries the chosen point's size and edge.
  function IntentFor(
    best: SizePoint, terms: Terms, legs: seq<Leg>, agreement: real, sourceTs: Option<int>, deadlineMs: int): (i: TradeIntent)
  {
    TradeIntent(legs, best.notional, IntentCosts(best, terms.hedgeBps).NetFrom(terms.grossEdgeBps),
                agreement, sourceTs, deadlineMs)
  }

  // Whatever RUNE cuts a feasible point to is feasible too, with at least the
  // edge the intent was approved on.
  lemma ApprovedSizeKeepsEdge(
    legs: seq<LegInput>, terms: Terms, best: SizePoint, impact: Impact, i: TradeIntent, headroom: real)
    requires Nondecreasing(impact) && Priceable(legs)
    requires best == PointAt(legs, terms, i.notional, impact) && best.feasible
    requires i.expectedNetEdgeBps == IntentCosts(best, terms.hedgeBps).NetFrom(terms.grossEdgeBps)
    ensures i.expectedNetEdgeBps == best.netEdgeBps.value >= terms.minNetEdgeBps
    ensures var p := PointAt(legs, terms, Sized(i, headroom), impact);
      p.feasible && p.netEdgeBps.value >= i.expectedNetEdgeBps
  {
    IntentEdgeIsPointEdge(legs, terms, i.notional, impact);
    ShrinkingIsSafe(legs, terms, Sized(i, headroom), i.notional, impact);
  }

  // The most profitable feasible size on the ladder.
  ghost predicate Chosen(
    best: SizePoint, inputs: seq<LegInput>, terms: Terms, ladder: seq<real>, impact: Impact)
  {
    && best.notional in ladder && best == PointAt(inputs, terms, best.notional, impact) && best.feasible
    && forall x :: x in ladder && PointAt(inputs, terms, x, impact).feasible ==>
         PointAt(inputs, terms, x, impact).ExpectedProfit() <= best.ExpectedProfit()
  }

  // The largest feasible size on the ladder.
  ghost predicate Largest(size: real, inputs: seq<LegInput>, terms: Terms, ladder: seq<real>, impact: Impact) {
    && size in ladder && PointAt(inputs, terms, size, impact).feasible
    && forall x :: x in ladder && PointAt(inputs, terms, x, impact).feasible ==> x <= size
  }

  // What RUNE makes of an intent when told the largest economical size.
  ghost function Settled(i: TradeIntent, largest: real, ctx: RiskContext, l: Limits, now: int): (approved: Option<real>) {
    var c := ctx.(maxEconomicalNotional := Some(largest));
    if Approves(i, c, l, now) then Some(SettledOn(i, c, l)) else None
  }

  // Trading is allowed, the size is within what the curve calls economical and
  // within the order limit, and at that size the trade is feasible with at
  // least the edge RUNE's own threshold was checked against.
  ghost predicate Economical(
    size: real, inputs: seq<LegInput>, terms: Terms, ladder: seq<real>, impact: Impact, ctx: RiskContext, l: Limits)
  {
    && ctx.tradingAllowed && size <= l.maxOrderNotional
    && (exists x :: x in ladder && size <= x && PointAt(inputs, terms, x, impact).feasible)
    && var p := PointAt(inputs, terms, size, impact);
       p.feasible && p.netEdgeBps.value >= terms.minNetEdgeBps && p.netEdgeBps.value >= l.minExpectedEdgeBps
  }

  lemma ApprovedIsEconomical(
    best: SizePoint, largest: real, inputs: seq<LegInput>, terms: Terms, sizes: seq<real>, impact: Impact,
    legs: seq<Leg>, agreement: real, sourceTs: Option<int>, deadlineMs: int, ctx: RiskContext, l: Limits, now: int)
    requires Nondecreasing(impact) && Priceable(inputs)
    requires Chosen(best, inputs, terms, Ladder(sizes, Some(l.maxOrderNotional)), impact)
    requires Settled(IntentFor(best, terms, legs, agreement, sourceTs, deadlineMs), largest, ctx, l, now).Some?
    ensures Economical(
      Settled(IntentFor(best, terms, legs, agreement, sourceTs, deadlineMs), largest, ctx, l, now).value,
      inputs, terms, Ladder(sizes, Some(l.maxOrderNotional)), impact, ctx, l)
  {
    hide PointAt, Ladder, IntentCosts, FiguresOf, Room, Nondecreasing, Priceable, SizePoint.ExpectedProfit, Gate, GATES;
    LadderMembers(sizes, Some(l.maxOrderNotional), best.notional);
    var i := IntentFor(best, terms, legs, agreement, sourceTs, deadlineMs);
    var c := ctx.(maxEconomicalNotional := Some(largest));
    var headroom := Max(0.0, Room(i, c, FiguresOf(c.portfolio, legs), l));
    ApprovedSizeKeepsEdge(inputs, terms, best, impact, i, headroom);
    GatesMean(i, Sized(i, headroom), c, FiguresOf(c.portfolio, legs), l, now);
  }

  // One opportunity from curve to decision. Nothing is approved when no size on
  // the ladder is feasible. Otherwise RUNE is asked for the most profitable one,
  // knowing the largest; what it settles on is what is approved, and economical.
  method DecideSize(
    rune: RuneCore, inputs: seq<LegInput>, terms: Terms, sizes: seq<real>, impact: Impact,
    legs: seq<Leg>, agreement: real, sourceTs: Option<int>, deadlineMs: int, ctx: RiskContext, now: int)
    returns (approved: Option<real>)
    requires Nondecreasing(impact) && Priceable(inputs) && forall x :: x in sizes ==> x > 0.0
    modifies rune
    ensures var ladder := Ladder(sizes, Some(rune.limits.maxOrderNotional));
      if forall x :: x in ladder ==> !PointAt(inputs, terms, x, impact).feasible then approved.None?
      else
        exists best, largest ::
          && Chosen(best, inputs, terms, ladder, impact) && Largest(largest, inputs, terms, ladder, impact)
          && approved == Settled(IntentFor(best, terms, legs, agreement, sourceTs, deadlineMs), largest, ctx, rune.limits, now)
    ensures approved.Some? ==>
      Economical(approved.value, inputs, terms, Ladder(sizes, Some(rune.limits.maxOrderNotional)), impact, ctx, rune.limits)
  {
    hide PointAt, Ladder, FiguresOf, Room, Nondecreasing, Priceable, SizePoint.ExpectedProfit, Economical, Gate, GATES;
    var ladder := Ladder(sizes, Some(rune.limits.maxOrderNotional));
    var curve := BuildSizingCurve(inputs, terms, sizes, Some(rune.limits.maxOrderNotional), impact);
    CurveChooses(inputs, terms, ladder, impact, curve);
    if curve.best.None? {
      return None;
    }
    var best := curve.best.value;
    ChosenPays(best, inputs, terms, sizes, impact, rune.limits);
    hide Chosen, Largest;
    var i := IntentFor(best, terms, legs, agreement, sourceTs, deadlineMs);
    var d := rune.Evaluate(i, ctx.(maxEconomicalNotional := Some(curve.maxEconomicalNotional)), now);
    approved := if d.Approved() then Some(d.approvedNotional) else None;
    assert approved == Settled(i, curve.maxEconomicalNotional, ctx, rune.limits, now);
    if approved.Some? {
      ApprovedIsEconomical(
        best, curve.maxEconomicalNotional, inputs, terms, sizes, impact, legs, agreement, sourceTs, deadlineMs, ctx,
        rune.limits, now);
    }
  }

  lemma ChosenPays(
    best: SizePoint, inputs: seq<LegInput>, terms: Terms, sizes: seq<real>, impact: Impact, l: Limits)
    requires Chosen(best, inputs, terms, Ladder(sizes, Some(l.maxOrderNotional)), impact)
    requires forall x :: x in sizes ==> x > 0.0
    ensures best.notional > 0.0
  {
    hide PointAt, Ladder, SizePoint.ExpectedProfit;
    LadderMembers(sizes, Some(l.maxOrderNotional), best.notional);
  }

  // What the curve's best point and largest size are on the ladder itself.
  lemma CurveChooses(inputs: seq<LegInput>, terms: Terms, ladder: seq<real>, impact: Impact, curve: SizingCurve)
    requires |curve.points| == |ladder|
    requires forall i :: 0 <= i < |ladder| ==> curve.points[i] == PointAt(inputs, terms, ladder[i], impact)
    requires curve.best.None? <==> forall p :: p in curve.points ==> !p.feasible
    requires curve.best.Some? ==>
      && curve.best.value in curve.points && curve.best.value.feasible
      && (forall p :: p in curve.points && p.feasible ==> p.ExpectedProfit() <= curve.best.value.ExpectedProfit())
      && (exists p :: p in curve.points && p.feasible && p.notional == curve.maxEconomicalNotional)
      && forall p :: p in curve.points && p.feasible ==> p.notional <= curve.maxEconomicalNotional
    ensures curve.best.None? <==> forall x :: x in ladder ==> !PointAt(inputs, terms, x, impact).feasible
    ensures curve.best.Some? ==>
      && Chosen(curve.best.value, inputs, terms, ladder, impact)
      && Largest(curve.maxEconomicalNotional, inputs, terms, ladder, impact)
  {
    hide PointAt, SizePoint.ExpectedProfit;
    forall x | x in ladder
      ensures PointAt(inputs, terms, x, impact) in curve.points && PointAt(inputs, terms, x, impact).notional == x
    {
      PointNotional(inputs, terms, x, impact);
    }
    forall p | p in curve.points ensures p.notional in ladder && p == PointAt(inputs, terms, p.notional, impact) {
      var k :| 0 <= k < |ladder| && curve.points[k] == p;
      PointNotional(inputs, terms, ladder[k], impact);
    }
  }

  lemma PointNotional(legs: seq<LegInput>, terms: Terms, notional: real, impact: Impact)
    ensures PointAt(legs, terms, notional, impact).notional == notional
  {
  }

  lemma GatesMean(i: TradeIntent, notional: real, ctx: RiskContext, f: Figures, l: Limits, now: int)
    requires forall g :: g in GATES ==> Gate(g, i, notional, ctx, f, l, now) == PASS
    ensures ctx.tradingAllowed && i.expectedNetEdgeBps >= l.minExpectedEdgeBps
  {
    assert GATES[0] in GATES && GATES[6] in GATES;
    assert Gate(KillSwitchClear, i, notional, ctx, f, l, now) == PASS;
    assert Gate(MinExpectedEdge, i, notional, ctx, f, l, now) == PASS;
  }
}
