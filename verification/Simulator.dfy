// The fill simulator: what a marketable or a resting order trades, with the
// random draws as parameters.
module Simulator {
  import opened Common
  import opened Costs
  import opened Execution
  import opened Routing

  datatype SimulatedFill = SimulatedFill(quantity: real, price: real, fee: real, slippageBps: real)

  // Bids that drift down by their whole price or more: no level can be built.
  predicate Collapses(side: Side, driftBps: real) {
    side.Sell? && driftBps >= 10000.0
  }

  function Scaled(price: real, factor: real): (r: real) {
    price * factor
  }

  lemma ScaledMoves(price: real, factor: real)
    requires price > 0.0 && factor > 0.0
    ensures Scaled(price, factor) > 0.0
    ensures factor > 1.0 ==> Scaled(price, factor) > price
    ensures factor < 1.0 ==> Scaled(price, factor) < price
  {
    hide Scaled;
    ScaledBy(price, factor - 1.0);
    Scaling(price, factor);
  }

  lemma Scaling(price: real, factor: real)
    requires price > 0.0
    ensures Scaled(price, factor) == price + Scaled(price, factor - 1.0)
    ensures factor > 0.0 ==> Scaled(price, factor) > 0.0
  {
  }

  lemma ScaledBy(price: real, change: real)
    requires price > 0.0
    ensures change > 0.0 ==> Scaled(price, change) > 0.0
    ensures change < 0.0 ==> Scaled(price, change) < 0.0
  {
    if change < 0.0 {
      assert price * -change > 0.0;
    }
  }

  // A level after the order's time in flight: asks drift up, bids down.
  function Drifted(l: Level, side: Side, driftBps: real): (r: Level)
    requires driftBps >= 0.0 && !Collapses(side, driftBps)
    ensures driftBps > 0.0 ==> !Worse(side, l.price, r.price)
  {
    var factor := if side.Buy? then 1.0 + driftBps / 10000.0 else 1.0 - driftBps / 10000.0;
    ScaledMoves(l.price, factor);
    PriceLevel(Scaled(l.price, factor), l.size)
  }

  // None where the source raises on a level without a price.
  function LatencyAdjusted(levels: seq<Level>, side: Side, driftBps: real): (r: Option<seq<Level>>)
    requires driftBps >= 0.0
    ensures r.None? <==> levels != [] && Collapses(side, driftBps)
    ensures r.Some? ==> |r.value| == |levels|
  {
    if levels == [] then Some([])
    else if Collapses(side, driftBps) then None
    else Some(seq(|levels|, i requires 0 <= i < |levels| => Drifted(levels[i], side, driftBps)))
  }

  // Drops the levels that got away.
  method ApplyVanishingLiquidity(levels: seq<Level>, vanished: seq<bool>) returns (r: seq<Level>)
    requires |vanished| == |levels|
    ensures r == Remaining(levels, vanished)
  {
    r := [];
    for i := 0 to |levels|
      invariant r == Remaining(levels[..i], vanished[..i])
    {
      assert levels[..i + 1][..i] == levels[..i] && vanished[..i + 1][..i] == vanished[..i];
      if !vanished[i] {
        r := r + [levels[i]];
      }
    }
    assert levels[..|levels|] == levels && vanished[..|levels|] == vanished;
  }

  function Remaining(levels: seq<Level>, vanished: seq<bool>): (r: seq<Level>)
    requires |vanished| == |levels|
  {
    if levels == [] then []
    else
      var last := |levels| - 1;
      Remaining(levels[..last], vanished[..last]) + if vanished[last] then [] else [levels[last]]
  }

  // How many of the first `n` levels did not vanish.
  function Survivors(vanished: seq<bool>, n: nat): (k: nat)
    requires n <= |vanished|
    ensures k <= n
  {
    if n == 0 then 0 else Survivors(vanished, n - 1) + if vanished[n - 1] then 0 else 1
  }

  // Each level that did not vanish is met, behind those before it that did not
  // either; nothing else is.
  lemma {:induction false} SurvivorsAreMet(levels: seq<Level>, vanished: seq<bool>, i: nat)
    requires |vanished| == |levels|
    ensures |Remaining(levels, vanished)| == Survivors(vanished, |vanished|)
    ensures i < |levels| && !vanished[i] ==>
      Survivors(vanished, i) < |Remaining(levels, vanished)|
      && Remaining(levels, vanished)[Survivors(vanished, i)] == levels[i]
  {
    if levels != [] {
      var last := |levels| - 1;
      SurvivorsAreMet(levels[..last], vanished[..last], i);
      SurvivorsBefore(vanished, last);
      if i < last {
        SurvivorsPrefix(vanished, last, i);
      }
    }
  }

  lemma SurvivorsBefore(vanished: seq<bool>, n: nat)
    requires n < |vanished|
    ensures Survivors(vanished[..n], n) == Survivors(vanished, n)
  {
    SurvivorsPrefix(vanished, n, n);
  }

  lemma {:induction false} SurvivorsPrefix(vanished: seq<bool>, n: nat, i: nat)
    requires i <= n <= |vanished|
    ensures Survivors(vanished[..n], i) == Survivors(vanished, i)
  {
    if i > 0 {
      SurvivorsPrefix(vanished, n, i - 1);
    }
  }

  // In flight every level moves against the order by the drift, and keeps its size.
  lemma LevelsDrift(levels: seq<Level>, side: Side, driftBps: real, i: nat)
    requires driftBps >= 0.0 && i < |levels| && !Collapses(side, driftBps)
    ensures LatencyAdjusted(levels, side, driftBps).Some?
    ensures var r := LatencyAdjusted(levels, side, driftBps).value[i];
      && 10000.0 * side.Signed(r.price - levels[i].price) == Times(levels[i].price, driftBps)
      && r.size == levels[i].size
  {
  }

  // At or better than the limit.
  predicate Acceptable(side: Side, price: real, limit: real) {
    if side.Buy? then price <= limit else price >= limit
  }

  function WithinLimit(levels: seq<Level>, side: Side, limit: real): (r: seq<Level>)
    ensures forall l :: l in r ==> Acceptable(side, l.price, limit)
  {
    if levels == [] then []
    else (if Acceptable(side, levels[0].price, limit) then [levels[0]] else []) + WithinLimit(levels[1..], side, limit)
  }

  // Signed against the expected price: positive is worse.
  function FillSlippage(price: real, expected: real, side: Side): (r: real) {
    if expected > 0.0 then side.Signed((price - expected) / expected * 10000.0) else 0.0
  }

  function FillAt(o: Order, quantity: real, price: real, feeBps: real): (f: SimulatedFill) {
    SimulatedFill(quantity, price, quantity * price * feeBps / 10000.0,
                  FillSlippage(price, o.ticket.expectedPrice, o.ticket.side))
  }

  // A limit order only consumes levels at or better than its price.
  function Eligible(o: Order, met: seq<Level>): (r: seq<Level>) {
    if o.ticket.orderType.LIMIT? && o.ticket.limitPrice.Some?
    then WithinLimit(met, o.ticket.side, o.ticket.limitPrice.value) else met
  }

  function Wanted(o: Order, cap: real): (r: real) {
    if cap < 1.0 then o.Remaining() * cap else o.Remaining()
  }

  // The notional the order asks the book for: what it wants, priced at the touch.
  function Asked(o: Order, levels: seq<Level>, cap: real): (r: real)
    requires levels != []
  {
    Wanted(o, cap) * levels[0].price
  }

  // Walks whatever book the order meets, within its limit.
  function FillMarketable(o: Order, met: seq<Level>, cap: real, feeBps: real): (r: Option<SimulatedFill>) {
    var levels := Eligible(o, met);
    if levels == [] then None
    else
      var walk := Walk(levels, Asked(o, levels, cap), o.ticket.side);
      if walk.filledQuantity <= 0.0 then None
      else Some(FillAt(o, Min(Wanted(o, cap), walk.filledQuantity), walk.averagePrice, feeBps))
  }

  // A marketable order against the book it set out for, drifted and thinned.
  method SimulateMarketable(
    o: Order, opposing: seq<Level>, driftBps: real, vanished: seq<bool>, cap: real, feeBps: real)
    returns (raised: bool, r: Option<SimulatedFill>)
    requires driftBps >= 0.0 && |vanished| == |opposing|
    ensures raised <==> opposing != [] && Collapses(o.ticket.side, driftBps)
    ensures !raised ==> LatencyAdjusted(opposing, o.ticket.side, driftBps).Some?
    ensures r == if raised then None
      else FillMarketable(o, Remaining(LatencyAdjusted(opposing, o.ticket.side, driftBps).value, vanished), cap, feeBps)
  {
    var adjusted := LatencyAdjusted(opposing, o.ticket.side, driftBps);
    if adjusted.None? {
      return true, None;
    }
    raised := false;
    var met := ApplyVanishingLiquidity(adjusted.value, vanished);
    var levels := Eligible(o, met);
    if levels == [] {
      return false, None;
    }
    var walk := WalkBook(levels, Asked(o, levels, cap), o.ticket.side);
    if walk.filledQuantity <= 0.0 {
      return false, None;
    }
    r := Some(FillAt(o, Min(Wanted(o, cap), walk.filledQuantity), walk.averagePrice, feeBps));
  }

  // A resting order trades at its own limit, beyond the queue ahead of it.
  // `draw` decides whether it trades at all, `queueDraw` how much is ahead.
  function FillPassive(
    o: Order, opposing: seq<Level>, tradedThrough: real, makerProbability: real, queueAhead: real,
    draw: real, queueDraw: real, feeBps: real): (r: Option<SimulatedFill>)
  {
    if o.ticket.limitPrice.None? || opposing == [] then None
    else
      var limit := o.ticket.limitPrice.value;
      var crossed := Acceptable(o.ticket.side, opposing[0].price, limit);
      if !crossed && tradedThrough <= 0.0 then None
      else
        var floor := Max(0.000000001, Times(o.Remaining(), limit));
        var probability := if crossed then makerProbability
          else Times(makerProbability, Min(1.0, tradedThrough / floor));
        if draw > probability then None
        else
          var quantity := Times(o.Remaining(), Max(0.0, 1.0 - Times(queueAhead, queueDraw)));
          if quantity <= QTY_EPSILON then None else Some(FillAt(o, quantity, limit, feeBps))
  }

  // -- what a fill promises --------------------------------------------------------------------

  lemma {:induction false} TakeNonNegative(levels: seq<Level>, notional: real)
    ensures Take(levels, notional).spent >= 0.0 && Take(levels, notional).quantity >= 0.0
    ensures Take(levels, notional).quantity > 0.0 ==> Take(levels, notional).spent > 0.0
  {
    if levels != [] && Min(notional, levels[0].Notional()) > 0.0 {
      var take := Min(notional, levels[0].Notional());
      assert take / levels[0].price > 0.0;
      TakeNonNegative(levels[1..], notional - take);
    }
  }

  // A walk that fills something was asked for something, and paid for it.
  lemma WalkPays(levels: seq<Level>, notional: real, side: Side)
    requires Walk(levels, notional, side).filledQuantity > 0.0
    ensures notional > 0.0 && levels != [] && Take(levels, notional).quantity > 0.0
    ensures Walk(levels, notional, side).averagePrice
         == Take(levels, notional).spent / Take(levels, notional).quantity > 0.0
  {
    TakeNonNegative(levels, notional);
  }

  // A marketable fill never exceeds what is left of the order.
  lemma MarketableFits(o: Order, met: seq<Level>, cap: real, feeBps: real)
    requires 0.0 < cap <= 1.0 && FillMarketable(o, met, cap, feeBps).Some?
    ensures var f := FillMarketable(o, met, cap, feeBps).value;
      0.0 < f.quantity <= o.Remaining() && f.price > 0.0
  {
    hide Walk, Eligible, Wanted, FillSlippage, Asked;
    var levels := Eligible(o, met);
    WalkPays(levels, Asked(o, levels, cap), o.ticket.side);
    AskedPositive(o, levels, cap);
  }

  lemma AskedPositive(o: Order, levels: seq<Level>, cap: real)
    requires 0.0 < cap <= 1.0 && levels != [] && Asked(o, levels, cap) > 0.0
    ensures 0.0 < Wanted(o, cap) <= o.Remaining()
  {
    hide Wanted;
    WantedWithin(o, cap);
  }

  lemma WantedWithin(o: Order, cap: real)
    requires 0.0 < cap <= 1.0
    ensures 0.0 <= Wanted(o, cap) <= o.Remaining()
  {
    assert o.Remaining() >= 0.0;
    hide Order.Remaining;
    ShareWithin(o.Remaining(), cap);
  }

  lemma ShareWithin(whole: real, share: real)
    requires whole >= 0.0 && 0.0 <= share <= 1.0
    ensures 0.0 <= whole * share <= whole
  {
    assert whole * (1.0 - share) >= 0.0;
  }

  lemma PassiveFits(
    o: Order, opposing: seq<Level>, tradedThrough: real, makerProbability: real, queueAhead: real,
    draw: real, queueDraw: real, feeBps: real)
    requires queueAhead >= 0.0 && queueDraw >= 0.0
    requires o.ticket.limitPrice.Some? ==> o.ticket.limitPrice.value > 0.0
    requires FillPassive(o, opposing, tradedThrough, makerProbability, queueAhead, draw, queueDraw, feeBps).Some?
    ensures var f := FillPassive(o, opposing, tradedThrough, makerProbability, queueAhead, draw, queueDraw, feeBps).value;
      0.0 < f.quantity <= o.Remaining() && f.price == o.ticket.limitPrice.value > 0.0
  {
    assert o.Remaining() >= 0.0;
    hide Order.Remaining, FillSlippage;
    assert Times(queueAhead, queueDraw) >= 0.0;
    ShareWithin(o.Remaining(), Max(0.0, 1.0 - Times(queueAhead, queueDraw)));
  }

  // A limit order is never filled through its limit.
  lemma NeverThroughLimit(o: Order, met: seq<Level>, cap: real, feeBps: real)
    requires o.ticket.orderType.LIMIT? && o.ticket.limitPrice.Some?
    requires FillMarketable(o, met, cap, feeBps).Some?
    ensures Acceptable(o.ticket.side, FillMarketable(o, met, cap, feeBps).value.price, o.ticket.limitPrice.value)
  {
    hide Walk, Asked, FillSlippage;
    var side, limit := o.ticket.side, o.ticket.limitPrice.value;
    var levels := WithinLimit(met, side, limit);
    var notional := Asked(o, levels, cap);
    WalkPays(levels, notional, side);
    LevelsWithin(levels, side, limit);
    TakeBounded(levels, notional, side, limit);
    AverageNoWorse(Take(levels, notional).spent, Take(levels, notional).quantity, limit, side);
  }

  lemma LevelsWithin(levels: seq<Level>, side: Side, limit: real)
    requires forall l :: l in levels ==> Acceptable(side, l.price, limit)
    ensures forall i :: 0 <= i < |levels| ==> Worse(side, limit, levels[i].price)
  {
  }

  lemma AverageNoWorse(spent: real, quantity: real, limit: real, side: Side)
    requires quantity > 0.0 && Bounded(side, spent, limit, quantity)
    ensures Acceptable(side, spent / quantity, limit)
  {
    var average := spent / quantity;
    assert average * quantity == spent;
    assert if side.Buy? then (limit - average) * quantity >= 0.0 else (limit - average) * quantity <= 0.0;
  }

  lemma LimitCapsSlippage(price: real, touch: real, side: Side, budgetBps: real)
    requires touch > 0.0 && Acceptable(side, price, SlippageLimit(touch, side, budgetBps))
    ensures FillSlippage(price, touch, side) <= budgetBps
  {
    var b := budgetBps / 10000.0;
    var move := (price - touch) / touch;
    assert move * touch == price - touch;
    if side.Buy? {
      assert (b - move) * touch >= 0.0;
    } else {
      assert (b + move) * touch >= 0.0;
    }
  }

  // The slippage budget holds end to end: a crossing leg, routed on one book
  // and filled against whatever book it meets later, slips by at most its budget.
  lemma SlippageBudgetHolds(
    leg: OpportunityLeg, market: Market, urgency: real, budgetBps: real, notional: real,
    o: Order, met: seq<Level>, cap: real, feeBps: real)
    requires urgency >= PASSIVE_URGENCY && notional > 0.0
    requires Route(leg, market, urgency, budgetBps).Some?
    requires var r := Route(leg, market, urgency, budgetBps).value;
      r.expectedPrice > 0.0 && o.ticket == OrderFor(leg, r, notional).(expiresAt := o.ticket.expiresAt)
    requires FillMarketable(o, met, cap, feeBps).Some?
    ensures FillMarketable(o, met, cap, feeBps).value.slippageBps <= budgetBps
  {
    NeverThroughLimit(o, met, cap, feeBps);
    LimitCapsSlippage(FillMarketable(o, met, cap, feeBps).value.price, o.ticket.expectedPrice, leg.side, budgetBps);
  }

  // -- how much a fill takes -------------------------------------------------------------------

  // What a book holds within a limit.
  function DepthWithin(levels: seq<Level>, side: Side, limit: real): (r: real) {
    if levels == [] then 0.0
    else
      (if side.Signed(levels[0].price) <= side.Signed(limit) then levels[0].Notional() else 0.0)
      + DepthWithin(levels[1..], side, limit)
  }

  // What a book has for an order: all of it, or what is within its limit.
  function DepthFor(o: Order, levels: seq<Level>): (r: real) {
    if o.ticket.orderType.LIMIT? && o.ticket.limitPrice.Some?
    then DepthWithin(levels, o.ticket.side, o.ticket.limitPrice.value) else Depth(levels)
  }

  lemma {:induction false} WithinLimitDepth(levels: seq<Level>, side: Side, limit: real)
    ensures Depth(WithinLimit(levels, side, limit)) == DepthWithin(levels, side, limit)
  {
    if levels != [] {
      WithinLimitDepth(levels[1..], side, limit);
      var head, rest := levels[0], WithinLimit(levels[1..], side, limit);
      assert ([head] + rest)[1..] == rest && [] + rest == rest;
      DepthStep(head, rest);
    }
  }

  lemma DepthStep(head: Level, rest: seq<Level>)
    ensures Depth([head] + rest) == head.Notional() + Depth(rest)
  {
    assert ([head] + rest)[1..] == rest;
  }

  lemma {:induction false} WithinLimitKeeps(levels: seq<Level>, side: Side, limit: real)
    requires Stocked(levels) && Sorted(side, levels)
    ensures var r := WithinLimit(levels, side, limit);
      Stocked(r) && Sorted(side, r) && forall l :: l in r ==> l in levels
  {
    if levels != [] {
      TailKeeps(levels, side);
      WithinLimitKeeps(levels[1..], side, limit);
      OneMoreWithin(levels, WithinLimit(levels[1..], side, limit), side);
      assert [] + WithinLimit(levels[1..], side, limit) == WithinLimit(levels[1..], side, limit);
      hide Stocked, Sorted, Acceptable;
    }
  }

  lemma TailKeeps(levels: seq<Level>, side: Side)
    requires Stocked(levels) && Sorted(side, levels) && levels != []
    ensures Stocked(levels[1..]) && Sorted(side, levels[1..])
    ensures levels[0].size > 0.0 && forall l :: l in levels[1..] ==> Worse(side, l.price, levels[0].price)
    ensures forall l :: l in levels <==> l == levels[0] || l in levels[1..]
  {
    assert levels == [levels[0]] + levels[1..];
  }

  lemma OneMoreWithin(levels: seq<Level>, rest: seq<Level>, side: Side)
    requires Stocked(levels) && Sorted(side, levels) && levels != []
    requires Stocked(rest) && Sorted(side, rest) && forall l :: l in rest ==> l in levels[1..]
    ensures Stocked([levels[0]] + rest) && Sorted(side, [levels[0]] + rest)
  {
    TailKeeps(levels, side);
    var all := [levels[0]] + rest;
    forall i, j | 0 <= i < j < |all| ensures Worse(side, all[j].price, all[i].price) {
      assert all[j] == rest[j - 1];
      assert i > 0 ==> all[i] == rest[i - 1];
    }
  }

  // On a stocked, sorted book a marketable order spends what it asks for, at
  // the touch, as far as the book within its limit goes. A seller, whose later
  // units bring in less than the touch, never sells more than it asks for.
  lemma MarketableSpends(o: Order, met: seq<Level>, cap: real, feeBps: real)
    requires 0.0 < cap <= 1.0 && Stocked(met) && Sorted(o.ticket.side, met)
    requires Eligible(o, met) != [] && Wanted(o, cap) > 0.0
    ensures FillMarketable(o, met, cap, feeBps).Some?
    ensures var f, touch := FillMarketable(o, met, cap, feeBps).value, Eligible(o, met)[0].price;
      var budget := Min(Times(Wanted(o, cap), touch), DepthFor(o, met));
      if o.ticket.side.Buy? then Abs(Times(f.quantity, f.price) - budget) <= QTY_EPSILON
      else f.quantity <= Wanted(o, cap) && Times(f.quantity, touch) >= budget - QTY_EPSILON
  {
    hide Walk, Take, Depth, Stocked, Sorted, Wanted, FillSlippage, Asked, Times, Eligible, DepthFor;
    EligibleKeeps(o, met);
    var levels := Eligible(o, met);
    AskedAtTheTouch(o, levels, cap);
    Spends(levels, Wanted(o, cap), Asked(o, levels, cap), o.ticket.side);
  }

  lemma AskedAtTheTouch(o: Order, levels: seq<Level>, cap: real)
    requires levels != []
    ensures Asked(o, levels, cap) == Times(Wanted(o, cap), levels[0].price)
  {
  }

  lemma EligibleKeeps(o: Order, met: seq<Level>)
    requires Stocked(met) && Sorted(o.ticket.side, met)
    ensures Stocked(Eligible(o, met)) && Sorted(o.ticket.side, Eligible(o, met))
    ensures Depth(Eligible(o, met)) == DepthFor(o, met)
  {
    if o.ticket.limitPrice.Some? {
      WithinLimitKeeps(met, o.ticket.side, o.ticket.limitPrice.value);
      WithinLimitDepth(met, o.ticket.side, o.ticket.limitPrice.value);
    }
  }

  lemma Spends(levels: seq<Level>, wanted: real, notional: real, side: Side)
    requires levels != [] && Stocked(levels) && Sorted(side, levels)
    requires wanted > 0.0 && notional == Times(wanted, levels[0].price)
    ensures var r, touch := Walk(levels, notional, side), levels[0].price;
      var quantity, budget := Min(wanted, r.filledQuantity), Min(notional, Depth(levels));
      && r.filledQuantity > 0.0
      && if side.Buy? then Abs(Times(quantity, r.averagePrice) - budget) <= QTY_EPSILON
         else Times(quantity, touch) >= budget - QTY_EPSILON
  {
    TimesPositive(wanted, levels[0].price);
    hide Times;
    WalkSpendsWithinBook(levels, notional, side);
    TakesSomething(levels, notional);
    TakeSpends(levels, notional);
    SlippageIsShortfall(levels, notional, side);
    var t, touch := Take(levels, notional), levels[0].price;
    AtTheTouch(t.spent, t.quantity, t.spent / t.quantity, touch, wanted, side);
  }

  lemma TimesPositive(x: real, y: real)
    requires x > 0.0 && y > 0.0
    ensures Times(x, y) > 0.0
  {
  }

  // A buyer who pays no less than the touch gets no more than was asked for; a
  // seller's quantity, at the touch, covers what was taken in.
  lemma AtTheTouch(spent: real, quantity: real, average: real, touch: real, wanted: real, side: Side)
    requires quantity > 0.0 && wanted > 0.0 && touch > 0.0 && Times(average, quantity) == spent
    requires spent <= Times(wanted, touch) && Worse(side, average, touch)
    ensures side.Buy? ==> quantity <= wanted && Times(quantity, average) == spent
    ensures side.Sell? ==> Times(quantity, touch) >= spent
  {
    if side.Buy? {
      assert (average - touch) * quantity >= 0.0;
      assert (wanted - quantity) * touch >= 0.0;
    } else {
      assert (touch - average) * quantity >= 0.0;
    }
  }

  // -- what a fill costs -----------------------------------------------------------------------

  // Either way a fill pays its own rate on its notional, and its slippage says
  // in bps how much worse than expected it is.
  lemma FillPays(o: Order, quantity: real, price: real, feeBps: real)
    ensures var f := FillAt(o, quantity, price, feeBps);
      && 10000.0 * f.fee == Times(Times(f.quantity, f.price), feeBps)
      && (o.ticket.expectedPrice > 0.0 ==>
            Times(o.ticket.expectedPrice, f.slippageBps) == 10000.0 * o.ticket.side.Signed(f.price - o.ticket.expectedPrice))
  {
    if o.ticket.expectedPrice > 0.0 {
      var move := (price - o.ticket.expectedPrice) / o.ticket.expectedPrice;
      assert move * o.ticket.expectedPrice == price - o.ticket.expectedPrice;
    }
  }

  // -- passive orders rest ---------------------------------------------------------------------

  // The best price of either side does not reach the other.
  predicate Uncrossed(book: VenueBook) {
    && (book.bestBid.Some? && book.asks != [] ==> book.bestBid.value < book.asks[0].price)
    && (book.bestAsk.Some? && book.bids != [] ==> book.bids[0].price < book.bestAsk.value)
  }

  // A passive leg routed on an uncrossed book adds liquidity: against that book
  // it does not trade until the market trades through to it.
  lemma PassiveRests(
    leg: OpportunityLeg, market: Market, urgency: real, budgetBps: real, notional: real, o: Order,
    makerProbability: real, queueAhead: real, draw: real, queueDraw: real, feeBps: real)
    requires urgency < PASSIVE_URGENCY && notional > 0.0 && Route(leg, market, urgency, budgetBps).Some?
    requires KeyOf(leg.venue, leg.symbol) in market && Uncrossed(market[KeyOf(leg.venue, leg.symbol)])
    requires var r := Route(leg, market, urgency, budgetBps).value;
      r.expectedPrice > 0.0 && o.ticket == OrderFor(leg, r, notional)
    ensures var book := market[KeyOf(leg.venue, leg.symbol)];
      FillPassive(o, if leg.side.Buy? then book.asks else book.bids, 0.0, makerProbability, queueAhead, draw, queueDraw,
                  feeBps).None?
  {
  }
}
