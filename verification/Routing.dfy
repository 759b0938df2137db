// The venue router, and VESKA's plans built from it.
module Routing {
  import opened Common
  import opened Costs
  import opened Execution

  datatype VenueBook = VenueBook(
    bids: seq<Level>, asks: seq<Level>, bestBid: Option<real>, bestAsk: Option<real>)

  type Market = map<string, VenueBook>

  datatype OpportunityLeg = OpportunityLeg(venue: string, symbol: string, side: Side, quantity: Option<real>)

  datatype RoutingDecision = RoutingDecision(
    timeInForce: TimeInForce, limitPrice: real, expectedPrice: real, isMaker: bool)

  const PASSIVE_URGENCY: real := 0.35

  // The limit that caps slippage at `maxSlippageBps` beyond the touch.
  function SlippageLimit(touch: real, side: Side, maxSlippageBps: real): (r: real) {
    if side.Buy? then touch * (1.0 + maxSlippageBps / 10000.0) else touch * (1.0 - maxSlippageBps / 10000.0)
  }

  function Route(leg: OpportunityLeg, market: Market, urgency: real, maxSlippageBps: real): (r: Option<RoutingDecision>)
  {
    var key := KeyOf(leg.venue, leg.symbol);
    if key !in market then None
    else
      var book := market[key];
      var levels := if leg.side.Buy? then book.asks else book.bids;
      if levels == [] then None
      else if urgency < PASSIVE_URGENCY then
        match if leg.side.Buy? then book.bestBid else book.bestAsk
        case None => None
        case Some(own) => Some(RoutingDecision(POST_ONLY, own, own, true))
      else
        var touch := levels[0].price;
        Some(RoutingDecision(IOC, SlippageLimit(touch, leg.side, maxSlippageBps), touch, false))
  }

  datatype TradeIntent = TradeIntent(legs: seq<OpportunityLeg>, urgency: real, maxSlippageBps: real)

  // The order a routed leg becomes: an exit carries its quantity, an entry is
  // sized from the authorised notional.
  function OrderFor(leg: OpportunityLeg, r: RoutingDecision, notional: real): (t: Ticket)
    requires notional > 0.0 && r.expectedPrice > 0.0
  {
    var quantity := if leg.quantity.Some? && leg.quantity.value > 0.0 then leg.quantity.value
      else notional / r.expectedPrice;
    assert notional / r.expectedPrice > 0.0;
    OrderTicket(leg.venue, leg.symbol, leg.side, LIMIT, r.timeInForce, quantity, Some(r.limitPrice),
                r.expectedPrice, None)
  }

  // A crossing leg expects the touch and allows the budget beyond it; a passive
  // one rests at the best price of its own side.
  lemma RoutedAt(leg: OpportunityLeg, market: Market, urgency: real, maxSlippageBps: real)
    requires Route(leg, market, urgency, maxSlippageBps).Some?
    ensures KeyOf(leg.venue, leg.symbol) in market
    ensures var r, book := Route(leg, market, urgency, maxSlippageBps).value, market[KeyOf(leg.venue, leg.symbol)];
      var opposing := if leg.side.Buy? then book.asks else book.bids;
      var own := if leg.side.Buy? then book.bestBid else book.bestAsk;
      && opposing != []
      && if urgency < PASSIVE_URGENCY then r.timeInForce == POST_ONLY && own == Some(r.limitPrice) == Some(r.expectedPrice)
         else
           && r.timeInForce == IOC && r.expectedPrice == opposing[0].price
           && 10000.0 * leg.side.Signed(r.limitPrice - r.expectedPrice) == Times(r.expectedPrice, maxSlippageBps)
  {
  }

  // An entry spends the authorised notional at the price it expects; an exit
  // trades the quantity it was given.
  lemma OrderSpends(leg: OpportunityLeg, r: RoutingDecision, notional: real)
    requires notional > 0.0 && r.expectedPrice > 0.0
    ensures var t, exit := OrderFor(leg, r, notional), leg.quantity.Some? && leg.quantity.value > 0.0;
      && (exit ==> t.quantity == leg.quantity.value)
      && (!exit ==> Times(t.quantity, t.expectedPrice) == notional)
      && t.side == leg.side && KeyOf(t.venue, t.symbol) == KeyOf(leg.venue, leg.symbol)
      && t.limitPrice == Some(r.limitPrice) && t.expiresAt.None?
  {
  }

  // Every leg can be routed at a positive expected price.
  predicate Routable(intent: TradeIntent, market: Market) {
    forall leg :: leg in intent.legs ==>
      var r := Route(leg, market, intent.urgency, intent.maxSlippageBps);
      r.Some? && r.value.expectedPrice > 0.0
  }

  class Veska {
    var plans: map<string, seq<Ticket>>
    var planFailures: nat

    constructor ()
      ensures plans == map[] && planFailures == 0
    {
      plans, planFailures := map[], 0;
    }

    // Builds the plan for an approved intent: one order per leg, or no plan at
    // all when a leg cannot be routed.
    method BuildPlan(planId: string, intent: TradeIntent, approvedNotional: real, market: Market)
      returns (plan: Option<seq<Ticket>>)
      modifies this
      ensures plan.Some? <==> approvedNotional > 0.0 && intent.legs != [] && Routable(intent, market)
      ensures plan.Some? ==>
        && |plan.value| == |intent.legs|
        && forall k :: 0 <= k < |intent.legs| ==>
             var r := Route(intent.legs[k], market, intent.urgency, intent.maxSlippageBps);
             r.Some? && r.value.expectedPrice > 0.0
             && plan.value[k] == OrderFor(intent.legs[k], r.value, approvedNotional)
      ensures plans == if plan.Some? then old(plans)[planId := plan.value] else old(plans)
      ensures planFailures == old(planFailures) +
        if approvedNotional > 0.0 && !Routable(intent, market) then 1 else 0
    {
      hide Route, OrderFor;
      if approvedNotional <= 0.0 {
        return None;
      }
      var orders: seq<Ticket> := [];
      for k := 0 to |intent.legs|
        invariant |orders| == k
        invariant forall j :: 0 <= j < k ==>
          var r := Route(intent.legs[j], market, intent.urgency, intent.maxSlippageBps);
          r.Some? && r.value.expectedPrice > 0.0
          && orders[j] == OrderFor(intent.legs[j], r.value, approvedNotional)
      {
        var leg := intent.legs[k];
        var r := Route(leg, market, intent.urgency, intent.maxSlippageBps);
        if r.None? || r.value.expectedPrice <= 0.0 {
          assert leg in intent.legs;
          planFailures := planFailures + 1;
          return None;
        }
        orders := orders + [OrderFor(leg, r.value, approvedNotional)];
      }
      if orders == [] {
        return None;
      }
      plans := plans[planId := orders];
      return Some(orders);
    }
  }
}
