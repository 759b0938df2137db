// What a poll brings about: orders that can trade do trade, orders past their
// time end, and cancels take effect when they are due.
module ExecutorProgress {
  import opened Common
  import opened Costs
  import opened Execution
  import opened ExecutorRuns
  import opened LedgerRuns
  import opened Orders
  import opened Reconciliation
  import opened Simulator

  // -- what the market offers an order ------------------------------------------------

  predicate WithinLimitOf(t: Ticket, price: real) {
    t.orderType.MARKET? || t.limitPrice.None?
    || if t.side.Buy? then price <= t.limitPrice.value else price >= t.limitPrice.value
  }

  // The order crosses the market instead of resting in it.
  predicate TakesLiquidity(t: Ticket) {
    t.orderType == MARKET || t.timeInForce == IOC || t.timeInForce == FOK
  }

  // The k-th level met is the first the order may take.
  predicate FirstTakeable(t: Ticket, met: seq<Level>, k: nat) {
    k < |met| && WithinLimitOf(t, met[k].price) && forall i :: 0 <= i < k ==> !WithinLimitOf(t, met[i].price)
  }

  // How much of what remains one fill may take.
  function Ask(o: Order, cap: real): (r: real) {
    if cap < 1.0 then Times(o.Remaining(), cap) else o.Remaining()
  }

  // A resting order's luck: the market is at its limit, or trades through to
  // it, the draw favours it, and enough is left past the queue.
  predicate QueueReached(o: Order, p: Pending, cfg: ExecConfig, e: Encounter) {
    && o.ticket.limitPrice.Some? && e.opposing != []
    && Beyond(o, cfg, e) > QTY_EPSILON
    && (if WithinLimitOf(o.ticket, e.opposing[0].price) then e.draw <= cfg.makerProbability
        else p.tradedThrough > 0.0
             && e.draw <= Times(
                  cfg.makerProbability,
                  Min(1.0, p.tradedThrough / Max(0.000000001, Times(o.Remaining(), o.ticket.limitPrice.value)))))
  }

  // The part of the order behind which no queue is left.
  function Beyond(o: Order, cfg: ExecConfig, e: Encounter): (r: real) {
    Times(o.Remaining(), Max(0.0, 1.0 - Times(cfg.queueAhead, e.queueDraw)))
  }

  // A market order cannot be cancelled in time; another loses the race when
  // the market is at its limit and the draw is against the cancel.
  predicate RaceLost(t: Ticket, cfg: ExecConfig, e: Encounter) {
    t.orderType.MARKET?
    || (t.limitPrice.Some? && e.opposing != [] && WithinLimitOf(t, e.opposing[0].price)
        && e.cancelDraw <= cfg.makerProbability)
  }

  lemma RaceLostMeans(t: Ticket, cfg: ExecConfig, e: Encounter)
    ensures RaceLost(t, cfg, e) <==> !CancelWins(t, e.opposing, e.cancelDraw, cfg.makerProbability)
  {
  }

  // The venue has the order and neither an operation that timed out nor a
  // cancel stands in the way of a trade.
  predicate CanTrade(o: Order, p: Pending, now: int, cfg: ExecConfig, e: Encounter) {
    && !p.forceUnknown && now >= p.ackAt
    && (o.status in {Submitting, Open, PartiallyFilled}
        || (o.status == CancelPending && CancelDue(p, now) && RaceLost(o.ticket, cfg, e)))
  }

  // -- an attempt ------------------------------------------------------------------------

  lemma {:induction false} EligibleFirst(o: Order, met: seq<Level>, k: nat)
    requires FirstTakeable(o.ticket, met, k)
    ensures Eligible(o, met) != [] && Eligible(o, met)[0] == met[k]
    decreases k
  {
    if k > 0 && o.ticket.orderType.LIMIT? && o.ticket.limitPrice.Some? {
      EligibleLater(o, met, k);
    }
  }

  lemma {:induction false} EligibleLater(o: Order, met: seq<Level>, k: nat)
    requires FirstTakeable(o.ticket, met, k) && o.ticket.orderType.LIMIT? && o.ticket.limitPrice.Some?
    ensures var within := WithinLimit(met, o.ticket.side, o.ticket.limitPrice.value);
      within != [] && within[0] == met[k]
    decreases k
  {
    if k > 0 {
      assert !WithinLimitOf(o.ticket, met[0].price);
      EligibleLater(o, met[1..], k - 1);
    }
  }

  lemma {:induction false} NothingEligible(o: Order, met: seq<Level>)
    requires forall i :: 0 <= i < |met| ==> !WithinLimitOf(o.ticket, met[i].price)
    ensures Eligible(o, met) == []
  {
    if met != [] {
      assert !WithinLimitOf(o.ticket, met[0].price);
      NothingEligible(o, met[1..]);
    }
  }

  // A walk that is asked for `wanted` at the touch takes at least what the
  // touch has of it.
  lemma WalkTakesTheTouch(levels: seq<Level>, wanted: real)
    requires levels != [] && wanted > 0.0 && levels[0].size > 0.0
    ensures wanted * levels[0].price > 0.0
    ensures Take(levels, wanted * levels[0].price).quantity >= Min(wanted, levels[0].size)
  {
    hide Take;
    TouchTaken(levels[0].price, levels[0].size, wanted);
    HeadTaken(levels, wanted * levels[0].price);
  }

  lemma HeadTaken(levels: seq<Level>, notional: real)
    requires levels != [] && notional > 0.0 && levels[0].Notional() > 0.0
    ensures Take(levels, notional).quantity >= Min(notional, levels[0].Notional()) / levels[0].price
  {
    TakeAtHead(levels, notional);
    hide Take, Level.Notional;
    TakeNonNegative(levels[1..], notional - Min(notional, levels[0].Notional()));
  }

  lemma TouchTaken(price: real, size: real, wanted: real)
    requires price > 0.0 && size > 0.0 && wanted > 0.0
    ensures Min(wanted * price, price * size) / price == Min(wanted, size)
    ensures wanted * price > 0.0 && price * size > 0.0
  {
    if wanted <= size {
      assert wanted * price <= price * size;
      assert wanted * price / price == wanted;
    } else {
      assert wanted * price >= price * size;
      assert price * size / price == size;
    }
  }

  // A marketable attempt takes at least what the first level it may take has
  // of what it asks for.
  lemma MarketableTrades(o: Order, p: Pending, cfg: ExecConfig, e: Encounter, k: nat)
    requires ValidConfig(cfg) && TakesLiquidity(o.ticket) && e.opposing != []
    requires o.status in {Open, PartiallyFilled, CancelPending}
    requires FirstTakeable(o.ticket, e.met, k) && Min(Ask(o, cfg.cap), e.met[k].size) > QTY_EPSILON
    ensures Attempt(o, p, cfg, e).Some?
    ensures Attempt(o, p, cfg, e).value.quantity >= Min(Ask(o, cfg.cap), e.met[k].size)
  {
    hide FillSlippage, Eligible, Order.Remaining, Wanted, Ask, FirstTakeable, Walk, Simulator.Asked;
    EligibleFirst(o, e.met, k);
    AskedIs(o, Eligible(o, e.met), cfg.cap);
    WalkFills(Eligible(o, e.met), Ask(o, cfg.cap), Asked(o, Eligible(o, e.met), cfg.cap), o.ticket.side);
  }

  lemma WalkFills(levels: seq<Level>, wanted: real, notional: real, side: Side)
    requires levels != [] && wanted > 0.0 && levels[0].size > 0.0 && notional == wanted * levels[0].price
    ensures Walk(levels, notional, side).filledQuantity >= Min(wanted, levels[0].size)
  {
    hide Take, SlippageBps;
    WalkTakesTheTouch(levels, wanted);
  }

  lemma AskedIs(o: Order, levels: seq<Level>, cap: real)
    requires levels != []
    ensures Wanted(o, cap) == Ask(o, cap) && Asked(o, levels, cap) == Ask(o, cap) * levels[0].price
  {
    WantedIsAsk(o, cap);
    hide Wanted, Ask;
  }

  lemma WantedIsAsk(o: Order, cap: real)
    ensures Wanted(o, cap) == Ask(o, cap)
  {
  }

  // And nothing at all when it may take no level, or the first is empty, or it
  // asks for no more than the tolerance.
  lemma MarketableRests(o: Order, p: Pending, cfg: ExecConfig, e: Encounter)
    requires ValidConfig(cfg) && TakesLiquidity(o.ticket)
    requires e.opposing == [] || Ask(o, cfg.cap) <= QTY_EPSILON
      || (forall i :: 0 <= i < |e.met| ==> !WithinLimitOf(o.ticket, e.met[i].price))
      || (exists k: nat :: FirstTakeable(o.ticket, e.met, k) && e.met[k].size == 0.0)
    ensures Attempt(o, p, cfg, e).None?
  {
    hide FillSlippage, Eligible, Order.Remaining, Wanted, Ask, Walk, WithinLimitOf;
    WantedIsAsk(o, cfg.cap);
    if forall i :: 0 <= i < |e.met| ==> !WithinLimitOf(o.ticket, e.met[i].price) {
      NothingEligible(o, e.met);
    } else if exists k: nat :: FirstTakeable(o.ticket, e.met, k) && e.met[k].size == 0.0 {
      var k: nat :| FirstTakeable(o.ticket, e.met, k) && e.met[k].size == 0.0;
      EligibleFirst(o, e.met, k);
      NothingAtTheTouch(Eligible(o, e.met), Asked(o, Eligible(o, e.met), cfg.cap), o.ticket.side);
    }
  }

  lemma NothingAtTheTouch(levels: seq<Level>, notional: real, side: Side)
    requires levels != [] && levels[0].size == 0.0
    ensures Walk(levels, notional, side).filledQuantity == 0.0
  {
    assert levels[0].Notional() == 0.0;
  }

  // A resting attempt trades exactly when its luck is in, and then exactly what
  // is past the queue.
  lemma PassiveTrades(o: Order, p: Pending, cfg: ExecConfig, e: Encounter)
    requires !TakesLiquidity(o.ticket) && o.status in {Open, PartiallyFilled, CancelPending}
    ensures Attempt(o, p, cfg, e).Some? <==> QueueReached(o, p, cfg, e)
    ensures Attempt(o, p, cfg, e).Some? ==> Attempt(o, p, cfg, e).value.quantity == Beyond(o, cfg, e)
  {
    hide FillPassive, QueueReached, Beyond, FillSlippage, Order.Remaining;
    QueueMeans(o, p, cfg, e);
  }

  lemma QueueMeans(o: Order, p: Pending, cfg: ExecConfig, e: Encounter)
    requires !TakesLiquidity(o.ticket)
    ensures var f := FillPassive(o, e.opposing, p.tradedThrough, cfg.makerProbability, cfg.queueAhead, e.draw, e.queueDraw,
                                 cfg.makerBps);
      (f.Some? <==> QueueReached(o, p, cfg, e)) && (f.Some? ==> f.value.quantity == Beyond(o, cfg, e) > QTY_EPSILON)
    ensures QueueReached(o, p, cfg, e) ==> e.opposing != []
  {
    hide FillAt, Order.Remaining, Acceptable, WithinLimitOf, Times;
    if o.ticket.limitPrice.Some? && e.opposing != [] {
      SameLimit(o.ticket, e.opposing[0].price);
      FilledQuantity(o, Beyond(o, cfg, e), o.ticket.limitPrice.value, cfg.makerBps);
    }
  }

  lemma SameLimit(t: Ticket, price: real)
    requires t.limitPrice.Some? && !t.orderType.MARKET?
    ensures WithinLimitOf(t, price) <==> Acceptable(t.side, price, t.limitPrice.value)
  {
  }

  lemma FilledQuantity(o: Order, quantity: real, price: real, feeBps: real)
    ensures FillAt(o, quantity, price, feeBps).quantity == quantity
  {
  }

  // -- a poll ----------------------------------------------------------------------------

  // The cancel of the order has not reached the venue yet.
  predicate AwaitsVenue(o: Order, p: Pending, now: int) {
    o.status == CancelPending && !CancelDue(p, now)
  }

  // What is left of an order counts as nothing.
  predicate IsFull(o: Order) {
    o.ticket.quantity - o.filled <= QTY_EPSILON
  }

  // Nothing for a marketable order to take.
  ghost predicate NothingToTake(o: Order, cfg: ExecConfig, e: Encounter) {
    e.opposing == [] || Ask(o, cfg.cap) <= QTY_EPSILON
    || (forall i :: 0 <= i < |e.met| ==> !WithinLimitOf(o.ticket, e.met[i].price))
    || (exists k: nat :: FirstTakeable(o.ticket, e.met, k) && e.met[k].size == 0.0)
  }

  // The k-th level met is the first the order may take, and has enough of what
  // it asks for.
  ghost predicate Offered(o: Order, cfg: ExecConfig, e: Encounter, k: nat) {
    e.opposing != [] && FirstTakeable(o.ticket, e.met, k) && Min(Ask(o, cfg.cap), e.met[k].size) > QTY_EPSILON
  }

  // How much an order trades when it can.
  ghost predicate Trades(o: Order, r: Order, p: Pending, cfg: ExecConfig, e: Encounter) {
    if TakesLiquidity(o.ticket) then
      && (forall k: nat :: Offered(o, cfg, e, k) ==> r.filled >= o.filled + Min(Ask(o, cfg.cap), e.met[k].size))
      && (NothingToTake(o, cfg, e) ==> r.filled == o.filled)
    else r.filled == o.filled + if QueueReached(o, p, cfg, e) then Beyond(o, cfg, e) else 0.0
  }

  // Where a poll that does not raise leaves a live order.
  ghost predicate Ends(o: Order, r: Order, p: Pending, now: int, cfg: ExecConfig, e: Encounter) {
    if p.forceUnknown then r.status == Unknown
    else if now < p.ackAt || AwaitsVenue(o, p, now) then r == o
    else if o.status == CancelPending && !RaceLost(o.ticket, cfg, e) then r.status == Cancelled
    else if r.filled > o.filled && IsFull(r) then r.status == Filled
    else if IsExpired(o.ticket, now) then r.status == if r.filled > 0.0 then Cancelled else Expired
    else if r.filled > o.filled then r.status == PartiallyFilled
    else r.status == if o.status == Submitting then Open else o.status
  }

  // What one poll owes an order, on order and market facts alone.
  ghost predicate Advanced(o: Order, r: Order, p: Pending, now: int, cfg: ExecConfig, e: Encounter, raised: bool) {
    if o.status.IsTerminal() || o.status == Unknown then r == o
    else
      && r.ticket == o.ticket
      && (if CanTrade(o, p, now, cfg, e) then Trades(o, r, p, cfg, e) else r.filled == o.filled)
      && (!raised ==> Ends(o, r, p, now, cfg, e))
  }

  // A fill that is taken is added to the order, and fills it when nothing is left.
  lemma TakenAdds(m: Oms, f: Fill)
    requires f.orderId in m.orders && m.orders[f.orderId].filled >= 0.0 && FillOutcome(m, f).Done?
    requires f.fillId !in Ids(m.orders[f.orderId].fills)
    ensures var o, r := m.orders[f.orderId], Orders.AfterFill(m, f).orders[f.orderId];
      && r.filled == o.filled + f.quantity && r.ticket == o.ticket
      && r.status == if IsFull(r) then Filled else PartiallyFilled
  {
    hide Rolled, Transitions;
  }

  lemma StageFills(s: Sys, id: string, p: Pending, cfg: ExecConfig, e: Encounter, how: Standing)
    requires ExecInv(s, how) && id in s.oms.orders && Minted(s, e.fillId)
    requires ValidConfig(cfg) && e.queueDraw >= 0.0
    ensures var r := FillStage(s, id, p, cfg, e);
      !r.raised && ExecInv(r.sys, how) && OthersKept(s, r.sys, id) && id in r.sys.oms.orders
    ensures var o, r := s.oms.orders[id], FillStage(s, id, p, cfg, e).sys.oms.orders[id];
      if Attempt(o, p, cfg, e).None? then r == o
      else
        && r.filled == o.filled + Attempt(o, p, cfg, e).value.quantity && r.ticket == o.ticket
        && r.status == if IsFull(r) then Filled else PartiallyFilled
  {
    hide Stands, Attempt, OmsInv, OrderInv, Orders.AfterFill, FillOutcome, Accounts.AfterFill, IsFull;
    StandingOms(s, how);
    FillStageKeeps(s, id, p, cfg, e, how);
    KeysKept(s, FillStage(s, id, p, cfg, e).sys, id);
    var o := s.oms.orders[id];
    if Attempt(o, p, cfg, e).Some? {
      AttemptFits(o, p, cfg, e);
      MintedIsNew(s, id, e.fillId);
      var fill: Fill := Built(o, Attempt(o, p, cfg, e).value, e.fillId);
      FittingFillTaken(s.oms, fill);
      TakenAdds(s.oms, fill);
    }
  }

  // A stage leaves the order with what the market offered it.
  lemma StageTrades(s: Sys, id: string, p: Pending, cfg: ExecConfig, e: Encounter, how: Standing)
    requires ExecInv(s, how) && id in s.oms.orders && Minted(s, e.fillId)
    requires ValidConfig(cfg) && e.queueDraw >= 0.0
    requires s.oms.orders[id].status in {Open, PartiallyFilled, CancelPending}
    ensures var r := FillStage(s, id, p, cfg, e);
      !r.raised && ExecInv(r.sys, how) && OthersKept(s, r.sys, id) && id in r.sys.oms.orders
    ensures var o, r := s.oms.orders[id], FillStage(s, id, p, cfg, e).sys.oms.orders[id];
      && Trades(o, r, p, cfg, e) && r.ticket == o.ticket && r.filled >= o.filled
      && r.status == (if r.filled == o.filled then o.status else if IsFull(r) then Filled else PartiallyFilled)
      && (r.filled == o.filled ==> r == o)
  {
    hide ExecInv, Attempt, FillStage, IsFull, Trades, OthersKept, Minted;
    StageFills(s, id, p, cfg, e, how);
    var o, r := s.oms.orders[id], FillStage(s, id, p, cfg, e).sys.oms.orders[id];
    PlacedOf(s, id, how);
    if Attempt(o, p, cfg, e).Some? {
      AttemptFits(o, p, cfg, e);
    }
    AttemptTrades(o, r, p, cfg, e);
  }

  lemma PlacedOf(s: Sys, id: string, how: Standing)
    requires ExecInv(s, how) && id in s.oms.orders
    ensures Placed(s.oms.orders[id])
  {
    hide Placed, Stands;
  }

  lemma AttemptTrades(o: Order, r: Order, p: Pending, cfg: ExecConfig, e: Encounter)
    requires ValidConfig(cfg) && o.status in {Open, PartiallyFilled, CancelPending}
    requires r.filled == o.filled + if Attempt(o, p, cfg, e).None? then 0.0 else Attempt(o, p, cfg, e).value.quantity
    ensures Trades(o, r, p, cfg, e)
  {
    hide Attempt, Ask, WithinLimitOf, QueueReached, Beyond;
    if TakesLiquidity(o.ticket) {
      forall k: nat | Offered(o, cfg, e, k)
        ensures r.filled >= o.filled + Min(Ask(o, cfg.cap), e.met[k].size)
      {
        MarketableTrades(o, p, cfg, e, k);
      }
      if NothingToTake(o, cfg, e) {
        MarketableRests(o, p, cfg, e);
      }
    } else {
      PassiveTrades(o, p, cfg, e);
    }
  }

  // One poll gives the order all it owes it.
  lemma PollAdvances(s: Sys, id: string, p: Pending, now: int, cfg: ExecConfig, e: Encounter, how: Standing)
    requires ExecInv(s, how) && id in s.oms.orders && Minted(s, e.fillId)
    requires ValidConfig(cfg) && e.queueDraw >= 0.0
    ensures var r := PollOne(s, id, p, now, cfg, e);
      id in r.sys.oms.orders && Advanced(s.oms.orders[id], r.sys.oms.orders[id], p, now, cfg, e, r.raised)
  {
    hide Stands, CancelWins, FillStage, ExpireStage, Placed, Moved, OrderInv, Arrived, Trades, RaceLost, Minted, IsFull;
    PollKeeps(s, id, p, now, cfg, e, how);
    PlacedOf(s, id, how);
    var o := s.oms.orders[id];
    RaceLostMeans(o.ticket, cfg, e);
    if o.status.IsTerminal() || o.status == Unknown {
    } else if p.forceUnknown {
      PlacedMayBeLost(o);
      MoveLands(s.oms, id, Unknown);
    } else if now >= p.ackAt {
      ArrivalKeeps(s, id, how);
      var arrived := s.(oms := Arrived(s.oms, id));
      if o.status == CancelPending && CancelDue(p, now) && !RaceLost(o.ticket, cfg, e) {
        MoveLands(arrived.oms, id, Cancelled);
      } else if !AwaitsVenue(o, p, now) {
        PlacedMayBeLost(o);
        TradeAdvances(s, arrived, id, p, now, cfg, e, how);
      }
    }
  }

  lemma MoveLands(m: Oms, id: string, status: Status)
    requires id in m.orders && status in Transitions(m.orders[id].status)
    ensures AfterMove(m, id, status).orders[id] == Moved(m.orders[id], status)
    ensures AfterTransition(m, id, status).orders[id] == Moved(m.orders[id], status)
    ensures Moved(m.orders[id], status).status == status && Moved(m.orders[id], status).filled == m.orders[id].filled
    ensures Moved(m.orders[id], status).ticket == m.orders[id].ticket
  {
    hide Transitions;
  }

  // The last stage of a poll: trade, then expire.
  lemma TradeAdvances(
    s: Sys, arrived: Sys, id: string, p: Pending, now: int, cfg: ExecConfig, e: Encounter, how: Standing)
    requires ExecInv(s, how) && ExecInv(arrived, how) && id in s.oms.orders && id in arrived.oms.orders
    requires Minted(s, e.fillId)
    requires arrived == s.(oms := Arrived(s.oms, id))
    requires ValidConfig(cfg) && e.queueDraw >= 0.0
    requires var o, a := s.oms.orders[id], arrived.oms.orders[id];
      && o.status in {Submitting, Open, PartiallyFilled, CancelPending}
      && a.ticket == o.ticket && a.filled == o.filled
      && (o.status != Submitting ==> a == o) && (o.status == Submitting ==> a.status == Open)
    requires CanTrade(s.oms.orders[id], p, now, cfg, e)
    ensures var filled := FillStage(arrived, id, p, cfg, e);
      && !filled.raised && id in filled.sys.oms.orders
      && var r := ExpireStage(filled.sys, id, now);
         id in r.sys.oms.orders && Advanced(s.oms.orders[id], r.sys.oms.orders[id], p, now, cfg, e, r.raised)
  {
    hide Stands, FillStage, ExpireStage, Placed, Arrived, Trades, RaceLost, Minted, OmsFillIds, OthersKept, ExecInv;
    ArrivalKeepsMint(s, id, e.fillId);
    StageTrades(arrived, id, p, cfg, e, how);
    var o, a := s.oms.orders[id], arrived.oms.orders[id];
    var filled := FillStage(arrived, id, p, cfg, e).sys;
    SameOffer(o, a, filled.oms.orders[id], p, cfg, e);
    ExpireLands(filled, id, now, how);
    SameTrade(o, filled.oms.orders[id], ExpireStage(filled, id, now).sys.oms.orders[id], p, cfg, e);
  }

  // The market offers an order the same whether it has just arrived or not.
  lemma SameOffer(o: Order, a: Order, r: Order, p: Pending, cfg: ExecConfig, e: Encounter)
    requires a.ticket == o.ticket && a.filled == o.filled
    ensures Trades(o, r, p, cfg, e) <==> Trades(a, r, p, cfg, e)
  {
    assert o.Remaining() == a.Remaining();
    hide Order.Remaining, WithinLimitOf, FirstTakeable, Times;
    assert Ask(o, cfg.cap) == Ask(a, cfg.cap) && Beyond(o, cfg, e) == Beyond(a, cfg, e);
    assert QueueReached(o, p, cfg, e) <==> QueueReached(a, p, cfg, e);
    hide Ask, Beyond, QueueReached;
    assert forall k: nat :: Offered(o, cfg, e, k) <==> Offered(a, cfg, e, k);
  }

  lemma SameTrade(o: Order, q: Order, r: Order, p: Pending, cfg: ExecConfig, e: Encounter)
    requires r.filled == q.filled
    ensures Trades(o, r, p, cfg, e) <==> Trades(o, q, p, cfg, e)
  {
    hide Offered, NothingToTake, QueueReached, Beyond;
  }

  // Expiry ends a live order that is past its time, unless it raises.
  lemma ExpireLands(s: Sys, id: string, now: int, how: Standing)
    requires ExecInv(s, how) && id in s.oms.orders
    requires s.oms.orders[id].status in {Open, PartiallyFilled, CancelPending, Filled}
    ensures var r, o := ExpireStage(s, id, now), s.oms.orders[id];
      && id in r.sys.oms.orders && r.sys.oms.orders[id].ticket == o.ticket && r.sys.oms.orders[id].filled == o.filled
      && (r.raised || r.sys.oms.orders[id].status ==
            if o.status == Filled || !IsExpired(o.ticket, now) then o.status
            else if o.filled > 0.0 then Cancelled else Expired)
      && (o.status == Filled || !IsExpired(o.ticket, now) ==> r.sys.oms.orders[id] == o)
  {
    hide Stands, Transitions;
  }

  // -- what orders pay ---------------------------------------------------------------------

  // A marketable order takes liquidity and pays the taker's rate, any other the
  // maker's.
  function RateOf(t: Ticket, cfg: ExecConfig): (bps: real) {
    if TakesLiquidity(t) then cfg.takerBps else cfg.makerBps
  }

  predicate PaysRate(f: Fill, t: Ticket, cfg: ExecConfig) {
    && 10000.0 * f.fee == Times(RateOf(t, cfg), f.price * f.quantity)
    && (!TakesLiquidity(t) ==> t.limitPrice == Some(f.price))
    && f.side == t.side && f.venue == t.venue && f.symbol == t.symbol
  }

  // The order has paid its rate on all it traded; its fills are on its own side
  // and book, and those of a resting order at its limit.
  ghost predicate Rated(o: Order, cfg: ExecConfig) {
    && 10000.0 * o.fees == Times(RateOf(o.ticket, cfg), SumNotional(o.fills))
    && forall f :: f in o.fills ==> PaysRate(f, o.ticket, cfg)
  }

  ghost predicate AllRated(m: Oms, cfg: ExecConfig) {
    forall id :: id in m.orders ==> Rated(m.orders[id], cfg)
  }

  lemma AttemptPays(o: Order, p: Pending, cfg: ExecConfig, e: Encounter)
    requires Attempt(o, p, cfg, e).Some? && Fillable(Built(o, Attempt(o, p, cfg, e).value, e.fillId))
    ensures PaysRate(Built(o, Attempt(o, p, cfg, e).value, e.fillId), o.ticket, cfg)
  {
    hide Walk, Eligible, Wanted, FillSlippage, Order.Remaining;
    var f := Attempt(o, p, cfg, e).value;
    FillPays(o, f.quantity, f.price, RateOf(o.ticket, cfg));
    Reordered(f.quantity, f.price, RateOf(o.ticket, cfg));
  }

  lemma Reordered(x: real, y: real, z: real)
    ensures x * y * z == Times(z, y * x)
  {
  }

  lemma RecordedPays(o: Order, f: Fill, cfg: ExecConfig)
    requires o.filled >= 0.0 && Rated(o, cfg) && PaysRate(f, o.ticket, cfg)
    ensures Rated(Recorded(o, f), cfg)
  {
    if f.fillId !in Ids(o.fills) {
      hide Ids, Rolled, SumNotional, PaysRate;
      SumSnoc(o.fills, f);
      Distributed(RateOf(o.ticket, cfg), SumNotional(o.fills), f.price * f.quantity);
      FeeOfFill(f, o.ticket, cfg);
    }
  }

  lemma FeeOfFill(f: Fill, t: Ticket, cfg: ExecConfig)
    requires PaysRate(f, t, cfg)
    ensures 10000.0 * f.fee == Times(RateOf(t, cfg), f.price * f.quantity)
  {
  }

  lemma Distributed(x: real, y: real, z: real)
    ensures Times(x, y + z) == Times(x, y) + Times(x, z)
  {
  }

  lemma MovedPays(m: Oms, id: string, status: Status, cfg: ExecConfig)
    requires AllRated(m, cfg)
    ensures AllRated(AfterMove(m, id, status), cfg) && AllRated(AfterTransition(m, id, status), cfg)
  {
    hide Transitions, PaysRate, SumNotional, Times;
  }

  lemma FilledPays(m: Oms, f: Fill, cfg: ExecConfig)
    requires AllRated(m, cfg) && f.orderId in m.orders && m.orders[f.orderId].filled >= 0.0
    requires PaysRate(f, m.orders[f.orderId].ticket, cfg)
    ensures AllRated(Orders.AfterFill(m, f), cfg)
  {
    RecordedPays(m.orders[f.orderId], f, cfg);
    hide Recorded, PaysRate, SumNotional, Times, Target, Moves, FillOutcome;
  }

  lemma StagePays(s: Sys, id: string, p: Pending, cfg: ExecConfig, e: Encounter)
    requires id in s.oms.orders && AllRated(s.oms, cfg)
    ensures AllRated(FillStage(s, id, p, cfg, e).sys.oms, cfg)
  {
    hide Attempt, Built, AllRated, PaysRate;
    var o := s.oms.orders[id];
    if Attempt(o, p, cfg, e).Some? && o.filled >= 0.0 && o.id == id {
      var fill := Built(o, Attempt(o, p, cfg, e).value, e.fillId);
      if Fillable(fill) {
        AttemptPays(o, p, cfg, e);
        BuiltFor(o, Attempt(o, p, cfg, e).value, e.fillId);
        FilledPays(s.oms, fill, cfg);
      }
    }
  }

  lemma BuiltFor(o: Order, f: SimulatedFill, fillId: string)
    ensures Built(o, f, fillId).orderId == o.id
  {
  }

  lemma PollPays(s: Sys, id: string, p: Pending, now: int, cfg: ExecConfig, e: Encounter)
    requires id in s.oms.orders && AllRated(s.oms, cfg)
    ensures AllRated(PollOne(s, id, p, now, cfg, e).sys.oms, cfg)
  {
    hide AllRated, AfterMove, AfterTransition, FillStage, MoveOutcome, CancelWins;
    MovedPays(s.oms, id, Unknown, cfg);
    MovedPays(s.oms, id, Acknowledged, cfg);
    MovedPays(AfterTransition(s.oms, id, Acknowledged), id, Open, cfg);
    var arrived := Arrived(s.oms, id);
    ArrivedKnown(s.oms, id);
    MovedPays(arrived, id, Cancelled, cfg);
    StagePays(s.(oms := arrived), id, p, cfg, e);
    var filled := FillStage(s.(oms := arrived), id, p, cfg, e).sys;
    MovedPays(filled.oms, id, Expired, cfg);
    MovedPays(filled.oms, id, Cancelled, cfg);
  }

  lemma ArrivedKnown(m: Oms, id: string)
    requires id in m.orders
    ensures id in Arrived(m, id).orders
  {
  }

  lemma StepPays(s: Sys, step: ExecStep, cfg: ExecConfig)
    requires Allowed(s, step) && AllRated(s.oms, cfg) && (step.Poll? ==> step.cfg == cfg)
    ensures AllRated(ExecNext(s, step).sys.oms, cfg)
  {
    hide AllRated, AfterTransition, PollOne, ReconcileOk, MoveOutcome, AfterCompaction;
    match step
    case Submit(id, ticket, disabled) =>
      CreatedPays(s.oms, id, ticket, cfg);
      MovedPays(AfterCreate(s.oms, id, ticket), id, if disabled then Rejected else Submitting, cfg);
    case CancelOrder(id) => MovedPays(s.oms, id, CancelPending, cfg);
    case Poll(id, p, now, _, e) => PollPays(s, id, p, now, cfg, e);
    case Reconcile => CompactedPays(s, cfg);
  }

  lemma CreatedPays(m: Oms, id: string, ticket: Ticket, cfg: ExecConfig)
    requires AllRated(m, cfg)
    ensures AllRated(AfterCreate(m, id, ticket), cfg)
  {
    hide PaysRate;
    assert SumNotional([]) == 0.0;
  }

  lemma CompactedPays(s: Sys, cfg: ExecConfig)
    requires AllRated(s.oms, cfg)
    ensures AllRated(AfterCompaction(s).oms, cfg)
  {
    hide Rated, SealCut, Doomed;
  }

  // Over every executor run at given rates: whatever the market, the draws and
  // the interleaving, every resident order has paid exactly its own rate on what
  // it traded, on its own side and book, and a resting order only ever trades at
  // its limit.
  lemma {:induction false} OrdersPayTheirRate(
    states: seq<Sys>, steps: seq<ExecStep>, initial: real, retained: nat, dedupeLimit: nat, cfg: ExecConfig, n: nat)
    requires |states| == |steps| + 1 && states[0] == Start(initial, retained, dedupeLimit) && n <= |steps|
    requires forall i :: 0 <= i < |steps| ==>
      Allowed(states[i], steps[i]) && states[i + 1] == ExecNext(states[i], steps[i]).sys
    requires forall i :: 0 <= i < |steps| && steps[i].Poll? ==> steps[i].cfg == cfg
    ensures AllRated(states[n].oms, cfg)
  {
    hide AllRated, ExecNext, Allowed;
    if n == 0 {
      NothingPaid(initial, retained, dedupeLimit, cfg);
    } else {
      OrdersPayTheirRate(states, steps, initial, retained, dedupeLimit, cfg, n - 1);
      StepPays(states[n - 1], steps[n - 1], cfg);
    }
  }

  lemma NothingPaid(initial: real, retained: nat, dedupeLimit: nat, cfg: ExecConfig)
    ensures AllRated(Start(initial, retained, dedupeLimit).oms, cfg)
  {
  }
}
