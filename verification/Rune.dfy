// RUNE-CORE: sizes an intent to every limit, then gates the sized intent.
module RuneRisk {
  import opened Common
  import opened Totals

  datatype PositionView = PositionView(venue: string, quantity: real, entry: real, mark: Option<real>) {
    function Price(): (r: real) {
      if mark.Some? then mark.value else entry
    }

    function Notional(): (r: real) {
      Abs(quantity) * Price()
    }

    function SignedNotional(): (r: real) {
      quantity * Price()
    }
  }

  datatype Portfolio = Portfolio(
    cash: real, positions: map<string, PositionView>, peakEquity: real, dayRealizedPnl: real)

  datatype RiskLimits = RiskLimits(
    maxPositionNotional: real, maxGrossExposure: real, maxNetExposure: real, maxLeverage: real,
    maxDailyLoss: real, maxDrawdown: real, maxVenueExposure: real, maxStrategyExposure: real,
    maxOrderNotional: real, minTradeNotional: real, maxUnhedgedNotional: real, maxDataAgeMs: int,
    minExpectedEdgeBps: real, maxErrorRate: real, maxOpenOrders: int)

  // The configuration refuses limits that are not positive.
  type Limits = l: RiskLimits |
    && l.maxPositionNotional > 0.0 && l.maxGrossExposure > 0.0 && l.maxVenueExposure > 0.0
    && l.maxStrategyExposure > 0.0 && l.maxOrderNotional > 0.0 && l.minTradeNotional > 0.0
    witness RiskLimits(50000.0, 150000.0, 25000.0, 2.0, 2500.0, 5000.0, 75000.0, 100000.0,
                       25000.0, 250.0, 10000.0, 2000, 2.0, 0.25, 20)

  datatype Leg = Leg(venue: string, symbol: string, side: Side)

  datatype TradeIntent = TradeIntent(
    legs: seq<Leg>, notional: real, expectedNetEdgeBps: real, consensusAgreement: real,
    sourceDataTimestamp: Option<int>, deadlineMs: int)

  // Required components all healthy, and VESKA's own status if it ever reported.
  datatype Health = Health(requiredOk: bool, veskaHealthy: Option<bool>)

  datatype RiskContext = RiskContext(
    portfolio: Portfolio, tradingAllowed: bool, health: Option<Health>, consensusThreshold: real,
    consensusComplete: bool, openOrders: int, errorRate: real, unhedgedNotional: real,
    strategyExposure: real, maxEconomicalNotional: Option<real>, hedgeAvailable: bool)

  // -- exposures -------------------------------------------------------------------------

  function NotionalOf(p: PositionView): (t: Tally) {
    Tally(1, p.Notional())
  }

  function SignedNotionalOf(p: PositionView): (t: Tally) {
    Tally(1, p.SignedNotional())
  }

  function NotionalOn(venue: string): (f: PositionView -> Tally) {
    (p: PositionView) => Tally(1, if p.venue == venue then p.Notional() else 0.0)
  }

  // What a leg already finds on its venue and in its position.
  datatype LegFigures = LegFigures(venueExposure: real, positionNotional: real)

  datatype Figures = Figures(gross: real, net: real, equity: real, legs: seq<LegFigures>)

  ghost function LegFiguresOf(p: Portfolio, leg: Leg): LegFigures {
    var key := KeyOf(leg.venue, leg.symbol);
    LegFigures(Total(p.positions, NotionalOn(leg.venue)).amount,
               if key in p.positions then p.positions[key].Notional() else 0.0)
  }

  ghost function FiguresOf(p: Portfolio, legs: seq<Leg>): Figures {
    var net := Total(p.positions, SignedNotionalOf).amount;
    Figures(Total(p.positions, NotionalOf).amount, net, p.cash + net,
            seq(|legs|, i requires 0 <= i < |legs| => LegFiguresOf(p, legs[i])))
  }

  method SumOver(positions: map<string, PositionView>, f: PositionView -> Tally) returns (t: Tally)
    ensures t == Total(positions, f)
  {
    t := ZERO;
    var left := positions;
    while left != map[]
      invariant t.Plus(Total(left, f)) == Total(positions, f)
      decreases |left|
    {
      var key :| key in left;
      TotalRemove(left, f, key);
      t, left := t.Plus(f(left[key])), left - {key};
    }
  }

  method ComputeFigures(p: Portfolio, legs: seq<Leg>) returns (figures: Figures)
    ensures figures == FiguresOf(p, legs)
  {
    var gross := SumOver(p.positions, NotionalOf);
    var net := SumOver(p.positions, SignedNotionalOf);
    var perLeg := [];
    for i := 0 to |legs|
      invariant |perLeg| == i
      invariant forall j :: 0 <= j < i ==> perLeg[j] == LegFiguresOf(p, legs[j])
    {
      var onVenue := SumOver(p.positions, NotionalOn(legs[i].venue));
      var key := KeyOf(legs[i].venue, legs[i].symbol);
      perLeg := perLeg + [LegFigures(
        onVenue.amount, if key in p.positions then p.positions[key].Notional() else 0.0)];
    }
    figures := Figures(gross.amount, net.amount, p.cash + net.amount, perLeg);
  }

  // -- gates --------------------------------------------------------------------------------

  datatype GateResult = PASS | FAIL | UNKNOWN

  datatype GateName =
    | KillSwitchClear | SystemHealthy | ExecutionHealthy | Consensus | MarketDataFresh | IntentNotExpired
    | MinExpectedEdge | LiquiditySufficient | HedgeAvailable | MaxOrderNotional | MaxPositionNotional
    | MaxGrossExposure | MaxNetExposure | MaxLeverage | MaxVenueExposure | MaxStrategyExposure
    | MaxDailyLoss | MaxDrawdown | MaxUnhedgedExposure | MaxOpenOrders | MaxErrorRate | MinTradeNotional

  function Check(ok: bool): (r: GateResult) {
    if ok then PASS else FAIL
  }

  function NetDelta(legs: seq<Leg>, notional: real): (r: real) {
    if legs == [] then 0.0 else NetDelta(legs[..|legs| - 1], notional) + legs[|legs| - 1].side.Signed(notional)
  }

  // The largest of 0 and each leg's figure plus the new notional.
  function WorstPosition(legs: seq<LegFigures>, notional: real): (r: real) {
    if legs == [] then 0.0
    else Max(WorstPosition(legs[..|legs| - 1], notional), legs[|legs| - 1].positionNotional + notional)
  }

  function WorstVenue(legs: seq<LegFigures>, notional: real): (r: real) {
    if legs == [] then 0.0
    else Max(WorstVenue(legs[..|legs| - 1], notional), legs[|legs| - 1].venueExposure + notional)
  }

  // The result of one gate for an intent of the given notional.
  function Gate(
    name: GateName, i: TradeIntent, notional: real, ctx: RiskContext, f: Figures, l: Limits, now: int): (r: GateResult)
  {
    var n := |i.legs| as real;
    match name
    case KillSwitchClear => Check(ctx.tradingAllowed)
    case SystemHealthy => if ctx.health.None? then UNKNOWN else Check(ctx.health.value.requiredOk)
    case ExecutionHealthy =>
      if ctx.health.None? || ctx.health.value.veskaHealthy.None? then UNKNOWN
      else Check(ctx.health.value.veskaHealthy.value)
    case Consensus => Check(ctx.consensusComplete && i.consensusAgreement >= ctx.consensusThreshold)
    case MarketDataFresh =>
      if i.sourceDataTimestamp.None? then UNKNOWN else Check(now - i.sourceDataTimestamp.value <= l.maxDataAgeMs)
    case IntentNotExpired => Check(now <= i.deadlineMs)
    case MinExpectedEdge => Check(i.expectedNetEdgeBps >= l.minExpectedEdgeBps)
    case LiquiditySufficient =>
      if ctx.maxEconomicalNotional.None? then UNKNOWN else Check(ctx.maxEconomicalNotional.value >= notional)
    case HedgeAvailable => Check(ctx.hedgeAvailable)
    case MaxOrderNotional => Check(notional <= l.maxOrderNotional)
    case MaxPositionNotional => Check(WorstPosition(f.legs, notional) <= l.maxPositionNotional)
    case MaxGrossExposure => Check(f.gross + notional * n <= l.maxGrossExposure)
    case MaxNetExposure => Check(Abs(f.net + NetDelta(i.legs, notional)) <= l.maxNetExposure)
    case MaxLeverage =>
      if f.equity <= 0.0 then FAIL else Check((f.gross + notional * n) / f.equity <= l.maxLeverage)
    case MaxVenueExposure => Check(WorstVenue(f.legs, notional) <= l.maxVenueExposure)
    case MaxStrategyExposure => Check(ctx.strategyExposure + notional * n <= l.maxStrategyExposure)
    case MaxDailyLoss => Check(Max(0.0, -ctx.portfolio.dayRealizedPnl) < l.maxDailyLoss)
    case MaxDrawdown => Check(Max(0.0, ctx.portfolio.peakEquity - f.equity) < l.maxDrawdown)
    case MaxUnhedgedExposure => Check(Abs(ctx.unhedgedNotional) <= l.maxUnhedgedNotional)
    case MaxOpenOrders => Check(ctx.openOrders < l.maxOpenOrders)
    case MaxErrorRate => Check(ctx.errorRate <= l.maxErrorRate)
    case MinTradeNotional => PASS
  }

  // Every gate is mandatory, so anything but PASS blocks.
  const GATES := [
    KillSwitchClear, SystemHealthy, ExecutionHealthy, Consensus, MarketDataFresh, IntentNotExpired,
    MinExpectedEdge, LiquiditySufficient, HedgeAvailable, MaxOrderNotional, MaxPositionNotional,
    MaxGrossExposure, MaxNetExposure, MaxLeverage, MaxVenueExposure, MaxStrategyExposure,
    MaxDailyLoss, MaxDrawdown, MaxUnhedgedExposure, MaxOpenOrders, MaxErrorRate]

  // The gates the headroom is computed for.
  const SIZE_GATES := {
    MaxOrderNotional, MaxPositionNotional, MaxGrossExposure, MaxVenueExposure, MaxStrategyExposure, LiquiditySufficient}

  predicate SizeGatesPass(i: TradeIntent, notional: real, ctx: RiskContext, f: Figures, l: Limits) {
    forall g :: g in SIZE_GATES ==> Gate(g, i, notional, ctx, f, l, 0) == PASS
  }

  // The gate asks about something nobody has reported.
  predicate Unreported(name: GateName, i: TradeIntent, ctx: RiskContext) {
    match name
    case SystemHealthy => ctx.health.None?
    case ExecutionHealthy => ctx.health.None? || ctx.health.value.veskaHealthy.None?
    case MarketDataFresh => i.sourceDataTimestamp.None?
    case LiquiditySufficient => ctx.maxEconomicalNotional.None?
    case _ => false
  }

  // A gate is UNKNOWN exactly when what it asks about was not reported, and so
  // never passes on silence.
  lemma SilenceIsUnknown(
    name: GateName, i: TradeIntent, notional: real, ctx: RiskContext, f: Figures, l: Limits, now: int)
    ensures Gate(name, i, notional, ctx, f, l, now) == UNKNOWN <==> Unreported(name, i, ctx)
  {
    hide NetDelta, WorstPosition, WorstVenue;
    match name
    case SystemHealthy =>
    case ExecutionHealthy =>
    case MarketDataFresh =>
    case LiquiditySufficient =>
    case _ => OtherGates(name, i, notional, ctx, f, l, now);
  }

  lemma OtherGates(name: GateName, i: TradeIntent, notional: real, ctx: RiskContext, f: Figures, l: Limits, now: int)
    requires name !in {SystemHealthy, ExecutionHealthy, MarketDataFresh, LiquiditySufficient}
    ensures Gate(name, i, notional, ctx, f, l, now) in {PASS, FAIL}
  {
    hide NetDelta, WorstPosition, WorstVenue;
  }

  // -- headroom -----------------------------------------------------------------------------

  function LegRoom(legs: seq<LegFigures>, l: Limits, cap: real): (r: real) {
    if legs == [] then cap
    else
      var leg := legs[|legs| - 1];
      Min(LegRoom(legs[..|legs| - 1], l, cap),
          Min(l.maxVenueExposure - leg.venueExposure, l.maxPositionNotional - leg.positionNotional))
  }

  // The least of the limits' remaining room, before it is clamped to zero.
  function Room(i: TradeIntent, ctx: RiskContext, f: Figures, l: Limits): (r: real) {
    var n := if |i.legs| == 0 then 1.0 else |i.legs| as real;
    var cap := Min(Min(i.notional, l.maxOrderNotional),
                   Min((l.maxGrossExposure - f.gross) / n, (l.maxStrategyExposure - ctx.strategyExposure) / n));
    var room := LegRoom(f.legs, l, cap);
    if ctx.maxEconomicalNotional.Some? then Min(room, ctx.maxEconomicalNotional.value) else room
  }

  lemma {:induction false} WorstWithin(legs: seq<LegFigures>, x: real, l: Limits, cap: real)
    ensures WorstPosition(legs, x) <= l.maxPositionNotional && WorstVenue(legs, x) <= l.maxVenueExposure && x <= cap
      <==> x <= LegRoom(legs, l, cap)
  {
    if legs != [] {
      WorstWithin(legs[..|legs| - 1], x, l, cap);
    }
  }

  lemma SharedRoom(x: real, n: real, limit: real, used: real)
    requires n > 0.0
    ensures used + x * n <= limit <==> x <= (limit - used) / n
  {
    var room := (limit - used) / n;
    assert room * n == limit - used;
    if x <= room {
      assert x * n <= room * n;
    } else {
      assert x * n > room * n;
    }
  }

  // The six size gates, spelled out.
  lemma SizeGatesMeaning(i: TradeIntent, x: real, ctx: RiskContext, f: Figures, l: Limits)
    ensures SizeGatesPass(i, x, ctx, f, l) <==>
      && x <= l.maxOrderNotional
      && WorstPosition(f.legs, x) <= l.maxPositionNotional && WorstVenue(f.legs, x) <= l.maxVenueExposure
      && f.gross + x * |i.legs| as real <= l.maxGrossExposure
      && ctx.strategyExposure + x * |i.legs| as real <= l.maxStrategyExposure
      && ctx.maxEconomicalNotional.Some? && ctx.maxEconomicalNotional.value >= x
  {
    forall g ensures g in SIZE_GATES <==>
      g == MaxOrderNotional || g == MaxPositionNotional || g == MaxGrossExposure || g == MaxVenueExposure
      || g == MaxStrategyExposure || g == LiquiditySufficient
    {
    }
  }

  // The headroom counts an intent without legs as one leg, the gates as none:
  // what it must leave besides, so that the two agree.
  predicate LeavesRoom(i: TradeIntent, x: real, ctx: RiskContext, f: Figures, l: Limits) {
    i.legs == [] ==> f.gross + x <= l.maxGrossExposure && ctx.strategyExposure + x <= l.maxStrategyExposure
  }

  // The unclamped headroom is exactly the largest notional, up to the request,
  // that passes every size gate.
  lemma RoomIsMaximal(i: TradeIntent, x: real, ctx: RiskContext, f: Figures, l: Limits)
    requires |f.legs| == |i.legs| && ctx.maxEconomicalNotional.Some?
    requires i.legs == [] ==> x >= 0.0
    ensures x <= Room(i, ctx, f, l) <==>
      x <= i.notional && SizeGatesPass(i, x, ctx, f, l) && LeavesRoom(i, x, ctx, f, l)
  {
    hide SizeGatesPass, Room;
    if i.legs == [] {
      RoomWithoutLegs(i, x, ctx, f, l);
    } else {
      RoomWithLegs(i, x, ctx, f, l);
    }
  }

  lemma RoomWithLegs(i: TradeIntent, x: real, ctx: RiskContext, f: Figures, l: Limits)
    requires i.legs != [] && |f.legs| == |i.legs| && ctx.maxEconomicalNotional.Some?
    ensures x <= Room(i, ctx, f, l) <==> x <= i.notional && SizeGatesPass(i, x, ctx, f, l)
  {
    hide Gate, SizeGatesPass, SIZE_GATES, WorstPosition, WorstVenue, LegRoom;
    var n := |i.legs| as real;
    SizeGatesMeaning(i, x, ctx, f, l);
    SharedRoom(x, n, l.maxGrossExposure, f.gross);
    SharedRoom(x, n, l.maxStrategyExposure, ctx.strategyExposure);
    var gross, strategy := (l.maxGrossExposure - f.gross) / n, (l.maxStrategyExposure - ctx.strategyExposure) / n;
    WorstWithin(f.legs, x, l, Min(Min(i.notional, l.maxOrderNotional), Min(gross, strategy)));
  }

  lemma RoomWithoutLegs(i: TradeIntent, x: real, ctx: RiskContext, f: Figures, l: Limits)
    requires i.legs == [] && f.legs == [] && ctx.maxEconomicalNotional.Some? && x >= 0.0
    ensures x <= Room(i, ctx, f, l) <==>
      x <= i.notional && SizeGatesPass(i, x, ctx, f, l) && LeavesRoom(i, x, ctx, f, l)
  {
    hide SizeGatesPass;
    SizeGatesMeaning(i, x, ctx, f, l);
    assert (l.maxGrossExposure - f.gross) / 1.0 == l.maxGrossExposure - f.gross;
    assert (l.maxStrategyExposure - ctx.strategyExposure) / 1.0 == l.maxStrategyExposure - ctx.strategyExposure;
  }

  datatype Verdict = APPROVED | APPROVED_REDUCED | REJECTED

  datatype GateCheck = GateCheck(name: GateName, result: GateResult)

  datatype RiskDecision = RiskDecision(
    verdict: Verdict, approvedNotional: real, requestedNotional: real, gates: seq<GateCheck>, blocking: seq<GateName>)
  {
    predicate Approved() {
      verdict != REJECTED
    }
  }

  const KEEP_BAND: real := 0.000000001

  // Keeps the request when the headroom reaches it to within the band.
  function Sized(i: TradeIntent, headroom: real): (r: real) {
    if headroom >= i.notional - KEEP_BAND then i.notional else headroom
  }

  // What an approval comes down to: enough headroom, and every gate passed at
  // the sized notional.
  ghost predicate Approves(i: TradeIntent, ctx: RiskContext, l: Limits, now: int) {
    var f := FiguresOf(ctx.portfolio, i.legs);
    var headroom := Max(0.0, Room(i, ctx, f, l));
    headroom >= l.minTradeNotional && forall g :: g in GATES ==> Gate(g, i, Sized(i, headroom), ctx, f, l, now) == PASS
  }

  class RuneCore {
    const limits: Limits
    var evaluations: nat
    var rejections: nat

    constructor (limits: Limits)
      ensures this.limits == limits && evaluations == 0 && rejections == 0
    {
      this.limits := limits;
      evaluations, rejections := 0, 0;
    }

    // Fills a candidate list and takes its least, clamped to zero.
    method Headroom(i: TradeIntent, ctx: RiskContext, f: Figures) returns (headroom: real)
      requires |f.legs| == |i.legs|
      ensures headroom == Max(0.0, Room(i, ctx, f, limits))
    {
      var legs := if |i.legs| == 0 then 1.0 else |i.legs| as real;
      var least := Min(Min(i.notional, limits.maxOrderNotional),
                       Min((limits.maxGrossExposure - f.gross) / legs,
                           (limits.maxStrategyExposure - ctx.strategyExposure) / legs));
      ghost var cap := least;
      for k := 0 to |f.legs|
        invariant least == LegRoom(f.legs[..k], limits, cap)
      {
        assert f.legs[..k + 1][..k] == f.legs[..k];
        least := Min(least, Min(limits.maxVenueExposure - f.legs[k].venueExposure,
                                limits.maxPositionNotional - f.legs[k].positionNotional));
      }
      assert f.legs[..|f.legs|] == f.legs;
      if ctx.maxEconomicalNotional.Some? {
        least := Min(least, ctx.maxEconomicalNotional.value);
      }
      headroom := Max(0.0, least);
    }

    // Sizes, then gates. An approval has passed every gate at the approved
    // notional; a request with too little headroom is rejected before the gates.
    method Evaluate(i: TradeIntent, ctx: RiskContext, now: int) returns (d: RiskDecision)
      requires i.notional > 0.0
      modifies this
      ensures evaluations == old(evaluations) + 1
      ensures rejections == old(rejections) + if d.Approved() then 0 else 1
      ensures d.requestedNotional == i.notional
      ensures var f := FiguresOf(ctx.portfolio, i.legs);
        var headroom := Max(0.0, Room(i, ctx, f, limits));
        var sized := Sized(i, headroom);
        && (d.Approved() <==> Approves(i, ctx, limits, now))
        && (d.Approved() ==> d.approvedNotional == sized)
        && (d.Approved() ==> (d.verdict == APPROVED_REDUCED <==> sized < i.notional - KEEP_BAND))
        && (!d.Approved() ==> d.approvedNotional == 0.0)
        && (headroom >= limits.minTradeNotional ==>
              forall g :: g in d.blocking <==> (g in GATES && Gate(g, i, sized, ctx, f, limits, now) != PASS))
        && (headroom < limits.minTradeNotional ==> d.blocking == [MinTradeNotional])
        && (if headroom < limits.minTradeNotional then d.gates == [GateCheck(MinTradeNotional, FAIL)]
            else
              && |d.gates| == |GATES|
              && forall k :: 0 <= k < |GATES| ==>
                   d.gates[k] == GateCheck(GATES[k], Gate(GATES[k], i, sized, ctx, f, limits, now)))
    {
      hide Gate, GATES, Room;
      var f := ComputeFigures(ctx.portfolio, i.legs);
      var headroom := Headroom(i, ctx, f);
      var sized := Sized(i, headroom);
      evaluations := evaluations + 1;
      if headroom < limits.minTradeNotional {
        rejections := rejections + 1;
        return RiskDecision(REJECTED, 0.0, i.notional, [GateCheck(MinTradeNotional, FAIL)], [MinTradeNotional]);
      }
      var checks, blocking := RunGates(i, sized, ctx, f, limits, now);
      if blocking != [] {
        rejections := rejections + 1;
        assert blocking[0] in blocking;
        return RiskDecision(REJECTED, 0.0, i.notional, checks, blocking);
      }
      var verdict := if sized < i.notional - KEEP_BAND then APPROVED_REDUCED else APPROVED;
      return RiskDecision(verdict, sized, i.notional, checks, []);
    }
  }

  // Runs every gate, collecting those that block.
  method RunGates(i: TradeIntent, notional: real, ctx: RiskContext, f: Figures, l: Limits, now: int)
    returns (checks: seq<GateCheck>, blocking: seq<GateName>)
    ensures forall g :: g in blocking <==> g in GATES && Gate(g, i, notional, ctx, f, l, now) != PASS
    ensures |checks| == |GATES|
    ensures forall k :: 0 <= k < |GATES| ==> checks[k] == GateCheck(GATES[k], Gate(GATES[k], i, notional, ctx, f, l, now))
  {
    hide Gate, GATES;
    checks, blocking := [], [];
    for k := 0 to |GATES|
      invariant |checks| == k
      invariant forall j :: 0 <= j < k ==> checks[j] == GateCheck(GATES[j], Gate(GATES[j], i, notional, ctx, f, l, now))
      invariant forall g :: g in blocking <==> g in GATES[..k] && Gate(g, i, notional, ctx, f, l, now) != PASS
    {
      var result := Gate(GATES[k], i, notional, ctx, f, l, now);
      checks := checks + [GateCheck(GATES[k], result)];
      assert GATES[..k + 1] == GATES[..k] + [GATES[k]];
      if result != PASS {
        blocking := blocking + [GATES[k]];
      }
    }
    assert GATES[..|GATES|] == GATES;
  }

  // -- what an evaluation promises ------------------------------------------------------------

  // A decision that reaches the gates is blocked by a size gate exactly when
  // the request was kept although the headroom fell short of it, inside the
  // band; without legs, exactly when an order or liquidity limit fell short.
  lemma SizeGatesBlockOnlyInBand(i: TradeIntent, ctx: RiskContext, f: Figures, l: Limits)
    requires |f.legs| == |i.legs| && ctx.maxEconomicalNotional.Some? && i.notional > 0.0
    ensures var headroom := Max(0.0, Room(i, ctx, f, l));
      headroom >= l.minTradeNotional ==>
        (!SizeGatesPass(i, Sized(i, headroom), ctx, f, l) <==>
          && i.notional - KEEP_BAND <= headroom < i.notional
          && (i.legs == [] ==> i.notional > Min(l.maxOrderNotional, ctx.maxEconomicalNotional.value)))
  {
    hide SizeGatesPass, Room, LeavesRoom;
    var headroom := Max(0.0, Room(i, ctx, f, l));
    if headroom >= l.minTradeNotional {
      RoomIsMaximal(i, Sized(i, headroom), ctx, f, l);
      RoomIsMaximal(i, i.notional, ctx, f, l);
      RoomIsMaximal(i, headroom, ctx, f, l);
      if i.legs == [] {
        GatesWithoutLegs(i, headroom, Sized(i, headroom), ctx, f, l);
      } else {
        HasLegs(i, Sized(i, headroom), ctx, f, l);
      }
    }
  }

  lemma HasLegs(i: TradeIntent, x: real, ctx: RiskContext, f: Figures, l: Limits)
    requires i.legs != []
    ensures LeavesRoom(i, x, ctx, f, l)
  {
  }

  // Without legs a size only meets the order and liquidity limits, once any
  // size at all passes.
  lemma GatesWithoutLegs(i: TradeIntent, x: real, y: real, ctx: RiskContext, f: Figures, l: Limits)
    requires i.legs == [] && f.legs == [] && ctx.maxEconomicalNotional.Some? && SizeGatesPass(i, x, ctx, f, l)
    ensures SizeGatesPass(i, y, ctx, f, l) <==> y <= Min(l.maxOrderNotional, ctx.maxEconomicalNotional.value)
  {
    hide SizeGatesPass, Gate;
    SizeGatesMeaning(i, x, ctx, f, l);
    SizeGatesMeaning(i, y, ctx, f, l);
  }

  // A two-leg request of 1000, with so much of the strategy's limit in use that
  // room is left for 1000 less half the band, is kept as it is, and the
  // strategy gate then blocks it, although 999 would have passed.
  lemma BandBlocksARequest(i: TradeIntent, ctx: RiskContext, l: Limits, now: int)
    requires i.legs == [Leg("V", "S", Buy), Leg("W", "S", Sell)] && i.notional == 1000.0
    requires ctx.portfolio == Portfolio(100000.0, map[], 100000.0, 0.0)
    requires ctx.strategyExposure == 98000.000000001 && ctx.maxEconomicalNotional == Some(1000.0)
    requires l == RiskLimits(50000.0, 150000.0, 25000.0, 2.0, 2500.0, 5000.0, 75000.0, 100000.0,
                             25000.0, 250.0, 10000.0, 2000, 2.0, 0.25, 20)
    ensures !Approves(i, ctx, l, now)
    ensures var f := FiguresOf(ctx.portfolio, i.legs);
      && Room(i, ctx, f, l) == 1000.0 - 0.0000000005 && Sized(i, Room(i, ctx, f, l)) == i.notional
      && Gate(MaxStrategyExposure, i, i.notional, ctx, f, l, now) == FAIL
      && SizeGatesPass(i, 999.0, ctx, f, l)
  {
    var f := FiguresOf(ctx.portfolio, i.legs);
    EmptyFigures(ctx.portfolio, i.legs[0], i.legs[1]);
    hide GATES, SizeGatesPass, FiguresOf, Approves;
    TwoLegRoom(i, ctx, f, l);
    RoomIsMaximal(i, 999.0, ctx, f, l);
    BlockedByGate(MaxStrategyExposure, i, ctx, l, now);
  }

  lemma EmptyFigures(p: Portfolio, a: Leg, b: Leg)
    requires p.positions == map[]
    ensures FiguresOf(p, [a, b]) == Figures(0.0, 0.0, p.cash, [LegFigures(0.0, 0.0), LegFigures(0.0, 0.0)])
  {
    var f := FiguresOf(p, [a, b]);
    assert f.legs == [LegFigures(0.0, 0.0), LegFigures(0.0, 0.0)];
  }

  lemma TwoLegRoom(i: TradeIntent, ctx: RiskContext, f: Figures, l: Limits)
    requires |i.legs| == 2 && f.gross == 0.0 && f.legs == [LegFigures(0.0, 0.0), LegFigures(0.0, 0.0)]
    requires ctx.maxEconomicalNotional == Some(1000.0) && i.notional == 1000.0
    requires l.maxOrderNotional >= 1000.0 && l.maxGrossExposure >= 2000.0
    requires l.maxVenueExposure >= 1000.0 && l.maxPositionNotional >= 1000.0
    requires l.maxStrategyExposure - ctx.strategyExposure <= 2000.0
    ensures Room(i, ctx, f, l) == (l.maxStrategyExposure - ctx.strategyExposure) / 2.0
  {
    assert |i.legs| as real == 2.0;
    var cap := (l.maxStrategyExposure - ctx.strategyExposure) / 2.0;
    assert f.legs[..1][..0] == [] && f.legs[..1] == [LegFigures(0.0, 0.0)];
    assert LegRoom([], l, cap) == cap;
    assert LegRoom(f.legs[..1], l, cap) == cap;
    assert LegRoom(f.legs, l, cap) == cap;
  }

  lemma BlockedByGate(name: GateName, i: TradeIntent, ctx: RiskContext, l: Limits, now: int)
    requires name in GATES
    requires var f := FiguresOf(ctx.portfolio, i.legs);
      Gate(name, i, Sized(i, Max(0.0, Room(i, ctx, f, l))), ctx, f, l, now) != PASS
    ensures !Approves(i, ctx, l, now)
  {
    hide Gate, GATES;
  }

  // The headroom is the largest notional up to the request that passes the
  // size gates; zero when nothing positive does.
  lemma HeadroomIsLargest(i: TradeIntent, x: real, ctx: RiskContext, f: Figures, l: Limits)
    requires |f.legs| == |i.legs| && ctx.maxEconomicalNotional.Some? && 0.0 < x <= i.notional
    ensures SizeGatesPass(i, x, ctx, f, l) && LeavesRoom(i, x, ctx, f, l) <==> x <= Max(0.0, Room(i, ctx, f, l))
  {
    hide SizeGatesPass, Room, LeavesRoom;
    RoomIsMaximal(i, x, ctx, f, l);
  }
}
