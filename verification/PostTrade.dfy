// What RUNE's gates say about the portfolio the trade would leave behind.
module PostTrade {
  import opened Common
  import opened RuneRisk
  import opened Totals

  // -- the portfolio after a trade ------------------------------------------------------

  function KeyFor(leg: Leg): (key: string) {
    KeyOf(leg.venue, leg.symbol)
  }

  function HeldBy(positions: map<string, PositionView>, leg: Leg): (quantity: real) {
    if KeyFor(leg) in positions then positions[KeyFor(leg)].quantity else 0.0
  }

  // A leg of a given notional, traded at a price the position is then marked at.
  function PostLeg(positions: map<string, PositionView>, leg: Leg, notional: real, price: real)
    : (r: map<string, PositionView>)
    requires price > 0.0
  {
    positions[KeyFor(leg) :=
      PositionView(leg.venue, HeldBy(positions, leg) + leg.side.Signed(notional / price), price, Some(price))]
  }

  // Every leg has a price, what is already held there is valued at it, and a
  // key belongs to one venue.
  ghost predicate Marked(positions: map<string, PositionView>, legs: seq<Leg>, prices: map<string, real>) {
    && (forall a, b :: a in legs && b in legs && KeyFor(a) == KeyFor(b) ==> a.venue == b.venue)
    && forall leg :: leg in legs ==>
      && KeyFor(leg) in prices && prices[KeyFor(leg)] > 0.0
      && (KeyFor(leg) in positions ==>
            positions[KeyFor(leg)].Price() == prices[KeyFor(leg)] && positions[KeyFor(leg)].venue == leg.venue)
  }

  ghost function PostLegs(
    positions: map<string, PositionView>, legs: seq<Leg>, notional: real, prices: map<string, real>)
    : (r: map<string, PositionView>)
    requires Marked(positions, legs, prices)
  {
    if legs == [] then positions
    else
      var before, last := legs[..|legs| - 1], legs[|legs| - 1];
      assert forall leg :: leg in before ==> leg in legs;
      PostLeg(PostLegs(positions, before, notional, prices), last, notional, prices[KeyFor(last)])
  }

  // A position is valued at its mark once it has one, and at its entry until then.
  lemma ValuedAtMark(p: PositionView, price: real)
    ensures p.(mark := Some(price)).SignedNotional() == Times(p.quantity, price)
    ensures p.(mark := Some(price)).Notional() == Times(Abs(p.quantity), price)
    ensures p.(mark := None).SignedNotional() == Times(p.quantity, p.entry)
  {
  }

  ghost function NetOf(positions: map<string, PositionView>): (f: real) {
    Total(positions, SignedNotionalOf).amount
  }

  ghost function GrossOf(positions: map<string, PositionView>): (f: real) {
    Total(positions, NotionalOf).amount
  }

  ghost function VenueOf(positions: map<string, PositionView>, venue: string): (f: real) {
    Total(positions, NotionalOn(venue)).amount
  }

  // Cash pays for what is bought and takes in what is sold.
  function CashAfter(cash: real, legs: seq<Leg>, notional: real): (r: real) {
    if legs == [] then cash
    else CashAfter(cash, legs[..|legs| - 1], notional) - legs[|legs| - 1].side.Signed(notional)
  }

  // No leg meets a position on the other side of its own.
  ghost predicate NeverReduces(
    positions: map<string, PositionView>, legs: seq<Leg>, notional: real, prices: map<string, real>)
    requires Marked(positions, legs, prices)
  {
    legs != [] ==>
      var before, last := legs[..|legs| - 1], legs[|legs| - 1];
      Fewer(positions, legs, prices);
      NeverReduces(positions, before, notional, prices)
      && last.side.Signed(HeldBy(PostLegs(positions, before, notional, prices), last)) >= 0.0
  }

  lemma Fewer(positions: map<string, PositionView>, legs: seq<Leg>, prices: map<string, real>)
    requires Marked(positions, legs, prices) && legs != []
    ensures Marked(positions, legs[..|legs| - 1], prices)
    ensures var last := legs[|legs| - 1]; KeyFor(last) in prices && prices[KeyFor(last)] > 0.0
  {
    var before := legs[..|legs| - 1];
    assert forall leg :: leg in before ==> leg in legs;
    assert legs[|legs| - 1] in legs;
  }

  // -- one leg ------------------------------------------------------------------------------

  lemma LegValue(held: real, side: Side, notional: real, price: real)
    requires price > 0.0 && notional > 0.0
    ensures var after := held + side.Signed(notional / price);
      && after * price == held * price + side.Signed(notional)
      && Abs(after) * price <= Abs(held) * price + notional
      && (Abs(after) * price == Abs(held) * price + notional <==> side.Signed(held) >= 0.0)
  {
    var units := notional / price;
    assert units * price == notional && units > 0.0;
    var after := held + side.Signed(units);
    assert after * price == held * price + side.Signed(notional);
    if side.Signed(held) >= 0.0 {
      assert Abs(after) == Abs(held) + units;
    } else {
      Smaller(Abs(after), Abs(held) + units, price);
    }
  }

  lemma Smaller(x: real, y: real, price: real)
    requires x < y && price > 0.0
    ensures x * price < y * price
  {
  }

  // What one leg does to the sums over the positions.
  lemma LegMoves(positions: map<string, PositionView>, leg: Leg, notional: real, price: real)
    requires price > 0.0 && notional > 0.0
    requires KeyFor(leg) in positions ==> positions[KeyFor(leg)].Price() == price && positions[KeyFor(leg)].venue == leg.venue
    ensures var r := PostLeg(positions, leg, notional, price);
      && NetOf(r) == NetOf(positions) + leg.side.Signed(notional)
      && GrossOf(r) <= GrossOf(positions) + notional
      && (GrossOf(r) == GrossOf(positions) + notional <==> leg.side.Signed(HeldBy(positions, leg)) >= 0.0)
      && VenueOf(r, leg.venue) <= VenueOf(positions, leg.venue) + notional
      && (forall v :: v != leg.venue ==> VenueOf(r, v) == VenueOf(positions, v))
  {
    LegView(positions, leg, notional, price);
    hide *;
    var key, r := KeyFor(leg), PostLeg(positions, leg, notional, price);
    SumsMove(positions, key, r[key], leg.venue);
  }

  // Replacing one position moves the sums by that position, and the sums of
  // other venues not at all.
  lemma SumsMove(positions: map<string, PositionView>, key: string, view: PositionView, venue: string)
    requires view.venue == venue && (key in positions ==> positions[key].venue == venue)
    ensures var r := positions[key := view];
      var signed := if key in positions then positions[key].SignedNotional() else 0.0;
      var unsigned := if key in positions then positions[key].Notional() else 0.0;
      && NetOf(r) == NetOf(positions) + view.SignedNotional() - signed
      && GrossOf(r) == GrossOf(positions) + view.Notional() - unsigned
      && VenueOf(r, venue) == VenueOf(positions, venue) + view.Notional() - unsigned
      && (forall v :: v != venue ==> VenueOf(r, v) == VenueOf(positions, v))
  {
    hide Total, PositionView.Notional, PositionView.SignedNotional;
    TotalUpdate(positions, SignedNotionalOf, key, view);
    TotalUpdate(positions, NotionalOf, key, view);
    TotalUpdate(positions, NotionalOn(venue), key, view);
    forall v | v != venue ensures VenueOf(positions[key := view], v) == VenueOf(positions, v) {
      TotalUpdate(positions, NotionalOn(v), key, view);
    }
  }

  // The position a leg leaves, in terms of what was there.
  lemma LegView(positions: map<string, PositionView>, leg: Leg, notional: real, price: real)
    requires price > 0.0 && notional > 0.0
    requires KeyFor(leg) in positions ==> positions[KeyFor(leg)].Price() == price
    ensures var key, r := KeyFor(leg), PostLeg(positions, leg, notional, price);
      var signed := if key in positions then positions[key].SignedNotional() else 0.0;
      var unsigned := if key in positions then positions[key].Notional() else 0.0;
      && key in r && r == positions[key := r[key]] && r[key].venue == leg.venue
      && r[key].SignedNotional() == signed + leg.side.Signed(notional)
      && r[key].Notional() <= unsigned + notional
      && (r[key].Notional() == unsigned + notional <==> leg.side.Signed(HeldBy(positions, leg)) >= 0.0)
  {
    LegValue(HeldBy(positions, leg), leg.side, notional, price);
  }

  // Legs posted so far leave the rest of the positions, and their own marks, in place.
  lemma {:induction false} StillMarked(
    positions: map<string, PositionView>, legs: seq<Leg>, notional: real, prices: map<string, real>, leg: Leg)
    requires Marked(positions, legs, prices) && Marked(positions, [leg], prices)
    requires forall other :: other in legs && KeyFor(other) == KeyFor(leg) ==> other.venue == leg.venue
    ensures var r := PostLegs(positions, legs, notional, prices);
      KeyFor(leg) in r ==> r[KeyFor(leg)].Price() == prices[KeyFor(leg)] && r[KeyFor(leg)].venue == leg.venue
  {
    assert leg in [leg];
    if legs != [] {
      Fewer(positions, legs, prices);
      StillMarked(positions, legs[..|legs| - 1], notional, prices, leg);
      assert legs[|legs| - 1] in legs;
    }
  }

  // -- the whole trade ------------------------------------------------------------------------

  // After the trade, net exposure has moved by the signed legs, equity not at
  // all, and gross by at most the legs together: by exactly that when no leg
  // reduces what is held.
  lemma {:induction false} TradeMoves(
    p: Portfolio, legs: seq<Leg>, notional: real, prices: map<string, real>)
    requires Marked(p.positions, legs, prices) && notional > 0.0
    ensures var r := PostLegs(p.positions, legs, notional, prices);
      && NetOf(r) == NetOf(p.positions) + NetDelta(legs, notional)
      && CashAfter(p.cash, legs, notional) + NetOf(r) == p.cash + NetOf(p.positions)
      && GrossOf(r) <= GrossOf(p.positions) + Times(notional, |legs| as real)
      && (GrossOf(r) == GrossOf(p.positions) + Times(notional, |legs| as real) <==>
            NeverReduces(p.positions, legs, notional, prices))
  {
    hide NetOf, GrossOf, VenueOf, PostLeg;
    if legs == [] {
      assert Times(notional, 0.0) == 0.0;
    } else {
      var before, last := legs[..|legs| - 1], legs[|legs| - 1];
      Fewer(p.positions, legs, prices);
      TradeMoves(p, before, notional, prices);
      assert last in legs;
      LastStillMarked(p.positions, legs, notional, prices);
      LegMoves(PostLegs(p.positions, before, notional, prices), last, notional, prices[KeyFor(last)]);
      OneMoreLeg(notional, |before|);
    }
  }

  lemma OneMoreLeg(notional: real, n: nat)
    ensures Times(notional, (n + 1) as real) == Times(notional, n as real) + notional
  {
  }

  lemma LastStillMarked(positions: map<string, PositionView>, legs: seq<Leg>, notional: real, prices: map<string, real>)
    requires Marked(positions, legs, prices) && legs != []
    ensures Marked(positions, legs[..|legs| - 1], prices)
    ensures var last, r := legs[|legs| - 1], PostLegs(positions, legs[..|legs| - 1], notional, prices);
      KeyFor(last) in r ==> r[KeyFor(last)].Price() == prices[KeyFor(last)] && r[KeyFor(last)].venue == last.venue
  {
    hide PostLegs;
    var before, last := legs[..|legs| - 1], legs[|legs| - 1];
    Fewer(positions, legs, prices);
    assert last in legs && forall leg :: leg in before ==> leg in legs;
    StillMarked(positions, before, notional, prices, last);
  }

  predicate DistinctVenues(legs: seq<Leg>) {
    forall i, j :: 0 <= i < j < |legs| ==> legs[i].venue != legs[j].venue
  }

  // With one leg to a venue, no venue's exposure grows by more than one leg.
  lemma {:induction false} VenuesMove(
    positions: map<string, PositionView>, legs: seq<Leg>, notional: real, prices: map<string, real>, venue: string)
    requires Marked(positions, legs, prices) && notional > 0.0 && DistinctVenues(legs)
    ensures VenueOf(PostLegs(positions, legs, notional, prices), venue) <=
      VenueOf(positions, venue) + if exists leg :: leg in legs && leg.venue == venue then notional else 0.0
  {
    hide NetOf, GrossOf, VenueOf, PostLeg;
    if legs != [] {
      var before, last := legs[..|legs| - 1], legs[|legs| - 1];
      Fewer(positions, legs, prices);
      VenuesMove(positions, before, notional, prices, venue);
      LastStillMarked(positions, legs, notional, prices);
      LegMoves(PostLegs(positions, before, notional, prices), last, notional, prices[KeyFor(last)]);
      assert last in legs && forall leg :: leg in before ==> leg in legs && leg.venue != last.venue;
    }
  }

  // -- the gates -------------------------------------------------------------------------------

  lemma {:induction false} WorstMeans(legs: seq<LegFigures>, x: real, limit: real)
    requires limit > 0.0
    ensures WorstVenue(legs, x) <= limit <==> forall k :: 0 <= k < |legs| ==> legs[k].venueExposure + x <= limit
    ensures WorstPosition(legs, x) <= limit <==> forall k :: 0 <= k < |legs| ==> legs[k].positionNotional + x <= limit
  {
    if legs != [] {
      WorstMeans(legs[..|legs| - 1], x, limit);
    }
  }

  // The net-exposure gate passes exactly when the trade leaves the net exposure
  // within its limit, whichever way its legs point.
  lemma NetGateIsExact(
    i: TradeIntent, notional: real, ctx: RiskContext, l: Limits, now: int, prices: map<string, real>)
    requires Marked(ctx.portfolio.positions, i.legs, prices) && notional > 0.0
    ensures Gate(MaxNetExposure, i, notional, ctx, FiguresOf(ctx.portfolio, i.legs), l, now) == PASS <==>
      Abs(NetOf(PostLegs(ctx.portfolio.positions, i.legs, notional, prices))) <= l.maxNetExposure
  {
    TradeMoves(ctx.portfolio, i.legs, notional, prices);
    hide Total, NetDelta, PostLegs, Marked, GrossOf, LegFiguresOf;
  }

  // The gross and leverage gates pass only when the trade leaves gross exposure
  // within its limits, and exactly then when no leg reduces what is held.
  lemma GrossGatesAreSafe(
    i: TradeIntent, notional: real, ctx: RiskContext, l: Limits, now: int, prices: map<string, real>)
    requires Marked(ctx.portfolio.positions, i.legs, prices) && notional > 0.0
    ensures var f, after := FiguresOf(ctx.portfolio, i.legs), PostLegs(ctx.portfolio.positions, i.legs, notional, prices);
      var equity := CashAfter(ctx.portfolio.cash, i.legs, notional) + NetOf(after);
      && (Gate(MaxGrossExposure, i, notional, ctx, f, l, now) == PASS ==> GrossOf(after) <= l.maxGrossExposure)
      && (Gate(MaxLeverage, i, notional, ctx, f, l, now) == PASS ==>
            equity > 0.0 && GrossOf(after) / equity <= l.maxLeverage)
      && (NeverReduces(ctx.portfolio.positions, i.legs, notional, prices) ==>
            && (GrossOf(after) <= l.maxGrossExposure ==> Gate(MaxGrossExposure, i, notional, ctx, f, l, now) == PASS)
            && (equity > 0.0 && GrossOf(after) / equity <= l.maxLeverage ==>
                  Gate(MaxLeverage, i, notional, ctx, f, l, now) == PASS))
  {
    TradeMoves(ctx.portfolio, i.legs, notional, prices);
    GrossGatesMean(i, notional, ctx, l, now);
    hide Total, NetDelta, PostLegs, Marked, LegFiguresOf, NetOf, GrossOf, NeverReduces, Times, Gate, FiguresOf;
    var gross := GrossOf(PostLegs(ctx.portfolio.positions, i.legs, notional, prices));
    var equity := ctx.portfolio.cash + NetOf(ctx.portfolio.positions);
    if equity > 0.0 {
      Quotients(gross, GrossOf(ctx.portfolio.positions) + Times(notional, |i.legs| as real), equity);
    }
  }

  lemma Quotients(x: real, y: real, m: real)
    requires m > 0.0 && x <= y
    ensures x / m <= y / m
  {
  }

  lemma GrossGatesMean(i: TradeIntent, notional: real, ctx: RiskContext, l: Limits, now: int)
    ensures var f, p := FiguresOf(ctx.portfolio, i.legs), ctx.portfolio;
      var gross, equity := GrossOf(p.positions) + Times(notional, |i.legs| as real), p.cash + NetOf(p.positions);
      && (Gate(MaxGrossExposure, i, notional, ctx, f, l, now) == PASS <==> gross <= l.maxGrossExposure)
      && (Gate(MaxLeverage, i, notional, ctx, f, l, now) == PASS <==> equity > 0.0 && gross / equity <= l.maxLeverage)
  {
    hide Total, LegFiguresOf;
  }

  // The venue gate, with one leg to a venue, passes only when the trade leaves
  // every venue it touches within the limit.
  lemma VenueGateIsSafe(
    i: TradeIntent, notional: real, ctx: RiskContext, l: Limits, now: int, prices: map<string, real>)
    requires Marked(ctx.portfolio.positions, i.legs, prices) && notional > 0.0 && DistinctVenues(i.legs)
    requires Gate(MaxVenueExposure, i, notional, ctx, FiguresOf(ctx.portfolio, i.legs), l, now) == PASS
    ensures forall leg :: leg in i.legs ==>
      VenueOf(PostLegs(ctx.portfolio.positions, i.legs, notional, prices), leg.venue) <= l.maxVenueExposure
  {
    forall leg | leg in i.legs
      ensures VenueOf(PostLegs(ctx.portfolio.positions, i.legs, notional, prices), leg.venue) <= l.maxVenueExposure
    {
      VenueGateMeans(i, notional, ctx, l, now, leg);
      hide *;
      VenuesMove(ctx.portfolio.positions, i.legs, notional, prices, leg.venue);
    }
  }

  lemma VenueGateMeans(i: TradeIntent, notional: real, ctx: RiskContext, l: Limits, now: int, leg: Leg)
    requires Gate(MaxVenueExposure, i, notional, ctx, FiguresOf(ctx.portfolio, i.legs), l, now) == PASS && leg in i.legs
    ensures VenueOf(ctx.portfolio.positions, leg.venue) + notional <= l.maxVenueExposure
  {
    var f := FiguresOf(ctx.portfolio, i.legs);
    WorstMeans(f.legs, notional, l.maxVenueExposure);
    hide Total, WorstVenue;
    var k :| 0 <= k < |i.legs| && i.legs[k] == leg;
    assert f.legs[k] == LegFiguresOf(ctx.portfolio, leg);
  }

  // No two legs trade the same symbol on the same venue.
  predicate DistinctKeys(legs: seq<Leg>) {
    forall i, j :: 0 <= i < j < |legs| ==> KeyFor(legs[i]) != KeyFor(legs[j])
  }

  // What is held where the leg trades, whichever way.
  function PositionOf(positions: map<string, PositionView>, leg: Leg): (f: real) {
    if KeyFor(leg) in positions then positions[KeyFor(leg)].Notional() else 0.0
  }

  lemma {:induction false} LeftAlone(
    positions: map<string, PositionView>, legs: seq<Leg>, notional: real, prices: map<string, real>, key: string)
    requires Marked(positions, legs, prices) && forall leg :: leg in legs ==> KeyFor(leg) != key
    ensures var r := PostLegs(positions, legs, notional, prices);
      (key in r <==> key in positions) && (key in r ==> r[key] == positions[key])
  {
    if legs != [] {
      Fewer(positions, legs, prices);
      LeftAlone(positions, legs[..|legs| - 1], notional, prices, key);
      assert legs[|legs| - 1] in legs;
    }
  }

  // With one leg to a position, no position grows by more than the notional, and
  // it grows by exactly that when the leg adds to it.
  lemma {:induction false} PositionsMove(
    positions: map<string, PositionView>, legs: seq<Leg>, notional: real, prices: map<string, real>, k: nat)
    requires Marked(positions, legs, prices) && notional > 0.0 && DistinctKeys(legs) && k < |legs|
    ensures var posted := PostLegs(positions, legs, notional, prices);
      var before, after := PositionOf(positions, legs[k]), PositionOf(posted, legs[k]);
      after <= before + notional && (after == before + notional <==> legs[k].side.Signed(HeldBy(positions, legs[k])) >= 0.0)
  {
    hide KeyFor;
    Fewer(positions, legs, prices);
    var early, last := legs[..|legs| - 1], legs[|legs| - 1];
    if k < |legs| - 1 {
      PositionsMove(positions, early, notional, prices, k);
    } else {
      LeftAlone(positions, early, notional, prices, KeyFor(last));
      assert last in legs;
      OnePositionMoves(positions, PostLegs(positions, early, notional, prices), last, notional, prices[KeyFor(last)]);
    }
  }

  lemma OnePositionMoves(
    positions: map<string, PositionView>, now: map<string, PositionView>, leg: Leg, notional: real, price: real)
    requires price > 0.0 && notional > 0.0
    requires KeyFor(leg) in positions ==> positions[KeyFor(leg)].Price() == price
    requires KeyFor(leg) in now <==> KeyFor(leg) in positions
    requires KeyFor(leg) in now ==> now[KeyFor(leg)] == positions[KeyFor(leg)]
    ensures var before, after := PositionOf(positions, leg), PositionOf(PostLeg(now, leg, notional, price), leg);
      after <= before + notional && (after == before + notional <==> leg.side.Signed(HeldBy(positions, leg)) >= 0.0)
  {
    hide KeyFor;
    LegValue(HeldBy(positions, leg), leg.side, notional, price);
  }

  // The position gate, with one leg to a position, passes only when the trade
  // leaves every position it touches within the limit, and exactly then when
  // every leg adds to what is held.
  lemma PositionGateIsSafe(
    i: TradeIntent, notional: real, ctx: RiskContext, l: Limits, now: int, prices: map<string, real>)
    requires Marked(ctx.portfolio.positions, i.legs, prices) && notional > 0.0 && DistinctKeys(i.legs)
    ensures var p, after := ctx.portfolio.positions, PostLegs(ctx.portfolio.positions, i.legs, notional, prices);
      var passes := Gate(MaxPositionNotional, i, notional, ctx, FiguresOf(ctx.portfolio, i.legs), l, now) == PASS;
      var within := forall leg :: leg in i.legs ==> PositionOf(after, leg) <= l.maxPositionNotional;
      && (passes ==> within)
      && ((forall leg :: leg in i.legs ==> leg.side.Signed(HeldBy(p, leg)) >= 0.0) ==> (passes <==> within))
  {
    hide Gate, FiguresOf, PositionOf, HeldBy, PostLegs, Marked;
    PositionGateMeans(i, notional, ctx, l, now);
    forall k | 0 <= k < |i.legs|
      ensures var before, after := PositionOf(ctx.portfolio.positions, i.legs[k]),
          PositionOf(PostLegs(ctx.portfolio.positions, i.legs, notional, prices), i.legs[k]);
        after <= before + notional
        && (after == before + notional <==> i.legs[k].side.Signed(HeldBy(ctx.portfolio.positions, i.legs[k])) >= 0.0)
    {
      PositionsMove(ctx.portfolio.positions, i.legs, notional, prices, k);
    }
  }

  lemma PositionGateMeans(i: TradeIntent, notional: real, ctx: RiskContext, l: Limits, now: int)
    ensures Gate(MaxPositionNotional, i, notional, ctx, FiguresOf(ctx.portfolio, i.legs), l, now) == PASS <==>
      forall leg :: leg in i.legs ==> PositionOf(ctx.portfolio.positions, leg) + notional <= l.maxPositionNotional
  {
    var f := FiguresOf(ctx.portfolio, i.legs);
    WorstMeans(f.legs, notional, l.maxPositionNotional);
    hide Total, WorstPosition;
    forall k | 0 <= k < |i.legs| ensures f.legs[k].positionNotional == PositionOf(ctx.portfolio.positions, i.legs[k]) {
      assert f.legs[k] == LegFiguresOf(ctx.portfolio, i.legs[k]);
    }
    forall leg | leg in i.legs ensures exists k :: 0 <= k < |i.legs| && i.legs[k] == leg {
    }
  }

  // -- what an approval promises ---------------------------------------------------------------------

  // The size RUNE settles on.
  ghost function SettledOn(i: TradeIntent, ctx: RiskContext, l: Limits): (notional: real) {
    Sized(i, Max(0.0, Room(i, ctx, FiguresOf(ctx.portfolio, i.legs), l)))
  }

  lemma SettledIsPositive(i: TradeIntent, ctx: RiskContext, l: Limits, now: int)
    requires Approves(i, ctx, l, now)
    ensures SettledOn(i, ctx, l) > 0.0
  {
    hide Gate, GATES, FiguresOf, LegRoom;
    RoomWithin(i, ctx, FiguresOf(ctx.portfolio, i.legs), l);
  }

  lemma RoomWithin(i: TradeIntent, ctx: RiskContext, f: Figures, l: Limits)
    ensures Room(i, ctx, f, l) <= i.notional
  {
    var n := if |i.legs| == 0 then 1.0 else |i.legs| as real;
    var gross, strategy := (l.maxGrossExposure - f.gross) / n, (l.maxStrategyExposure - ctx.strategyExposure) / n;
    LegRoomWithin(f.legs, l, Min(Min(i.notional, l.maxOrderNotional), Min(gross, strategy)));
    hide LegRoom;
  }

  lemma {:induction false} LegRoomWithin(legs: seq<LegFigures>, l: Limits, cap: real)
    ensures LegRoom(legs, l, cap) <= cap
  {
    if legs != [] {
      LegRoomWithin(legs[..|legs| - 1], l, cap);
    }
  }

  lemma ApprovedPasses(i: TradeIntent, ctx: RiskContext, l: Limits, now: int, g: GateName)
    requires Approves(i, ctx, l, now) && g in GATES
    ensures Gate(g, i, SettledOn(i, ctx, l), ctx, FiguresOf(ctx.portfolio, i.legs), l, now) == PASS
  {
    hide Gate, GATES, FiguresOf, Room;
  }

  lemma ExposureGates()
    ensures MaxNetExposure in GATES && MaxGrossExposure in GATES && MaxLeverage in GATES && MaxVenueExposure in GATES
  {
    assert GATES[11] == MaxGrossExposure && GATES[12] == MaxNetExposure && GATES[13] == MaxLeverage;
    assert GATES[14] == MaxVenueExposure;
  }

  // A trade RUNE approves leaves the portfolio it is posted to within its net,
  // gross, leverage and, with one leg to a venue, venue limits.
  lemma ApprovedTradeFits(i: TradeIntent, ctx: RiskContext, l: Limits, now: int, prices: map<string, real>)
    requires Approves(i, ctx, l, now) && Marked(ctx.portfolio.positions, i.legs, prices)
    ensures var notional := SettledOn(i, ctx, l);
      var after := PostLegs(ctx.portfolio.positions, i.legs, notional, prices);
      var equity := CashAfter(ctx.portfolio.cash, i.legs, notional) + NetOf(after);
      && Abs(NetOf(after)) <= l.maxNetExposure
      && GrossOf(after) <= l.maxGrossExposure
      && equity > 0.0 && GrossOf(after) / equity <= l.maxLeverage
      && (DistinctVenues(i.legs) ==> forall leg :: leg in i.legs ==> VenueOf(after, leg.venue) <= l.maxVenueExposure)
  {
    hide Approves, SettledOn, Gate, GATES, FiguresOf, PostLegs, Marked;
    hide NetOf, GrossOf, VenueOf, CashAfter, DistinctVenues, NeverReduces;
    var notional := SettledOn(i, ctx, l);
    SettledIsPositive(i, ctx, l, now);
    ExposureGates();
    ApprovedPasses(i, ctx, l, now, MaxNetExposure);
    ApprovedPasses(i, ctx, l, now, MaxGrossExposure);
    ApprovedPasses(i, ctx, l, now, MaxLeverage);
    ApprovedPasses(i, ctx, l, now, MaxVenueExposure);
    NetGateIsExact(i, notional, ctx, l, now, prices);
    GrossGatesAreSafe(i, notional, ctx, l, now, prices);
    if DistinctVenues(i.legs) {
      VenueGateIsSafe(i, notional, ctx, l, now, prices);
    }
  }

  // What must hold besides exposure: the platform may trade, what it knows is
  // recent, the trade is wanted and worth it, and no loss or error limit is met.
  predicate MayTrade(i: TradeIntent, ctx: RiskContext, l: Limits, now: int) {
    && ctx.tradingAllowed
    && ctx.health.Some? && ctx.health.value.requiredOk && ctx.health.value.veskaHealthy == Some(true)
    && ctx.consensusComplete && i.consensusAgreement >= ctx.consensusThreshold
    && i.sourceDataTimestamp.Some? && now <= i.sourceDataTimestamp.value + l.maxDataAgeMs && now <= i.deadlineMs
    && i.expectedNetEdgeBps >= l.minExpectedEdgeBps && ctx.hedgeAvailable
    && -l.maxUnhedgedNotional <= ctx.unhedgedNotional <= l.maxUnhedgedNotional
    && ctx.openOrders < l.maxOpenOrders && ctx.errorRate <= l.maxErrorRate
  }

  // Neither the day's losses nor the fall from the peak have reached their limits.
  ghost predicate WithinLosses(ctx: RiskContext, l: Limits) {
    && 0.0 < l.maxDailyLoss && ctx.portfolio.dayRealizedPnl > -l.maxDailyLoss
    && 0.0 < l.maxDrawdown
    && ctx.portfolio.cash + NetOf(ctx.portfolio.positions) > ctx.portfolio.peakEquity - l.maxDrawdown
  }

  // RUNE approves exactly a trade of enough room that may be made, within the
  // loss limits, whose settled size passes the size limits and leaves net
  // exposure and leverage within theirs, every leg counted as an addition.
  lemma ApprovalMeans(i: TradeIntent, ctx: RiskContext, l: Limits, now: int, prices: map<string, real>)
    requires Marked(ctx.portfolio.positions, i.legs, prices) && i.notional > 0.0
    ensures var p, f := ctx.portfolio, FiguresOf(ctx.portfolio, i.legs);
      var notional := SettledOn(i, ctx, l);
      Approves(i, ctx, l, now) <==>
        && Room(i, ctx, f, l) >= l.minTradeNotional
        && MayTrade(i, ctx, l, now) && WithinLosses(ctx, l) && SizeGatesPass(i, notional, ctx, f, l)
        && Abs(NetOf(PostLegs(p.positions, i.legs, notional, prices))) <= l.maxNetExposure
        && p.cash + NetOf(p.positions) > 0.0
        && (GrossOf(p.positions) + Times(notional, |i.legs| as real)) / (p.cash + NetOf(p.positions)) <= l.maxLeverage
  {
    hide FiguresOf, PostLegs, Marked, NetOf, GrossOf, Room, Gate, GATES, SizeGatesPass, MayTrade, WithinLosses;
    var f, notional := FiguresOf(ctx.portfolio, i.legs), SettledOn(i, ctx, l);
    if Room(i, ctx, f, l) >= l.minTradeNotional {
      SettledOnRoom(i, ctx, f, l);
      NetGateIsExact(i, notional, ctx, l, now, prices);
      GrossGatesMean(i, notional, ctx, l, now);
      EveryGate(i, notional, ctx, f, l, now);
      SizeGatesAnyTime(i, notional, ctx, f, l, now);
      PlainGatesMean(i, notional, ctx, l, now);
    }
  }

  lemma SettledOnRoom(i: TradeIntent, ctx: RiskContext, f: Figures, l: Limits)
    requires i.notional > 0.0 && Room(i, ctx, f, l) > 0.0
    ensures Sized(i, Max(0.0, Room(i, ctx, f, l))) > 0.0
  {
    hide Room;
  }

  ghost predicate Passes(g: GateName, i: TradeIntent, notional: real, ctx: RiskContext, f: Figures, l: Limits, now: int) {
    Gate(g, i, notional, ctx, f, l, now) == PASS
  }

  // A gate that is about something other than exposure.
  predicate IsPlain(g: GateName) {
    g in {KillSwitchClear, SystemHealthy, ExecutionHealthy, Consensus, MarketDataFresh, IntentNotExpired,
          MinExpectedEdge, HedgeAvailable, MaxDailyLoss, MaxDrawdown, MaxUnhedgedExposure, MaxOpenOrders, MaxErrorRate}
  }

  ghost predicate PlainGatesPass(i: TradeIntent, notional: real, ctx: RiskContext, f: Figures, l: Limits, now: int) {
    forall g :: IsPlain(g) ==> Passes(g, i, notional, ctx, f, l, now)
  }

  // The gates are the six of size, net exposure, leverage, and the plain ones.
  lemma EveryGate(i: TradeIntent, notional: real, ctx: RiskContext, f: Figures, l: Limits, now: int)
    ensures (forall g :: g in GATES ==> Gate(g, i, notional, ctx, f, l, now) == PASS) <==>
      && PlainGatesPass(i, notional, ctx, f, l, now)
      && (forall g :: g in SIZE_GATES ==> Passes(g, i, notional, ctx, f, l, now))
      && Gate(MaxNetExposure, i, notional, ctx, f, l, now) == PASS
      && Gate(MaxLeverage, i, notional, ctx, f, l, now) == PASS
  {
    hide Gate, GATES, SIZE_GATES, IsPlain;
    forall g ensures g in GATES <==> IsPlain(g) || g in SIZE_GATES || g == MaxNetExposure || g == MaxLeverage {
      GateKinds(g);
    }
    assert forall g :: Passes(g, i, notional, ctx, f, l, now) <==> Gate(g, i, notional, ctx, f, l, now) == PASS;
  }

  lemma GateKinds(g: GateName)
    ensures g in GATES <==> IsPlain(g) || g in SIZE_GATES || g == MaxNetExposure || g == MaxLeverage
  {
    IsAGate(g);
    hide GATES;
  }

  lemma IsAGate(g: GateName)
    ensures g in GATES <==> g != MinTradeNotional
  {
    assert GATES == [
      KillSwitchClear, SystemHealthy, ExecutionHealthy, Consensus, MarketDataFresh, IntentNotExpired, MinExpectedEdge]
      + [LiquiditySufficient, HedgeAvailable, MaxOrderNotional, MaxPositionNotional, MaxGrossExposure, MaxNetExposure,
         MaxLeverage] + [MaxVenueExposure, MaxStrategyExposure, MaxDailyLoss, MaxDrawdown, MaxUnhedgedExposure,
                         MaxOpenOrders, MaxErrorRate];
  }

  lemma SizeGatesAnyTime(i: TradeIntent, notional: real, ctx: RiskContext, f: Figures, l: Limits, now: int)
    ensures SizeGatesPass(i, notional, ctx, f, l) <==> forall g :: g in SIZE_GATES ==> Passes(g, i, notional, ctx, f, l, now)
  {
    forall g | g in SIZE_GATES ensures Gate(g, i, notional, ctx, f, l, 0) == Gate(g, i, notional, ctx, f, l, now) {
      hide WorstPosition, WorstVenue;
    }
    hide Gate, SIZE_GATES;
  }

  lemma PlainGatesMean(i: TradeIntent, notional: real, ctx: RiskContext, l: Limits, now: int)
    ensures PlainGatesPass(i, notional, ctx, FiguresOf(ctx.portfolio, i.legs), l, now) <==>
      MayTrade(i, ctx, l, now) && WithinLosses(ctx, l)
  {
    EquityIs(ctx.portfolio, i.legs);
    PlainGatesListed(i, notional, ctx, FiguresOf(ctx.portfolio, i.legs), l, now);
    hide FiguresOf, NetOf, PlainGatesPass;
  }

  lemma PlainGatesListed(i: TradeIntent, notional: real, ctx: RiskContext, f: Figures, l: Limits, now: int)
    ensures PlainGatesPass(i, notional, ctx, f, l, now) <==>
      && Passes(KillSwitchClear, i, notional, ctx, f, l, now) && Passes(SystemHealthy, i, notional, ctx, f, l, now)
      && Passes(ExecutionHealthy, i, notional, ctx, f, l, now) && Passes(Consensus, i, notional, ctx, f, l, now)
      && Passes(MarketDataFresh, i, notional, ctx, f, l, now) && Passes(IntentNotExpired, i, notional, ctx, f, l, now)
      && Passes(MinExpectedEdge, i, notional, ctx, f, l, now) && Passes(HedgeAvailable, i, notional, ctx, f, l, now)
      && Passes(MaxDailyLoss, i, notional, ctx, f, l, now) && Passes(MaxDrawdown, i, notional, ctx, f, l, now)
      && Passes(MaxUnhedgedExposure, i, notional, ctx, f, l, now) && Passes(MaxOpenOrders, i, notional, ctx, f, l, now)
      && Passes(MaxErrorRate, i, notional, ctx, f, l, now)
  {
    hide Passes;
  }

  lemma EquityIs(p: Portfolio, legs: seq<Leg>)
    ensures FiguresOf(p, legs).equity == p.cash + NetOf(p.positions)
  {
  }

  // A trade that would sell out of all that is held is blocked by the gross
  // gate, which adds its notional to what it takes away.
  lemma ClosingTradeIsBlocked(i: TradeIntent, ctx: RiskContext, l: Limits, now: int)
    requires i.legs == [Leg("V", "S", Sell)] && l.maxGrossExposure == 1500.0
    requires ctx.portfolio.positions == map[KeyOf("V", "S") := PositionView("V", 10.0, 100.0, None)]
    ensures var prices := map[KeyOf("V", "S") := 100.0];
      && Marked(ctx.portfolio.positions, i.legs, prices)
      && GrossOf(PostLegs(ctx.portfolio.positions, i.legs, 1000.0, prices)) == 0.0
      && Gate(MaxGrossExposure, i, 1000.0, ctx, FiguresOf(ctx.portfolio, i.legs), l, now) == FAIL
  {
    var p, leg := ctx.portfolio.positions, i.legs[0];
    assert i.legs[..0] == [];
    var after := PostLeg(p, leg, 1000.0, 100.0);
    assert after[KeyFor(leg)] == PositionView("V", 0.0, 100.0, Some(100.0));
    OnlyPosition(KeyFor(leg), p[KeyFor(leg)]);
    OnlyPosition(KeyFor(leg), after[KeyFor(leg)]);
    assert after == map[KeyFor(leg) := after[KeyFor(leg)]];
    hide Total;
  }

  lemma OnlyPosition(key: string, view: PositionView)
    ensures GrossOf(map[key := view]) == view.Notional()
  {
    hide PositionView.Notional;
    var none: map<string, PositionView> := map[];
    assert GrossOf(none) == 0.0;
    hide Total;
    TotalUpdate(none, NotionalOf, key, view);
  }

  // Two legs to one venue pass a limit each of them fits under, and leave the
  // venue over it.
  lemma TwoLegsOnOneVenue(i: TradeIntent, ctx: RiskContext, l: Limits, now: int)
    requires i.legs == [Leg("V", "S", Buy), Leg("V", "T", Sell)] && l.maxVenueExposure == 1500.0
    requires ctx.portfolio.positions == map[]
    ensures var prices := map[KeyOf("V", "S") := 100.0, KeyOf("V", "T") := 100.0];
      && Marked(ctx.portfolio.positions, i.legs, prices)
      && Gate(MaxVenueExposure, i, 1000.0, ctx, FiguresOf(ctx.portfolio, i.legs), l, now) == PASS
      && VenueOf(PostLegs(ctx.portfolio.positions, i.legs, 1000.0, prices), "V") == 2000.0
  {
    var a, b := i.legs[0], i.legs[1];
    var prices := map[KeyOf("V", "S") := 100.0, KeyOf("V", "T") := 100.0];
    KeysDiffer(a, b);
    assert i.legs == [a, b];
    TwoLegsPosted(a, b, 1000.0, prices);
    EmptyFigures(ctx.portfolio, a, b);
    WorstMeans([LegFigures(0.0, 0.0), LegFigures(0.0, 0.0)], 1000.0, 1500.0);
    hide Total, VenueOf, FiguresOf, PostLegs;
  }

  lemma TwoLegsPosted(a: Leg, b: Leg, notional: real, prices: map<string, real>)
    requires a.venue == b.venue && KeyFor(a) != KeyFor(b) && notional > 0.0
    requires {KeyFor(a), KeyFor(b)} <= prices.Keys && prices[KeyFor(a)] > 0.0 && prices[KeyFor(b)] > 0.0
    ensures Marked(map[], [a, b], prices)
    ensures VenueOf(PostLegs(map[], [a, b], notional, prices), a.venue) == notional + notional
  {
    var none: map<string, PositionView> := map[];
    assert [a, b][..1] == [a] && [a][..0] == [];
    var one := PostLeg(none, a, notional, prices[KeyFor(a)]);
    assert PostLegs(none, [], notional, prices) == none && PostLegs(none, [a], notional, prices) == one;
    assert PostLegs(none, [a, b], notional, prices) == PostLeg(one, b, notional, prices[KeyFor(b)]);
    NothingThere(a.venue);
    hide Total, VenueOf;
    VenueAdds(none, a, notional, prices[KeyFor(a)]);
    VenueAdds(one, b, notional, prices[KeyFor(b)]);
  }

  lemma NothingThere(venue: string)
    ensures VenueOf(map[], venue) == 0.0
  {
  }

  lemma VenueAdds(positions: map<string, PositionView>, leg: Leg, notional: real, price: real)
    requires price > 0.0 && notional > 0.0 && KeyFor(leg) !in positions
    ensures VenueOf(PostLeg(positions, leg, notional, price), leg.venue) == VenueOf(positions, leg.venue) + notional
  {
    LegView(positions, leg, notional, price);
    assert leg.side.Signed(HeldBy(positions, leg)) >= 0.0;
    hide PostLeg, VenueOf, NetOf, GrossOf, PositionView.Notional, PositionView.SignedNotional;
    var key, r := KeyFor(leg), PostLeg(positions, leg, notional, price);
    SumsMove(positions, key, r[key], leg.venue);
  }

  lemma KeysDiffer(a: Leg, b: Leg)
    requires a.venue == b.venue && a.symbol != b.symbol
    ensures KeyFor(a) != KeyFor(b)
  {
    assert |KeyFor(a)| == |a.venue| + 1 + |a.symbol| && |KeyFor(b)| == |a.venue| + 1 + |b.symbol|;
    if |a.symbol| == |b.symbol| {
      var k :| 0 <= k < |a.symbol| && a.symbol[k] != b.symbol[k];
      assert KeyFor(a)[|a.venue| + 1 + k] != KeyFor(b)[|a.venue| + 1 + k];
    }
  }
}
