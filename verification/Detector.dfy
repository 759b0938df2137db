// Cross-venue dislocation detection at the touch.
module Detector {
  import opened Common

  datatype VenueTouch = VenueTouch(venue: string, usable: bool, bestBid: Option<real>, bestAsk: Option<real>) {
    predicate Quotes() {
      usable && bestBid.Some? && bestAsk.Some?
    }
  }

  // A venue whose touch is known and usable.
  type Quote = t: VenueTouch | t.Quotes() witness VenueTouch("", true, Some(0.0), Some(0.0))

  datatype Dislocation = Dislocation(
    buyVenue: string, sellVenue: string, buyPrice: real, sellPrice: real, reference: real, grossEdgeBps: real)
  {
    // The price difference the edge stands for.
    function Gap(): (r: real) {
      grossEdgeBps * reference / 10000.0
    }
  }

  function Usable(touches: seq<VenueTouch>): (r: seq<Quote>)
    ensures forall q :: q in r <==> q in touches && q.Quotes()
  {
    if touches == [] then []
    else
      var before, last := Usable(touches[..|touches| - 1]), touches[|touches| - 1];
      assert touches == touches[..|touches| - 1] + [last];
      if last.Quotes() then before + [last] else before
  }

  // The first of the cheapest asks, and the first of the richest bids.
  function CheapestAsk(quotes: seq<Quote>): (q: Quote)
    requires quotes != []
  {
    var last := quotes[|quotes| - 1];
    if |quotes| == 1 then last
    else
      var before := CheapestAsk(quotes[..|quotes| - 1]);
      if last.bestAsk.value < before.bestAsk.value then last else before
  }

  function RichestBid(quotes: seq<Quote>): (q: Quote)
    requires quotes != []
  {
    var last := quotes[|quotes| - 1];
    if |quotes| == 1 then last
    else
      var before := RichestBid(quotes[..|quotes| - 1]);
      if last.bestBid.value > before.bestBid.value then last else before
  }

  // The pair's price difference in bps of the reference; a missing or zero
  // reference is replaced by the pair's middle.
  function Priced(buy: Quote, sell: Quote, reference: Option<real>): (r: Option<Dislocation>) {
    var base := if reference.Some? && reference.value != 0.0 then reference.value
      else (buy.bestAsk.value + sell.bestBid.value) / 2.0;
    if base == 0.0 then None
    else Some(Dislocation(buy.venue, sell.venue, buy.bestAsk.value, sell.bestBid.value, base,
                          (sell.bestBid.value - buy.bestAsk.value) / base * 10000.0))
  }

  function Found(touches: seq<VenueTouch>, reference: Option<real>): (r: Option<Dislocation>) {
    var quotes := Usable(touches);
    if |quotes| < 2 then None
    else
      var buy, sell := CheapestAsk(quotes), RichestBid(quotes);
      if buy.venue == sell.venue then None else Priced(buy, sell, reference)
  }

  method FindDislocation(touches: seq<VenueTouch>, reference: Option<real>) returns (r: Option<Dislocation>)
    ensures r == Found(touches, reference)
  {
    var quotes := Usable(touches);
    if |quotes| < 2 {
      return None;
    }
    var buy, sell := quotes[0], quotes[0];
    for i := 1 to |quotes|
      invariant buy == CheapestAsk(quotes[..i]) && sell == RichestBid(quotes[..i])
    {
      assert quotes[..i + 1][..i] == quotes[..i];
      if quotes[i].bestAsk.value < buy.bestAsk.value {
        buy := quotes[i];
      }
      if quotes[i].bestBid.value > sell.bestBid.value {
        sell := quotes[i];
      }
    }
    assert quotes[..|quotes|] == quotes;
    if buy.venue == sell.venue {
      return None;
    }
    r := Priced(buy, sell, reference);
  }

  lemma {:induction false} TouchesAreBest(quotes: seq<Quote>, q: Quote)
    requires quotes != [] && q in quotes
    ensures CheapestAsk(quotes) in quotes && RichestBid(quotes) in quotes
    ensures CheapestAsk(quotes).bestAsk.value <= q.bestAsk.value && q.bestBid.value <= RichestBid(quotes).bestBid.value
  {
    var before, last := quotes[..|quotes| - 1], quotes[|quotes| - 1];
    assert quotes == before + [last];
    if |quotes| > 1 {
      TouchesAreBest(before, if q in before then q else before[0]);
    }
  }

  // The edge is the price difference in bps of the reference given, and of the
  // middle of the two prices when none is.
  lemma EdgeIsPriced(touches: seq<VenueTouch>, reference: Option<real>)
    requires Found(touches, reference).Some?
    ensures var d, given := Found(touches, reference).value, reference.Some? && reference.value != 0.0;
      && (given ==> Times(d.grossEdgeBps, reference.value) == 10000.0 * (d.sellPrice - d.buyPrice))
      && (!given ==> Times(d.grossEdgeBps, d.buyPrice + d.sellPrice) == 20000.0 * (d.sellPrice - d.buyPrice))
  {
    hide Usable, CheapestAsk, RichestBid;
    var quotes := Usable(touches);
    var buy, sell := CheapestAsk(quotes).bestAsk.value, RichestBid(quotes).bestBid.value;
    PartOf(sell - buy, if reference.Some? && reference.value != 0.0 then reference.value else (buy + sell) / 2.0);
  }

  lemma PartOf(x: real, m: real)
    ensures m != 0.0 ==> Times(x / m * 10000.0, m) == 10000.0 * x
  {
  }

  // A dislocation is between usable venues that quote both sides, at their own
  // prices, and none of those asks less or bids more.
  lemma FoundAtUsableVenues(touches: seq<VenueTouch>, reference: Option<real>)
    requires Found(touches, reference).Some?
    ensures var d := Found(touches, reference).value;
      && (exists b :: b in touches && b.usable && b.bestBid.Some? && b.venue == d.buyVenue && b.bestAsk == Some(d.buyPrice))
      && (exists s :: s in touches && s.usable && s.bestAsk.Some? && s.venue == d.sellVenue && s.bestBid == Some(d.sellPrice))
      && forall t :: t in touches && t.usable && t.bestBid.Some? && t.bestAsk.Some? ==>
           d.buyPrice <= t.bestAsk.value && t.bestBid.value <= d.sellPrice
  {
    hide CheapestAsk, RichestBid, Usable;
    var quotes := Usable(touches);
    TouchesAreBest(quotes, quotes[0]);
    forall t | t in touches && t.usable && t.bestBid.Some? && t.bestAsk.Some?
      ensures CheapestAsk(quotes).bestAsk.value <= t.bestAsk.value && t.bestBid.value <= RichestBid(quotes).bestBid.value
    {
      TouchesAreBest(quotes, t);
    }
  }

  // No book is crossed on its own, prices are positive, and venues are named once.
  ghost predicate Orderly(quotes: seq<Quote>) {
    && (forall q :: q in quotes ==> 0.0 < q.bestBid.value < q.bestAsk.value)
    && (forall a, b :: a in quotes && b in quotes && a.venue == b.venue ==> a == b)
  }

  // Some pair of usable touches can be bought below where it can be sold.
  ghost predicate Profitable(touches: seq<VenueTouch>) {
    exists b: Quote, s: Quote :: b in touches && s in touches && b.bestAsk.value < s.bestBid.value
  }

  // Among orderly venues a dislocation with a positive edge is found exactly
  // when there is a profitable pair.
  lemma FoundExactlyWhenProfitable(touches: seq<VenueTouch>, reference: Option<real>)
    requires Orderly(Usable(touches)) && (reference.Some? ==> reference.value >= 0.0)
    ensures Found(touches, reference).Some? && Found(touches, reference).value.grossEdgeBps > 0.0 <==> Profitable(touches)
  {
    hide Usable, CheapestAsk, RichestBid, Priced;
    if Profitable(touches) {
      var b: Quote, s: Quote :| b in touches && s in touches && b.bestAsk.value < s.bestBid.value;
      NoDislocationMissed(touches, reference, b, s);
    }
    if Found(touches, reference).Some? && Found(touches, reference).value.grossEdgeBps > 0.0 {
      var quotes := Usable(touches);
      TouchesAreBest(quotes, quotes[0]);
      var b, s := CheapestAsk(quotes), RichestBid(quotes);
      PositiveEdgeMeansGap(b, s, reference);
      assert b in touches && s in touches;
    }
  }

  lemma PositiveEdgeMeansGap(buy: Quote, sell: Quote, reference: Option<real>)
    requires Priced(buy, sell, reference).Some? && Priced(buy, sell, reference).value.grossEdgeBps > 0.0
    requires buy.bestAsk.value > 0.0 && sell.bestBid.value > 0.0 && (reference.Some? ==> reference.value >= 0.0)
    ensures buy.bestAsk.value < sell.bestBid.value
  {
    var d := Priced(buy, sell, reference).value;
    var x, q := sell.bestBid.value - buy.bestAsk.value, (sell.bestBid.value - buy.bestAsk.value) / d.reference;
    assert q * d.reference == x;
  }

  // What is found is the widest pair there is.
  lemma NoDislocationMissed(touches: seq<VenueTouch>, reference: Option<real>, b: Quote, s: Quote)
    requires Orderly(Usable(touches)) && (reference.Some? ==> reference.value >= 0.0)
    requires b in touches && s in touches && b.bestAsk.value < s.bestBid.value
    ensures Found(touches, reference).Some?
    ensures var d := Found(touches, reference).value;
      && d.buyPrice <= b.bestAsk.value && d.sellPrice >= s.bestBid.value && d.buyVenue != d.sellVenue
      && d.grossEdgeBps > 0.0 && d.Gap() >= s.bestBid.value - b.bestAsk.value
  {
    hide Priced, CheapestAsk, RichestBid, Usable, Dislocation.Gap;
    var quotes := Usable(touches);
    assert b in quotes && s in quotes && b != s;
    TouchesAreBest(quotes, b);
    TouchesAreBest(quotes, s);
    AtLeastTwo(quotes, b, s);
    EdgePositive(CheapestAsk(quotes), RichestBid(quotes), reference);
  }

  lemma AtLeastTwo(quotes: seq<Quote>, a: Quote, b: Quote)
    requires a in quotes && b in quotes && a != b
    ensures |quotes| >= 2
  {
    var i :| 0 <= i < |quotes| && quotes[i] == a;
    var j :| 0 <= j < |quotes| && quotes[j] == b;
    assert i != j;
  }

  lemma EdgePositive(buy: Quote, sell: Quote, reference: Option<real>)
    requires 0.0 < buy.bestAsk.value < sell.bestBid.value && (reference.Some? ==> reference.value >= 0.0)
    ensures Priced(buy, sell, reference).Some?
    ensures var d := Priced(buy, sell, reference).value;
      && d.buyPrice == buy.bestAsk.value && d.sellPrice == sell.bestBid.value
      && d.buyVenue == buy.venue && d.sellVenue == sell.venue && d.reference > 0.0
      && d.grossEdgeBps > 0.0 && d.Gap() == sell.bestBid.value - buy.bestAsk.value
  {
    var d := Priced(buy, sell, reference).value;
    Ratio(sell.bestBid.value - buy.bestAsk.value, d.reference);
  }

  lemma Ratio(x: real, m: real)
    requires m > 0.0
    ensures x / m * 10000.0 * m / 10000.0 == x
    ensures x > 0.0 ==> x / m > 0.0
  {
    var q := x / m;
    assert q * m == x;
    assert q * 10000.0 * m == q * m * 10000.0;
  }
}
