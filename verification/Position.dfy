// PositionState: average-cost accounting of one venue and symbol.
module Positions {
  import opened Common

  // The accounting value of a position. `quantity` is signed.
  datatype Position = Position(quantity: real, entry: real, realized: real, fees: real) {
    predicate IsFlat() {
      Abs(quantity) < FLAT_EPSILON
    }

    // What the open quantity cost.
    function Basis(): (r: real) {
      quantity * entry
    }
  }

  const FLAT_POSITION := Position(0.0, 0.0, 0.0, 0.0)

  // A fill opens or increases when the position is flat or on the fill's side.
  predicate Increases(quantity: real, signed: real) {
    Abs(quantity) < FLAT_EPSILON || ((quantity > 0.0) <==> (signed > 0.0))
  }

  // Average cost of `quantity` bought at `entry` together with `signed` bought at `price`.
  function Blend(quantity: real, entry: real, signed: real, price: real): (r: real)
    requires quantity + signed != 0.0
  {
    (entry * quantity + price * signed) / (quantity + signed)
  }

  function NextQuantity(quantity: real, signed: real): (r: real) {
    var after := quantity + signed;
    if !Increases(quantity, signed) && Abs(after) < FLAT_EPSILON then 0.0 else after
  }

  function NextEntry(quantity: real, entry: real, signed: real, price: real): (r: real) {
    var after := quantity + signed;
    if Increases(quantity, signed) then
      if Abs(after) > FLAT_EPSILON then Blend(quantity, entry, signed, price) else entry
    else if Abs(after) < FLAT_EPSILON then 0.0
    else if Abs(signed) > Abs(quantity) then price
    else entry
  }

  // What closing a quantity at a gap from its entry price brings in.
  function Closed(gap: real, closing: real, direction: real): (r: real) {
    gap * closing * direction
  }

  // Only closing quantity realises anything.
  function Gain(quantity: real, entry: real, signed: real, price: real): (r: real) {
    if Increases(quantity, signed) then 0.0
    else Closed(price - entry, Min(Abs(signed), Abs(quantity)), if quantity > 0.0 then 1.0 else -1.0)
  }

  function RealizedBy(p: Position, side: Side, quantity: real, price: real): (r: real) {
    Gain(p.quantity, p.entry, side.Signed(quantity), price)
  }

  // The position after a fill.
  function Posted(p: Position, side: Side, quantity: real, price: real, fee: real): (r: Position) {
    var signed := side.Signed(quantity);
    Position(NextQuantity(p.quantity, signed), NextEntry(p.quantity, p.entry, signed, price),
             p.realized + RealizedBy(p, side, quantity, price), p.fees + fee)
  }

  class PositionState {
    const venue: string
    const symbol: string
    var quantity: real
    var averageEntryPrice: real
    var realizedPnl: real
    var feesPaid: real

    constructor (venue: string, symbol: string)
      ensures this.venue == venue && this.symbol == symbol
      ensures View() == FLAT_POSITION
    {
      this.venue, this.symbol := venue, symbol;
      quantity, averageEntryPrice, realizedPnl, feesPaid := 0.0, 0.0, 0.0, 0.0;
    }

    function View(): (p: Position)
      reads this
    {
      Position(quantity, averageEntryPrice, realizedPnl, feesPaid)
    }

    function Key(): (key: string) {
      KeyOf(venue, symbol)
    }

    method Apply(side: Side, quantity: real, price: real, fee: real) returns (realized: real)
      modifies this
      ensures View() == Posted(old(View()), side, quantity, price, fee)
      ensures realized == RealizedBy(old(View()), side, quantity, price)
    {
      hide Blend, Closed;
      var signed := side.Signed(quantity);
      realized := 0.0;
      if View().IsFlat() || ((this.quantity > 0.0) <==> (signed > 0.0)) {
        var newQty := this.quantity + signed;
        if Abs(newQty) > FLAT_EPSILON {
          averageEntryPrice := Blend(this.quantity, averageEntryPrice, signed, price);
        }
        this.quantity := newQty;
      } else {
        var closing := Min(Abs(signed), Abs(this.quantity));
        var direction := if this.quantity > 0.0 then 1.0 else -1.0;
        realized := Closed(price - averageEntryPrice, closing, direction);
        var remaining := Abs(signed) - closing;
        this.quantity := this.quantity + signed;
        if Abs(this.quantity) < FLAT_EPSILON {
          this.quantity := 0.0;
          averageEntryPrice := 0.0;
        } else if remaining > 0.0 {
          averageEntryPrice := price;
        }
      }
      realizedPnl := realizedPnl + realized;
      feesPaid := feesPaid + fee;
    }
  }

  // The book value a fill destroys or creates by snapping to flat, or by
  // resting below the flat tolerance; zero for every other fill.
  function Drift(quantity: real, entry: real, signed: real, price: real): (r: real) {
    var after := quantity + signed;
    if Increases(quantity, signed) then
      if Abs(after) > FLAT_EPSILON then 0.0 else Times(signed, entry - price)
    else if Abs(after) < FLAT_EPSILON then
      if Abs(signed) > Abs(quantity) then Times(-after, price) else Times(-after, entry)
    else 0.0
  }

  function Residue(p: Position, side: Side, quantity: real, price: real): (r: real) {
    Drift(p.quantity, p.entry, side.Signed(quantity), price)
  }

  // The cost of a fill is either realised or carried in the basis, up to the residue.
  lemma BasisBalance(p: Position, side: Side, quantity: real, price: real, fee: real)
    requires quantity > 0.0
    ensures Posted(p, side, quantity, price, fee).Basis() - p.Basis()
         == side.Signed(quantity) * price + RealizedBy(p, side, quantity, price) + Residue(p, side, quantity, price)
  {
    hide NextQuantity, NextEntry, Gain, Drift;
    Balance(p.quantity, p.entry, side.Signed(quantity), price);
  }

  lemma Balance(q: real, entry: real, s: real, price: real)
    requires s != 0.0
    ensures NextQuantity(q, s) * NextEntry(q, entry, s, price) - q * entry
         == s * price + Gain(q, entry, s, price) + Drift(q, entry, s, price)
  {
    if Increases(q, s) {
      if Abs(q + s) > FLAT_EPSILON {
        assert (q + s) * Blend(q, entry, s, price) == entry * q + price * s;
      } else {
        assert (q + s) * entry == q * entry + s * entry;
      }
    } else {
      CloseBalance(q, entry, s, price);
    }
  }

  lemma CloseBalance(q: real, entry: real, s: real, price: real)
    requires s != 0.0 && !Increases(q, s)
    ensures NextQuantity(q, s) * NextEntry(q, entry, s, price) - q * entry
         == s * price + Gain(q, entry, s, price) + Drift(q, entry, s, price)
  {
    var closed := if Abs(s) > Abs(q) then q else -s;
    assert Gain(q, entry, s, price) == (price - entry) * closed;
    assert (price - entry) * closed == price * closed - entry * closed;
    assert (q + s) * entry == q * entry + s * entry;
    assert (q + s) * price == q * price + s * price;
  }

  // What every reachable position satisfies when no fill is priced above `cap`:
  // dust carries no cost, and an average cost is never negative nor above twice the dearest fill.
  predicate Sane(p: Position, cap: real) {
    && (p.IsFlat() ==> p.entry == 0.0)
    && 0.0 <= p.entry <= 2.0 * cap
  }

  // A flat position is dust without a cost, so opening over dust at most doubles the price.
  lemma BlendInRange(q: real, entry: real, s: real, price: real, cap: real)
    requires 0.0 < price <= cap && 0.0 <= entry <= 2.0 * cap
    requires s != 0.0 && Increases(q, s) && Abs(q + s) > FLAT_EPSILON
    requires Abs(q) < FLAT_EPSILON ==> entry == 0.0
    ensures 0.0 <= Blend(q, entry, s, price) <= 2.0 * cap
  {
    if q + s > 0.0 {
      LongBlendInRange(q, entry, s, price, cap);
    } else {
      LongBlendInRange(-q, entry, -s, price, cap);
      assert Blend(q, entry, s, price) == Blend(-q, entry, -s, price) by {
        NegatedQuotient(entry * q + price * s, q + s);
        assert entry * -q + price * -s == -(entry * q + price * s);
      }
    }
  }

  lemma NegatedQuotient(x: real, n: real)
    requires n != 0.0
    ensures x / n == -x / -n
  {
  }

  lemma LongBlendInRange(q: real, entry: real, s: real, price: real, cap: real)
    requires 0.0 < price <= cap && 0.0 <= entry <= 2.0 * cap
    requires s > 0.0 && q + s > FLAT_EPSILON
    requires q >= 0.0 || (entry == 0.0 && -q < FLAT_EPSILON)
    ensures 0.0 <= Blend(q, entry, s, price) <= 2.0 * cap
  {
    if q >= 0.0 {
      MixedQuotient(entry, q, price, s, 2.0 * cap);
    } else {
      DustBlendInRange(q, s, price, cap);
    }
  }

  lemma DustBlendInRange(q: real, s: real, price: real, cap: real)
    requires 0.0 < price <= cap
    requires s > 0.0 && q + s > 0.0 && s <= 2.0 * (q + s)
    ensures 0.0 <= Blend(q, 0.0, s, price) <= 2.0 * cap
  {
    var n := q + s;
    calc {
      price * s;
    <= { WeightBound(price, s, cap); }
      cap * s;
    <= { WeightBound(s, cap, 2.0 * n); }
      2.0 * n * cap;
    ==
      2.0 * cap * n;
    }
    assert 0.0 * q + price * s == price * s;
    Quotient(price * s, n, 2.0 * cap);
  }

  lemma MixedQuotient(x: real, a: real, y: real, b: real, bound: real)
    requires 0.0 <= x <= bound && 0.0 <= y <= bound && a >= 0.0 && b > 0.0
    ensures 0.0 <= (x * a + y * b) / (a + b) <= bound
  {
    WeightBound(x, a, bound);
    WeightBound(y, b, bound);
    assert bound * a + bound * b == bound * (a + b);
    Quotient(x * a + y * b, a + b, bound);
  }

  lemma WeightBound(x: real, weight: real, bound: real)
    requires 0.0 <= x <= bound && weight >= 0.0
    ensures 0.0 <= x * weight <= bound * weight
  {
  }

  lemma Quotient(x: real, n: real, bound: real)
    requires n > 0.0 && 0.0 <= x <= bound * n
    ensures 0.0 <= x / n <= bound
  {
    var r := x / n;
    assert r * n == x;
    assert (r - bound) * n <= 0.0;
  }

  // The entry price validator of PositionState can never fire, and dust stays free.
  lemma SaneKept(p: Position, side: Side, quantity: real, price: real, fee: real, cap: real)
    requires Sane(p, cap) && quantity > 0.0 && 0.0 < price <= cap
    ensures Sane(Posted(p, side, quantity, price, fee), cap)
  {
    NextEntryInRange(p.quantity, p.entry, side.Signed(quantity), price, cap);
  }

  lemma NextEntryInRange(q: real, entry: real, s: real, price: real, cap: real)
    requires s != 0.0 && 0.0 < price <= cap && 0.0 <= entry <= 2.0 * cap
    requires Abs(q) < FLAT_EPSILON ==> entry == 0.0
    ensures 0.0 <= NextEntry(q, entry, s, price) <= 2.0 * cap
    ensures Abs(NextQuantity(q, s)) < FLAT_EPSILON ==> NextEntry(q, entry, s, price) == 0.0
  {
    if Increases(q, s) && Abs(q + s) > FLAT_EPSILON {
      BlendInRange(q, entry, s, price, cap);
    }
  }

  // One fill moves the books apart by at most two flat tolerances' worth of value.
  lemma ResidueBound(p: Position, side: Side, quantity: real, price: real, cap: real)
    requires Sane(p, cap) && quantity > 0.0 && 0.0 < price <= cap
    ensures Abs(Residue(p, side, quantity, price)) <= 2.0 * FLAT_EPSILON * cap
  {
    hide Times;
    var signed := side.Signed(quantity);
    var after := p.quantity + signed;
    if Increases(p.quantity, signed) {
      if Abs(after) <= FLAT_EPSILON {
        ProductBound(signed, p.entry - price, 2.0 * FLAT_EPSILON, cap);
      }
    } else if Abs(after) < FLAT_EPSILON {
      ProductBound(-after, price, FLAT_EPSILON, 2.0 * cap);
      ProductBound(-after, p.entry, FLAT_EPSILON, 2.0 * cap);
    }
  }

  lemma ProductBound(x: real, y: real, a: real, b: real)
    requires Abs(x) <= a && Abs(y) <= b
    ensures Abs(Times(x, y)) <= a * b
  {
    assert Abs(x) * Abs(y) <= a * Abs(y) <= a * b;
  }
}
