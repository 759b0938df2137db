// What average-cost accounting means over whole logs: what opening fills cost,
// what reducing fills realise, and what a round trip brings in.
module CostBasis {
  import opened Common
  import opened Execution
  import opened Ledgers
  import opened Positions
  import opened Totals

  function PostAll(p: Position, fills: seq<Fill>): (r: Position) {
    if fills == [] then p
    else
      var f := fills[|fills| - 1];
      Posted(PostAll(p, fills[..|fills| - 1]), f.side, f.quantity, f.price, f.fee)
  }

  // The fills of one venue and symbol, in order.
  function FillsAt(fills: seq<Fill>, key: string): (r: seq<Fill>) {
    if fills == [] then []
    else
      var f := fills[|fills| - 1];
      FillsAt(fills[..|fills| - 1], key) + if f.Key() == key then [f] else []
  }

  // A position of the ledger is what its own fills make of it.
  lemma {:induction false} PositionIsPosted(l: Ledger, fills: seq<Fill>, key: string)
    ensures PositionAt(Replay(l, fills).positions, key) == PostAll(PositionAt(l.positions, key), FillsAt(fills, key))
  {
    hide Posted, RealizedBy;
    if fills != [] {
      var before, f := fills[..|fills| - 1], fills[|fills| - 1];
      PositionIsPosted(l, before, key);
      if f.Key() == key {
        PostSnoc(PositionAt(l.positions, key), FillsAt(before, key), f);
      } else {
        assert FillsAt(fills, key) == FillsAt(before, key);
      }
    }
  }

  lemma PostSnoc(p: Position, fills: seq<Fill>, f: Fill)
    ensures PostAll(p, fills + [f]) == Posted(PostAll(p, fills), f.side, f.quantity, f.price, f.fee)
  {
    hide Posted;
    assert (fills + [f])[..|fills|] == fills;
  }

  lemma {:induction false} PostConcat(p: Position, a: seq<Fill>, b: seq<Fill>)
    ensures PostAll(p, a + b) == PostAll(PostAll(p, a), b)
    decreases |b|
  {
    hide Posted;
    if b == [] {
      assert a + b == a;
    } else {
      var before, f := b[..|b| - 1], b[|b| - 1];
      assert a + b == a + before + [f] && b == before + [f];
      PostConcat(p, a, before);
      PostSnoc(p, a + before, f);
      PostSnoc(PostAll(p, a), before, f);
    }
  }

  // The ledger's realised P&L is that of its positions.
  function RealizedOf(p: Position): (t: Tally) {
    Tally(1, p.realized)
  }

  lemma {:induction false} RealizedIsSummed(initial: real, fills: seq<Fill>)
    ensures Replay(Opening(initial), fills).realized == Total(Replay(Opening(initial), fills).positions, RealizedOf).amount
  {
    hide Total, Posted, RealizedBy;
    if fills == [] {
      NothingRealized(initial);
    } else {
      var before, f := fills[..|fills| - 1], fills[|fills| - 1];
      RealizedIsSummed(initial, before);
      var l := Replay(Opening(initial), before);
      PostedRealizes(PositionAt(l.positions, f.Key()), f);
      TotalUpdate(l.positions, RealizedOf, f.Key(), Step(l, f).positions[f.Key()]);
    }
  }

  // And the fees it has paid are theirs.
  function FeesPaidOf(p: Position): (t: Tally) {
    Tally(1, p.fees)
  }

  lemma {:induction false} FeesAreSummed(initial: real, fills: seq<Fill>)
    ensures var l := Replay(Opening(initial), fills);
      l.fees == Total(l.positions, FeesPaidOf).amount == SumFees(fills)
  {
    hide Total, Posted, RealizedBy;
    if fills == [] {
      NothingRealized(initial);
    } else {
      var before, f := fills[..|fills| - 1], fills[|fills| - 1];
      FeesAreSummed(initial, before);
      var l := Replay(Opening(initial), before);
      PostedRealizes(PositionAt(l.positions, f.Key()), f);
      TotalUpdate(l.positions, FeesPaidOf, f.Key(), Step(l, f).positions[f.Key()]);
    }
  }

  lemma NothingRealized(initial: real)
    ensures Opening(initial).realized == Total(Opening(initial).positions, RealizedOf).amount
    ensures Opening(initial).fees == Total(Opening(initial).positions, FeesPaidOf).amount
  {
  }

  lemma PostedRealizes(p: Position, f: Fill)
    ensures Posted(p, f.side, f.quantity, f.price, f.fee).realized == p.realized + RealizedBy(p, f.side, f.quantity, f.price)
    ensures Posted(p, f.side, f.quantity, f.price, f.fee).fees == p.fees + f.fee
  {
    hide Gain, NextEntry, NextQuantity;
  }

  // -- opening ----------------------------------------------------------------------

  // Every fill is on the position's side, unless the position is no more than
  // dust, and the first of them makes more of it than that.
  predicate Opens(p: Position, fills: seq<Fill>, side: Side) {
    && (forall f :: f in fills ==> f.side == side)
    && (p.IsFlat() || side.Signed(p.quantity) >= 0.0)
    && (fills != [] ==> side.Signed(p.quantity) + fills[0].quantity > FLAT_EPSILON)
  }

  lemma OpeningFill(p: Position, side: Side, quantity: real, price: real, fee: real)
    requires p.IsFlat() || side.Signed(p.quantity) >= 0.0
    requires quantity > 0.0 && side.Signed(p.quantity) + quantity > FLAT_EPSILON
    ensures var r := Posted(p, side, quantity, price, fee);
      && r.quantity == p.quantity + side.Signed(quantity) && r.realized == p.realized
      && r.Basis() == p.Basis() + side.Signed(Times(price, quantity))
  {
    var s := side.Signed(quantity);
    hide Blend;
    BlendPays(p.quantity, p.entry, s, price);
    assert side.Signed(price * quantity) == price * s;
  }

  lemma BlendPays(q: real, entry: real, s: real, price: real)
    requires q + s != 0.0
    ensures (q + s) * Blend(q, entry, s, price) == q * entry + price * s
  {
  }

  // Opening and increasing realise nothing and carry exactly what was paid.
  lemma {:induction false} OpeningFills(p: Position, fills: seq<Fill>, side: Side)
    requires Opens(p, fills, side)
    ensures var r := PostAll(p, fills);
      && r.quantity == p.quantity + side.Signed(SumQuantity(fills)) && r.realized == p.realized
      && r.Basis() == p.Basis() + side.Signed(SumNotional(fills))
  {
    hide Posted, Position.Basis, SumNotional, Times;
    NoNotional();
    if fills != [] {
      var before, f := fills[..|fills| - 1], fills[|fills| - 1];
      assert f in fills;
      LastNotional(fills);
      OpeningFills(p, before, side);
      FirstWithin(before);
      assert side.Signed(p.quantity) + SumQuantity(before) + f.quantity > FLAT_EPSILON;
      OpeningFill(PostAll(p, before), side, f.quantity, f.price, f.fee);
    }
  }

  lemma NoNotional()
    ensures SumNotional([]) == 0.0
  {
  }

  lemma LastNotional(fills: seq<Fill>)
    requires fills != []
    ensures var f := fills[|fills| - 1];
      SumNotional(fills) == SumNotional(fills[..|fills| - 1]) + Times(f.price, f.quantity)
  {
  }

  lemma {:induction false} FirstWithin(fills: seq<Fill>)
    ensures fills != [] ==> SumQuantity(fills) >= fills[0].quantity
  {
    if |fills| > 1 {
      FirstWithin(fills[..|fills| - 1]);
    }
  }

  // -- reducing ---------------------------------------------------------------------

  // Against the position's side.
  function Opposite(p: Position): (side: Side) {
    if p.quantity > 0.0 then Sell else Buy
  }

  // What the fills bring in over an entry price, for a position held long.
  function GainOver(entry: real, fills: seq<Fill>): (g: real) {
    if fills == [] then 0.0
    else
      var f := fills[|fills| - 1];
      GainOver(entry, fills[..|fills| - 1]) + Times(f.price - entry, f.quantity)
  }

  function InDirectionOf(p: Position, gain: real): (r: real) {
    if p.quantity > 0.0 then gain else -gain
  }

  lemma ReducingFill(p: Position, quantity: real, price: real, fee: real)
    requires quantity > 0.0 && Abs(p.quantity) - quantity >= FLAT_EPSILON
    ensures var r := Posted(p, Opposite(p), quantity, price, fee);
      && r.entry == p.entry && r.quantity == p.quantity + Opposite(p).Signed(quantity)
      && r.realized == p.realized + InDirectionOf(p, Times(price - p.entry, quantity))
  {
    hide Blend, Closed;
    ClosedAt(price - p.entry, quantity);
  }

  lemma ClosedAt(gap: real, quantity: real)
    ensures Closed(gap, quantity, 1.0) == Times(gap, quantity) && Closed(gap, quantity, -1.0) == -Times(gap, quantity)
  {
  }

  // Reducing fills leave the entry price alone and realise, each of them, its
  // distance from that entry price on its own quantity.
  lemma {:induction false} ReducingFills(p: Position, fills: seq<Fill>)
    requires forall f :: f in fills ==> f.side == Opposite(p)
    requires Abs(p.quantity) - SumQuantity(fills) >= FLAT_EPSILON
    ensures var r := PostAll(p, fills);
      && r.entry == p.entry && r.quantity == p.quantity + Opposite(p).Signed(SumQuantity(fills))
      && r.realized == p.realized + InDirectionOf(p, GainOver(p.entry, fills))
  {
    hide Posted, Times;
    if fills != [] {
      var before, f := fills[..|fills| - 1], fills[|fills| - 1];
      assert f in fills;
      ReducingFills(p, before);
      ReducingFill(PostAll(p, before), f.quantity, f.price, f.fee);
    }
  }

  // -- closing and flipping -----------------------------------------------------------

  // A fill that ends within the flat tolerance leaves nothing, and realises on
  // what it closed.
  lemma ClosingFill(p: Position, quantity: real, price: real, fee: real)
    requires quantity > 0.0 && Abs(p.quantity) >= FLAT_EPSILON && Abs(Abs(p.quantity) - quantity) < FLAT_EPSILON
    ensures var r := Posted(p, Opposite(p), quantity, price, fee);
      && r.quantity == 0.0 && r.entry == 0.0
      && r.realized == p.realized + InDirectionOf(p, Times(price - p.entry, Min(quantity, Abs(p.quantity))))
  {
    hide Blend, Closed;
    ClosedAt(price - p.entry, Min(quantity, Abs(p.quantity)));
  }

  // A flip is a close of exactly the old quantity and an opening of the rest at
  // the same price.
  lemma FlipIsCloseAndOpen(p: Position, quantity: real, price: real, closeFee: real, openFee: real)
    requires Abs(p.quantity) >= FLAT_EPSILON && quantity > Abs(p.quantity) + FLAT_EPSILON
    ensures var side, held := Opposite(p), Abs(p.quantity);
      var r := Posted(p, side, quantity, price, closeFee + openFee);
      && r == Posted(Posted(p, side, held, price, closeFee), side, quantity - held, price, openFee)
      && r.entry == price && r.quantity == side.Signed(quantity - held)
      && r.realized == p.realized + InDirectionOf(p, Times(price - p.entry, held))
  {
    var side, held := Opposite(p), Abs(p.quantity);
    hide Blend, Closed;
    ClosedAt(price - p.entry, held);
    FreshBlend(side.Signed(quantity - held), price);
  }

  lemma FreshBlend(s: real, price: real)
    requires s != 0.0
    ensures Blend(0.0, 0.0, s, price) == price
  {
  }

  // -- a round trip --------------------------------------------------------------------

  lemma {:induction false} GainIsProceedsLessCost(entry: real, fills: seq<Fill>)
    ensures GainOver(entry, fills) == SumNotional(fills) - Times(entry, SumQuantity(fills))
  {
    hide SumNotional, GainOver, Times;
    if fills == [] {
      NoNotional();
      NoGain(entry);
    } else {
      var before, f := fills[..|fills| - 1], fills[|fills| - 1];
      GainIsProceedsLessCost(entry, before);
      LastNotional(fills);
      LastGain(entry, fills);
      OneMoreGain(entry, SumQuantity(before), f.price, f.quantity);
    }
  }

  lemma NoGain(entry: real)
    ensures GainOver(entry, []) == 0.0 && Times(entry, 0.0) == 0.0
  {
  }

  lemma OneMoreGain(entry: real, total: real, price: real, quantity: real)
    ensures Times(price - entry, quantity) - Times(entry, total) == Times(price, quantity) - Times(entry, total + quantity)
  {
  }

  // Reducing a position to nothing realises the proceeds less what it cost.
  lemma ClosingFills(p: Position, fills: seq<Fill>)
    requires fills != [] && forall f :: f in fills ==> f.side == Opposite(p)
    requires SumQuantity(fills) == Abs(p.quantity) && fills[|fills| - 1].quantity >= FLAT_EPSILON
    ensures var r := PostAll(p, fills);
      && r.quantity == 0.0 && r.entry == 0.0
      && r.realized == p.realized + InDirectionOf(p, SumNotional(fills) - Times(p.entry, Abs(p.quantity)))
  {
    hide Posted, SumNotional, GainOver, Times;
    var partial, last := fills[..|fills| - 1], fills[|fills| - 1];
    assert last in fills;
    ReducingFills(p, partial);
    LastGain(p.entry, fills);
    GainIsProceedsLessCost(p.entry, fills);
    CloseExactly(PostAll(p, partial), p, last);
  }

  lemma CloseExactly(q: Position, p: Position, f: Fill)
    requires Abs(q.quantity) == f.quantity >= FLAT_EPSILON && q.entry == p.entry && Opposite(q) == Opposite(p)
    requires p.quantity > 0.0 <==> q.quantity > 0.0
    ensures var r := Posted(q, Opposite(p), f.quantity, f.price, f.fee);
      && r.quantity == 0.0 && r.entry == 0.0
      && r.realized == q.realized + InDirectionOf(p, Times(f.price - p.entry, f.quantity))
  {
    hide Posted, Times;
    ClosingFill(q, f.quantity, f.price, f.fee);
  }

  lemma LastGain(entry: real, fills: seq<Fill>)
    requires fills != []
    ensures var f := fills[|fills| - 1];
      GainOver(entry, fills) == GainOver(entry, fills[..|fills| - 1]) + Times(f.price - entry, f.quantity)
  {
  }

  // From nothing to nothing: whatever the prices, the sizes and the number of
  // fills on the way in and on the way out, the position realises what was sold
  // less what was bought.
  lemma RoundTrip(opening: seq<Fill>, closing: seq<Fill>, side: Side)
    requires opening != [] && Opens(FLAT_POSITION, opening, side)
    requires closing != [] && forall f :: f in closing ==> f.side != side
    requires SumQuantity(closing) == SumQuantity(opening) && closing[|closing| - 1].quantity >= FLAT_EPSILON
    ensures var r := PostAll(FLAT_POSITION, opening + closing);
      && r.quantity == 0.0 && r.entry == 0.0
      && r.realized == side.Signed(SumNotional(closing) - SumNotional(opening))
  {
    hide PostAll, SumNotional, Position.Basis, Times;
    OpeningFills(FLAT_POSITION, opening, side);
    PostConcat(FLAT_POSITION, opening, closing);
    var p := PostAll(FLAT_POSITION, opening);
    NothingCostsNothing();
    BasisIsCost(p, side, SumQuantity(opening), SumNotional(opening));
    ClosingFills(p, closing);
  }

  lemma NothingCostsNothing()
    ensures FLAT_POSITION.Basis() == 0.0
  {
  }

  lemma BasisIsCost(p: Position, side: Side, quantity: real, cost: real)
    requires quantity > 0.0 && p.quantity == side.Signed(quantity) && p.Basis() == side.Signed(cost)
    ensures Times(p.entry, Abs(p.quantity)) == cost
  {
  }
}
