// walk_book: consuming an order book with a market order.
module Costs {
  import opened Common

  datatype PriceLevel = PriceLevel(price: real, size: real) {
    function Notional(): (r: real) {
      price * size
    }
  }

  // The schema refuses a level without a price, and negative sizes.
  type Level = l: PriceLevel | l.price > 0.0 && l.size >= 0.0
    witness PriceLevel(1.0, 0.0)

  const EXHAUSTED_TOLERANCE: real := 0.000001

  datatype WalkResult = WalkResult(
    filledNotional: real, filledQuantity: real, averagePrice: real, slippageBps: real, exhausted: bool,
    levelsConsumed: nat)

  // What a greedy walk takes from the levels, and the notional left over.
  datatype Taken = Taken(spent: real, quantity: real, left: real, consumed: nat)

  function Take(levels: seq<Level>, notional: real): (t: Taken)
    ensures t.consumed <= |levels|
  {
    if levels == [] || Min(notional, levels[0].Notional()) <= 0.0 then Taken(0.0, 0.0, notional, 0)
    else
      var take := Min(notional, levels[0].Notional());
      var left := notional - take;
      if left <= QTY_EPSILON then Taken(take, take / levels[0].price, left, 1)
      else
        var rest := Take(levels[1..], left);
        Taken(take + rest.spent, take / levels[0].price + rest.quantity, rest.left, 1 + rest.consumed)
  }

  // Cost of an average price against the touch, in bps of the touch: paying
  // above it or receiving below it is positive.
  function SlippageBps(touch: real, average: real, side: Side): (r: real)
    requires touch > 0.0
  {
    (if side.Buy? then average - touch else touch - average) / touch * 10000.0
  }

  function Walk(levels: seq<Level>, notional: real, side: Side): (r: WalkResult) {
    if levels == [] || notional <= 0.0 then WalkResult(0.0, 0.0, 0.0, 0.0, notional > 0.0, 0)
    else
      var t := Take(levels, notional);
      if t.quantity <= 0.0 then WalkResult(0.0, 0.0, 0.0, 0.0, true, 0)
      else
        var average := t.spent / t.quantity;
        WalkResult(t.spent, t.quantity, average, SlippageBps(levels[0].price, average, side),
                   t.left > EXHAUSTED_TOLERANCE, t.consumed)
  }

  method WalkBook(levels: seq<Level>, notional: real, side: Side) returns (r: WalkResult)
    ensures r == Walk(levels, notional, side)
  {
    if levels == [] || notional <= 0.0 {
      return WalkResult(0.0, 0.0, 0.0, 0.0, notional > 0.0, 0);
    }
    var touch := levels[0].price;
    var remaining, spent, quantity := notional, 0.0, 0.0;
    var consumed: nat := 0;
    ghost var whole := Take(levels, notional);
    while consumed < |levels|
      invariant consumed <= |levels|
      invariant var rest := Take(levels[consumed..], remaining);
        whole == Taken(spent + rest.spent, quantity + rest.quantity, rest.left, consumed + rest.consumed)
    {
      var level := levels[consumed];
      assert levels[consumed..][1..] == levels[consumed + 1..];
      var take := Min(remaining, level.Notional());
      if take <= 0.0 {
        break;
      }
      spent := spent + take;
      quantity := quantity + take / level.price;
      remaining := remaining - take;
      consumed := consumed + 1;
      if remaining <= QTY_EPSILON {
        break;
      }
    }
    assert whole == Taken(spent, quantity, remaining, consumed);
    if quantity <= 0.0 {
      return WalkResult(0.0, 0.0, 0.0, 0.0, true, 0);
    }
    var average := spent / quantity;
    var raw := if side.Buy? then average - touch else touch - average;
    return WalkResult(spent, quantity, average, raw / touch * 10000.0, remaining > EXHAUSTED_TOLERANCE, consumed);
  }

  // -- the economics of a walk ------------------------------------------------------

  predicate Stocked(levels: seq<Level>) {
    forall i :: 0 <= i < |levels| ==> levels[i].size > 0.0
  }

  // No better for the taker: dearer for a buyer, cheaper for a seller.
  predicate Worse(side: Side, price: real, than: real) {
    if side.Buy? then price >= than else price <= than
  }

  // Best price first.
  predicate Sorted(side: Side, levels: seq<Level>) {
    forall i, j :: 0 <= i < j < |levels| ==> Worse(side, levels[j].price, levels[i].price)
  }

  function Depth(levels: seq<Level>): (r: real)
    ensures r >= 0.0
  {
    if levels == [] then 0.0 else levels[0].Notional() + Depth(levels[1..])
  }

  // A walk spends what was asked or what there is, to within QTY_EPSILON.
  lemma {:induction false} TakeSpends(levels: seq<Level>, notional: real)
    requires Stocked(levels) && notional >= 0.0
    ensures var t := Take(levels, notional);
      && t.spent + t.left == notional && t.spent >= 0.0 && t.quantity >= 0.0 && t.left >= 0.0
      && t.spent <= Depth(levels)
      && (t.left <= QTY_EPSILON || t.spent == Depth(levels))
  {
    if levels != [] && notional > 0.0 {
      Positive(levels[0]);
      var take := Min(notional, levels[0].Notional());
      if notional - take > QTY_EPSILON {
        TakeSpends(levels[1..], notional - take);
      }
    }
  }

  lemma Positive(l: Level)
    requires l.size > 0.0
    ensures l.Notional() > 0.0
    ensures l.Notional() / l.price == l.size
  {
  }

  // Buying or selling at least at `price` throughout: cost and quantity compared.
  predicate Bounded(side: Side, spent: real, price: real, quantity: real) {
    if side.Buy? then spent <= price * quantity else spent >= price * quantity
  }

  predicate Beyond(side: Side, spent: real, price: real, quantity: real) {
    if side.Buy? then spent >= price * quantity else spent <= price * quantity
  }

  // Nothing is taken at better than the best price offered.
  lemma {:induction false} TakeBeyond(levels: seq<Level>, notional: real, side: Side, price: real)
    requires forall i :: 0 <= i < |levels| ==> Worse(side, levels[i].price, price)
    ensures Beyond(side, Take(levels, notional).spent, price, Take(levels, notional).quantity)
  {
    if levels != [] && Min(notional, levels[0].Notional()) > 0.0 {
      var take := Min(notional, levels[0].Notional());
      PieceBeyond(side, take, levels[0].price, price);
      if notional - take > QTY_EPSILON {
        TakeBeyond(levels[1..], notional - take, side, price);
        var rest := Take(levels[1..], notional - take);
        SumBeyond(side, take, take / levels[0].price, rest.spent, rest.quantity, price);
      }
    }
  }

  lemma PieceBeyond(side: Side, take: real, paid: real, price: real)
    requires take >= 0.0 && paid > 0.0 && Worse(side, paid, price)
    ensures Beyond(side, take, price, take / paid)
  {
    var q := take / paid;
    assert q * paid == take && q >= 0.0;
    if side.Buy? {
      assert price * q <= paid * q;
    } else {
      assert price * q >= paid * q;
    }
  }

  lemma SumBeyond(side: Side, s: real, q: real, s': real, q': real, price: real)
    requires Beyond(side, s, price, q) && Beyond(side, s', price, q')
    ensures Beyond(side, s + s', price, q + q')
  {
    assert price * (q + q') == price * q + price * q';
  }

  lemma SumBounded(side: Side, s: real, q: real, s': real, q': real, price: real)
    requires Bounded(side, s, price, q) && Bounded(side, s', price, q')
    ensures Bounded(side, s + s', price, q + q')
  {
    assert price * (q + q') == price * q + price * q';
  }

  lemma PieceBounded(side: Side, take: real, paid: real, price: real)
    requires take >= 0.0 && paid > 0.0 && Worse(side, price, paid)
    ensures Bounded(side, take, price, take / paid)
  {
    var q := take / paid;
    assert q * paid == take && q >= 0.0;
    if side.Buy? {
      assert price * q >= paid * q;
    } else {
      assert price * q <= paid * q;
    }
  }

  // Nothing is taken at worse than the deepest level consumed.
  lemma {:induction false} TakeBounded(levels: seq<Level>, notional: real, side: Side, price: real)
    requires forall i :: 0 <= i < Take(levels, notional).consumed ==> Worse(side, price, levels[i].price)
    ensures Bounded(side, Take(levels, notional).spent, price, Take(levels, notional).quantity)
  {
    if levels != [] && Min(notional, levels[0].Notional()) > 0.0 {
      var take := Min(notional, levels[0].Notional());
      PieceBounded(side, take, levels[0].price, price);
      if notional - take > QTY_EPSILON {
        var rest := Take(levels[1..], notional - take);
        assert forall i :: 0 <= i < rest.consumed ==> levels[1..][i] == levels[i + 1];
        TakeBounded(levels[1..], notional - take, side, price);
        SumBounded(side, take, take / levels[0].price, rest.spent, rest.quantity, price);
      }
    }
  }

  // Between two walks of one book there is a price no unit of the smaller is
  // worse than and no unit the larger adds is better than.
  ghost predicate Separates(side: Side, p: real, t: Taken, u: Taken) {
    && p > 0.0 && t.spent <= u.spent && t.quantity <= u.quantity
    && Bounded(side, t.spent, p, t.quantity)
    && Beyond(side, u.spent - t.spent, p, u.quantity - t.quantity)
  }

  lemma {:induction false} Pivot(levels: seq<Level>, side: Side, n: real, m: real) returns (p: real)
    requires levels != [] && Stocked(levels) && Sorted(side, levels) && 0.0 < n <= m
    ensures Worse(side, p, levels[0].price) && Separates(side, p, Take(levels, n), Take(levels, m))
  {
    var head, rest := levels[0], levels[1..];
    Positive(head);
    p := head.price;
    assert Sorted(side, rest);
    if n - Min(n, head.Notional()) <= QTY_EPSILON {
      PivotAtHead(levels, side, n, m);
    } else if rest != [] {
      p := Pivot(rest, side, n - head.Notional(), m - head.Notional());
      assert Worse(side, rest[0].price, head.price);
      PieceBounded(side, head.Notional(), head.price, p);
      var t, u := Take(rest, n - head.Notional()), Take(rest, m - head.Notional());
      SumBounded(side, head.Notional(), head.Notional() / head.price, t.spent, t.quantity, p);
    } else {
      PieceBounded(side, head.Notional(), head.price, p);
    }
  }

  lemma PivotAtHead(levels: seq<Level>, side: Side, n: real, m: real)
    requires levels != [] && Stocked(levels) && Sorted(side, levels) && 0.0 < n <= m
    requires n - Min(n, levels[0].Notional()) <= QTY_EPSILON
    ensures Separates(side, levels[0].price, Take(levels, n), Take(levels, m))
  {
    var head, rest := levels[0], levels[1..];
    Positive(head);
    var take, more := Min(n, head.Notional()), Min(m, head.Notional());
    TakeAtHead(levels, n);
    TakeAtHead(levels, m);
    hide Take, Bounded, Beyond, Separates, Level.Notional, Stocked, Sorted;
    PieceBounded(side, take, head.price, head.price);
    PieceBeyond(side, more - take, head.price, head.price);
    QuotientDiff(more, take, head.price);
    var t, u := Take(levels, n), Take(levels, m);
    if m - more <= QTY_EPSILON {
      Further(side, head.price, t, u, more - take, (more - take) / head.price);
    } else {
      RestBeyond(levels, side, m - more);
      var r := Take(rest, m - more);
      SumBeyond(side, more - take, (more - take) / head.price, r.spent, r.quantity, head.price);
      Further(side, head.price, t, u, more - take + r.spent, (more - take) / head.price + r.quantity);
    }
  }

  // One step of a walk.
  lemma TakeAtHead(levels: seq<Level>, n: real)
    requires levels != [] && n > 0.0 && levels[0].Notional() > 0.0
    ensures var take, rest := Min(n, levels[0].Notional()), Take(levels[1..], n - Min(n, levels[0].Notional()));
      if n - take <= QTY_EPSILON
      then Take(levels, n).spent == take && Take(levels, n).quantity == take / levels[0].price
      else
        Take(levels, n).spent == take + rest.spent && Take(levels, n).quantity == take / levels[0].price + rest.quantity
  {
    hide Level.Notional;
  }

  lemma RestBeyond(levels: seq<Level>, side: Side, n: real)
    requires levels != [] && Stocked(levels) && Sorted(side, levels) && n >= 0.0
    ensures var u := Take(levels[1..], n);
      u.spent >= 0.0 && u.quantity >= 0.0 && Beyond(side, u.spent, levels[0].price, u.quantity)
  {
    hide Beyond;
    TakeSpends(levels[1..], n);
    TakeBeyond(levels[1..], n, side, levels[0].price);
  }

  // What a larger walk adds, at or beyond the price a smaller one stayed within.
  lemma Further(side: Side, p: real, t: Taken, u: Taken, more: real, extra: real)
    requires p > 0.0 && more >= 0.0 && extra >= 0.0
    requires u.spent == t.spent + more && u.quantity == t.quantity + extra
    requires Bounded(side, t.spent, p, t.quantity) && Beyond(side, more, p, extra)
    ensures Separates(side, p, t, u)
  {
    hide Bounded, Beyond;
  }

  lemma QuotientDiff(x: real, y: real, q: real)
    requires q > 0.0
    ensures (x - y) / q == x / q - y / q
    ensures x >= y ==> x / q >= y / q
  {
    assert (x - y) / q * q == x - y;
    if x >= y {
      assert (x - y) / q >= 0.0;
    }
  }

  // -- what a walk promises ------------------------------------------------------------

  lemma TakesSomething(levels: seq<Level>, n: real)
    requires levels != [] && Stocked(levels) && n > 0.0
    ensures Take(levels, n).quantity > 0.0 && Take(levels, n).spent > 0.0 && Take(levels, n).consumed > 0
  {
    Positive(levels[0]);
    var take := Min(n, levels[0].Notional());
    assert take / levels[0].price > 0.0;
    if n - take > QTY_EPSILON {
      TakeSpends(levels[1..], n - take);
    }
  }

  lemma AverageWithin(spent: real, quantity: real, side: Side, touch: real, deepest: real)
    requires quantity > 0.0
    requires Beyond(side, spent, touch, quantity) && Bounded(side, spent, deepest, quantity)
    ensures Worse(side, spent / quantity, touch) && Worse(side, deepest, spent / quantity)
  {
    var average := spent / quantity;
    assert average * quantity == spent;
    if side.Buy? {
      assert (average - touch) * quantity >= 0.0 && (deepest - average) * quantity >= 0.0;
    } else {
      assert (average - touch) * quantity <= 0.0 && (deepest - average) * quantity <= 0.0;
    }
  }

  // The levels consumed are no worse than the last of them and no better than the touch.
  lemma ConsumedSorted(levels: seq<Level>, side: Side, consumed: nat)
    requires Sorted(side, levels) && 0 < consumed <= |levels|
    ensures forall i :: 0 <= i < |levels| ==> Worse(side, levels[i].price, levels[0].price)
    ensures forall i :: 0 <= i < consumed ==> Worse(side, levels[consumed - 1].price, levels[i].price)
  {
  }

  // On a stocked, sorted book a positive notional is spent up to the book's
  // depth to within QTY_EPSILON, at an average between the touch and the
  // deepest level consumed; the book counts as exhausted exactly when it is
  // short by more than the tolerance.
  lemma WalkSpendsWithinBook(levels: seq<Level>, n: real, side: Side)
    requires levels != [] && Stocked(levels) && Sorted(side, levels) && n > 0.0
    ensures var r := Walk(levels, n, side);
      && Abs(r.filledNotional - Min(n, Depth(levels))) <= QTY_EPSILON
      && 0 < r.levelsConsumed <= |levels|
      && Worse(side, r.averagePrice, levels[0].price)
      && Worse(side, levels[r.levelsConsumed - 1].price, r.averagePrice)
      && r.slippageBps >= 0.0
      && (r.exhausted <==> n > Depth(levels) + EXHAUSTED_TOLERANCE)
  {
    hide Bounded, Beyond, Take, Depth, Stocked, Sorted, Worse, SlippageBps;
    var t := Take(levels, n);
    TakesSomething(levels, n);
    TakeSpends(levels, n);
    ConsumedSorted(levels, side, t.consumed);
    TakeBeyond(levels, n, side, levels[0].price);
    TakeBounded(levels, n, side, levels[t.consumed - 1].price);
    AverageWithin(t.spent, t.quantity, side, levels[0].price, levels[t.consumed - 1].price);
    SlippageOrder(levels[0].price, levels[0].price, t.spent / t.quantity, side);
  }

  lemma SlippageOrder(touch: real, average: real, worse: real, side: Side)
    requires touch > 0.0 && Worse(side, worse, average)
    ensures SlippageBps(touch, average, side) <= SlippageBps(touch, worse, side)
    ensures SlippageBps(touch, touch, side) == 0.0
  {
    var a := if side.Buy? then average - touch else touch - average;
    var b := if side.Buy? then worse - touch else touch - worse;
    assert b / touch - a / touch == (b - a) / touch;
  }

  lemma AverageOrder(p: real, t: Taken, u: Taken, side: Side)
    requires Separates(side, p, t, u) && t.quantity > 0.0
    ensures Worse(side, u.spent / u.quantity, t.spent / t.quantity)
  {
    var a := t.spent / t.quantity;
    QuotientTimes(t.spent, t.quantity);
    PriceOrder(a, p, t.quantity, t.spent, side);
    BeyondFrom(a, p, t, u, side);
    AverageBeyond(u.spent, u.quantity, a, side);
  }

  lemma QuotientTimes(s: real, q: real)
    requires q != 0.0
    ensures s / q * q == s
  {
  }

  lemma AverageBeyond(spent: real, quantity: real, price: real, side: Side)
    requires quantity > 0.0 && Beyond(side, spent, price, quantity)
    ensures Worse(side, spent / quantity, price)
  {
    var average := spent / quantity;
    assert average * quantity == spent;
    assert if side.Buy? then (average - price) * quantity >= 0.0 else (average - price) * quantity <= 0.0;
  }

  lemma PriceOrder(a: real, p: real, q: real, s: real, side: Side)
    requires q > 0.0 && a * q == s && Bounded(side, s, p, q)
    ensures Worse(side, p, a)
  {
    assert if side.Buy? then (p - a) * q >= 0.0 else (p - a) * q <= 0.0;
  }

  lemma BeyondFrom(a: real, p: real, t: Taken, u: Taken, side: Side)
    requires Separates(side, p, t, u) && Worse(side, p, a) && a * t.quantity == t.spent
    ensures Beyond(side, u.spent, a, u.quantity)
  {
    var added := u.quantity - t.quantity;
    assert a * u.quantity == t.spent + a * added;
    assert if side.Buy? then a * added <= p * added else a * added >= p * added;
  }

  // A larger order never fills at a better average, and never leaves an
  // exhausted book unexhausted.
  lemma WalkMonotone(levels: seq<Level>, n: real, m: real, side: Side)
    requires Stocked(levels) && Sorted(side, levels) && n <= m
    ensures var r, w := Walk(levels, n, side), Walk(levels, m, side);
      && (levels != [] && n > 0.0 ==> Worse(side, w.averagePrice, r.averagePrice))
      && r.slippageBps <= w.slippageBps
      && (r.exhausted ==> w.exhausted)
      && r.filledNotional <= w.filledNotional && r.filledQuantity <= w.filledQuantity
  {
    if levels != [] && m > 0.0 {
      WalkSpendsWithinBook(levels, m, side);
      TakesSomething(levels, m);
      if n > 0.0 {
        WalkSpendsWithinBook(levels, n, side);
        TakesSomething(levels, n);
        var p := Pivot(levels, side, n, m);
        var t, u := Take(levels, n), Take(levels, m);
        AverageOrder(p, t, u, side);
        SlippageOrder(levels[0].price, t.spent / t.quantity, u.spent / u.quantity, side);
      }
    }
  }

  // In money: a walk's slippage is what it pays above the touch, or goes
  // without below it, over the quantity it fills.
  lemma SlippageIsShortfall(levels: seq<Level>, n: real, side: Side)
    requires Walk(levels, n, side).filledQuantity > 0.0
    ensures levels != []
    ensures var r := Walk(levels, n, side);
      var fair := Times(levels[0].price, r.filledQuantity);
      && Times(r.averagePrice, r.filledQuantity) == r.filledNotional
      && Times(fair, r.slippageBps) == 10000.0 * (if side.Buy? then r.filledNotional - fair else fair - r.filledNotional)
  {
    hide Take;
    var t, touch := Take(levels, n), levels[0].price;
    QuotientTimes(t.spent, t.quantity);
    ShortfallOf(touch, t.spent / t.quantity, t.quantity, t.spent, side);
  }

  lemma ShortfallOf(touch: real, average: real, quantity: real, spent: real, side: Side)
    requires touch > 0.0 && Times(average, quantity) == spent
    ensures Times(Times(touch, quantity), SlippageBps(touch, average, side))
         == 10000.0 * (if side.Buy? then spent - Times(touch, quantity) else Times(touch, quantity) - spent)
  {
    var gap := if side.Buy? then average - touch else touch - average;
    var part := gap / touch;
    assert part * touch == gap;
    assert touch * quantity * (part * 10000.0) == part * touch * quantity * 10000.0;
  }

  // What the levels hold together.
  function SizeOf(levels: seq<Level>): (r: real) {
    if levels == [] then 0.0 else levels[0].size + SizeOf(levels[1..])
  }

  // A walk takes every level before the last it touches whole, and of that one
  // what is left to spend, at its own price.
  lemma {:induction false} WalkByLevel(levels: seq<Level>, notional: real)
    requires Stocked(levels) && notional > 0.0 && levels != []
    ensures var t := Take(levels, notional);
      && 0 < t.consumed <= |levels|
      && var whole, last := levels[..t.consumed - 1], levels[t.consumed - 1];
         && t.quantity == SizeOf(whole) + (t.spent - Depth(whole)) / last.price
         && 0.0 < t.spent - Depth(whole) <= last.Notional()
  {
    hide SizeOf, Depth;
    Positive(levels[0]);
    var take := Min(notional, levels[0].Notional());
    var left := notional - take;
    if left <= QTY_EPSILON || levels[1..] == [] {
      assert levels[..0] == [];
      NothingHeld();
    } else {
      WalkByLevel(levels[1..], left);
      var rest := Take(levels[1..], left);
      var whole := levels[..rest.consumed];
      assert whole[1..] == levels[1..][..rest.consumed - 1];
      assert whole[0] == levels[0] && levels[rest.consumed] == levels[1..][rest.consumed - 1];
      HeadFirst(whole);
    }
  }

  lemma NothingHeld()
    ensures SizeOf([]) == 0.0 && Depth([]) == 0.0
  {
  }

  lemma HeadFirst(levels: seq<Level>)
    requires levels != []
    ensures SizeOf(levels) == levels[0].size + SizeOf(levels[1..])
    ensures Depth(levels) == levels[0].Notional() + Depth(levels[1..])
  {
  }
}
