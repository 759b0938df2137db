// The synthetic market's book feed, and what a local book makes of it when
// messages are lost, repeated or reordered.
module SyntheticFeed {
  import opened Common
  import opened Costs
  import opened LocalBooks

  const DIFF_TOLERANCE: real := 0.000000000001

  // Both sides of the generator's book at one version.
  datatype Sides = Sides(bids: Ladder, asks: Ladder)

  // Sizes are rounded to eight decimals.
  predicate OnGrid(size: real) {
    size * 100000000.0 == (size * 100000000.0).Floor as real
  }

  predicate Quoted(side: Ladder) {
    forall p :: p in side ==> p > 0.0 && side[p] >= 0.0 && OnGrid(side[p])
  }

  function Resting(side: Ladder): (r: Ladder) {
    map p | p in side && side[p] > 0.0 :: side[p]
  }

  function SizeAt(side: Ladder, p: real): (r: real) {
    if p in side then side[p] else 0.0
  }

  predicate Changed(before: Ladder, after: Ladder, p: real) {
    if p in after then Abs(SizeAt(before, p) - after[p]) > DIFF_TOLERANCE else p in before
  }

  // Levels that changed, with removals at size zero.
  function Changes(before: Ladder, after: Ladder): (r: Ladder) {
    map p | p in before.Keys + after.Keys && Changed(before, after, p) :: SizeAt(after, p)
  }

  // `levels` lists the ladder, each price once, in any order.
  ghost predicate Lists(levels: seq<Level>, ladder: Ladder) {
    && (forall i :: 0 <= i < |levels| ==> levels[i].price in ladder && levels[i].size == ladder[levels[i].price])
    && (forall p :: p in ladder ==> exists i :: 0 <= i < |levels| && levels[i].price == p)
    && (forall i, j :: 0 <= i < j < |levels| ==> levels[i].price != levels[j].price)
  }

  // -- a diff undoes nothing and forgets nothing -----------------------------

  ghost predicate Mentions(changes: seq<Level>, p: real) {
    exists i :: 0 <= i < |changes| && changes[i].price == p
  }

  // Among distinct prices, each change decides its own price and no other.
  lemma {:induction false} PutAllAt(side: Ladder, changes: seq<Level>, i: nat, p: real)
    requires forall i, j :: 0 <= i < j < |changes| ==> changes[i].price != changes[j].price
    ensures !Mentions(changes, p) ==>
      (p in PutAll(side, changes) <==> p in side) && SizeAt(PutAll(side, changes), p) == SizeAt(side, p)
    ensures i < |changes| && changes[i].price == p ==>
      (p in PutAll(side, changes) <==> changes[i].size > 0.0) && SizeAt(PutAll(side, changes), p) == changes[i].size
    decreases |changes|
  {
    if changes != [] {
      var rest, last := changes[..|changes| - 1], changes[|changes| - 1];
      PutAllAt(side, rest, i, p);
      if !Mentions(changes, p) {
        assert last.price != p;
        assert forall k :: 0 <= k < |rest| ==> rest[k] == changes[k];
      }
    }
  }

  lemma ZeroOnGrid()
    ensures OnGrid(0.0)
  {
  }

  lemma GridGap(a: real, b: real)
    requires OnGrid(a) && OnGrid(b) && Abs(a - b) <= DIFF_TOLERANCE
    ensures a == b
  {
    WholeGap((a * 100000000.0).Floor, (b * 100000000.0).Floor);
  }

  lemma WholeGap(m: int, n: int)
    requires Abs(m as real - n as real) < 1.0
    ensures m == n
  {
  }

  // Applying the diff of two versions to the positive levels of the first
  // gives the positive levels of the second, in whatever order it is listed.
  lemma DiffRoundTrip(before: Ladder, after: Ladder, changes: seq<Level>)
    requires Quoted(before) && Quoted(after) && Lists(changes, Changes(before, after))
    ensures PutAll(Resting(before), changes) == Resting(after)
  {
    hide Quoted, Lists, OnGrid, PutAll;
    var patched := PutAll(Resting(before), changes);
    forall p ensures (p in patched <==> p in Resting(after)) && SizeAt(patched, p) == SizeAt(Resting(after), p) {
      PatchedAt(before, after, changes, p);
    }
    SameSizes(patched, Resting(after));
  }

  lemma SameSizes(a: Ladder, b: Ladder)
    requires forall p :: (p in a <==> p in b) && SizeAt(a, p) == SizeAt(b, p)
    ensures a == b
  {
    forall p | p in a ensures p in b && a[p] == b[p] {
      assert SizeAt(a, p) == SizeAt(b, p);
    }
    forall p | p in b ensures p in a {
      assert SizeAt(a, p) == SizeAt(b, p);
    }
  }

  lemma PatchedAt(before: Ladder, after: Ladder, changes: seq<Level>, p: real)
    requires Quoted(before) && Quoted(after) && Lists(changes, Changes(before, after))
    ensures var patched := PutAll(Resting(before), changes);
      (p in patched <==> p in Resting(after)) && SizeAt(patched, p) == SizeAt(Resting(after), p)
  {
    hide PutAll, OnGrid;
    if p in Changes(before, after) {
      var i :| 0 <= i < |changes| && changes[i].price == p;
      PutAllAt(Resting(before), changes, i, p);
    } else {
      PutAllAt(Resting(before), changes, 0, p);
      ZeroOnGrid();
      if p in after {
        GridGap(SizeAt(before, p), after[p]);
      }
    }
  }

  // A snapshot's listing rebuilds the positive levels.
  lemma SnapshotRoundTrip(ladder: Ladder, levels: seq<Level>)
    requires Lists(levels, Resting(ladder))
    ensures Listed(levels) == Resting(ladder)
  {
    ListedIsPutAll(levels);
    forall p
      ensures (p in Listed(levels) <==> p in Resting(ladder)) && SizeAt(Listed(levels), p) == SizeAt(Resting(ladder), p)
    {
      if p in Resting(ladder) {
        var i :| 0 <= i < |levels| && levels[i].price == p;
        PutAllAt(map[], levels, i, p);
      } else {
        PutAllAt(map[], levels, 0, p);
      }
    }
    SameSizes(Listed(levels), Resting(ladder));
  }

  lemma {:induction false} ListedIsPutAll(levels: seq<Level>)
    requires forall i :: 0 <= i < |levels| ==> levels[i].size > 0.0
    ensures Listed(levels) == PutAll(map[], levels)
  {
    if levels != [] {
      ListedIsPutAll(levels[..|levels| - 1]);
    }
  }

  // -- the channel -------------------------------------------------------------

  // What reaches a local book: a snapshot, an update, or news of a disconnect.
  datatype Message = Snap(snapshot: BookSnapshot) | Delta(delta: BookDelta) | Disconnect

  // A message the generator sent at some version of its history.
  ghost predicate Authentic(history: seq<Sides>, m: Message) {
    match m
    case Snap(s) =>
      && s.sequence.Some? && 0 <= s.sequence.value < |history|
      && Lists(s.bids, Resting(history[s.sequence.value].bids))
      && Lists(s.asks, Resting(history[s.sequence.value].asks))
    case Delta(d) =>
      && d.sequence.Some? && 1 <= d.sequence.value < |history| && d.prev == Some(d.sequence.value - 1)
      && Lists(d.bids, Changes(history[d.sequence.value - 1].bids, history[d.sequence.value].bids))
      && Lists(d.asks, Changes(history[d.sequence.value - 1].asks, history[d.sequence.value].asks))
    case Disconnect => true
  }

  ghost predicate FitsDepth(history: seq<Sides>, depth: nat) {
    forall v :: 0 <= v < |history| ==>
      && Quoted(history[v].bids) && Quoted(history[v].asks)
      && |Resting(history[v].bids)| <= depth && |Resting(history[v].asks)| <= depth
  }

  function Handle(b: Book, m: Message): (r: Book) {
    match m
    case Snap(s) => AfterSnapshot(b, s)
    case Delta(d) => AfterDelta(b, d)
    case Disconnect => Invalidated(b)
  }

  function Deliver(b: Book, messages: seq<Message>): (r: Book) {
    if messages == [] then b else Handle(Deliver(b, messages[..|messages| - 1]), messages[|messages| - 1])
  }

  // While synchronised, the book is the generator's at its own sequence.
  ghost predicate Faithful(b: Book, history: seq<Sides>) {
    b.synced ==>
      && b.sequence.Some? && 0 <= b.sequence.value < |history|
      && b.bids == Resting(history[b.sequence.value].bids)
      && b.asks == Resting(history[b.sequence.value].asks)
  }

  lemma HandleKeepsFaith(b: Book, history: seq<Sides>, m: Message)
    requires FitsDepth(history, b.maxDepth) && Authentic(history, m) && Faithful(b, history)
    ensures Faithful(Handle(b, m), history) && Handle(b, m).maxDepth == b.maxDepth
  {
    hide Lists, Resting, Changes, Quoted, Kept, Listed, PutAll;
    match m
    case Snap(s) =>
      var sides := history[s.sequence.value];
      SnapshotRoundTrip(sides.bids, s.bids);
      SnapshotRoundTrip(sides.asks, s.asks);
      KeptWhole(Resting(sides.bids), b.maxDepth, Buy);
      KeptWhole(Resting(sides.asks), b.maxDepth, Sell);
    case Delta(d) =>
      var before, after := history[d.sequence.value - 1], history[d.sequence.value];
      DiffRoundTrip(before.bids, after.bids, d.bids);
      DiffRoundTrip(before.asks, after.asks, d.asks);
      KeptWhole(Resting(after.bids), b.maxDepth, Buy);
      KeptWhole(Resting(after.asks), b.maxDepth, Sell);
    case Disconnect =>
  }

  // Whatever subsequence, repetition or reordering of the generator's
  // messages arrives, a synchronised book never lies.
  lemma {:induction false} LossyChannel(history: seq<Sides>, messages: seq<Message>, depth: nat)
    requires FitsDepth(history, depth) && forall m :: m in messages ==> Authentic(history, m)
    ensures Faithful(Deliver(NewBook(depth), messages), history)
    ensures Deliver(NewBook(depth), messages).maxDepth == depth
  {
    hide FitsDepth, Authentic;
    if messages != [] {
      LossyChannel(history, messages[..|messages| - 1], depth);
      HandleKeepsFaith(Deliver(NewBook(depth), messages[..|messages| - 1]), history, messages[|messages| - 1]);
    }
  }

  // The same of whatever a generator run sent: what arrives is any selection of
  // its messages, any of them any number of times, with disconnects between.
  lemma LossyFeed(history: seq<Sides>, sent: seq<Message>, received: seq<Message>, depth: nat)
    requires FitsDepth(history, depth) && forall m :: m in sent ==> Authentic(history, m)
    requires forall m :: m in received ==> m in sent || m.Disconnect?
    ensures Faithful(Deliver(NewBook(depth), received), history)
  {
    hide FitsDepth, Faithful, Deliver;
    forall m | m in received ensures Authentic(history, m) {
    }
    LossyChannel(history, received, depth);
  }

  // -- quiet steps ---------------------------------------------------------------

  // Nothing is sent for a version equal to the one before, yet the sequence moves on.
  ghost predicate Quiet(history: seq<Sides>, v: int)
    requires 1 <= v < |history|
  {
    Changes(history[v - 1].bids, history[v].bids) == map[] && Changes(history[v - 1].asks, history[v].asks) == map[]
  }

  // The updates of versions a+1 to n, delivered in order and without loss.
  ghost function InOrder(b: Book, history: seq<Sides>, deltas: seq<BookDelta>, a: nat, n: nat): (r: Book)
    requires a <= n < |history| == |deltas|
    decreases n
  {
    if n == a then b
    else
      var r := InOrder(b, history, deltas, a, n - 1);
      if Quiet(history, n) then r else AfterDelta(r, deltas[n])
  }

  ghost function LastLoud(history: seq<Sides>, a: nat, n: nat): (v: nat)
    requires a <= n < |history|
    ensures a <= v <= n && (v == n <==> n == a || !Quiet(history, n))
    decreases n
  {
    if n == a || !Quiet(history, n) then n else LastLoud(history, a, n - 1)
  }

  // No change follows a quiet step.
  ghost predicate Continues(history: seq<Sides>, a: nat, n: nat)
    requires a <= n < |history|
  {
    forall v :: a < v < n && Quiet(history, v) ==> Quiet(history, v + 1)
  }

  // Even a perfect channel desynchronises the book: it stays synchronised
  // exactly when no change follows a quiet step.
  lemma {:induction false} QuietStepsLookLikeLoss(b: Book, history: seq<Sides>, deltas: seq<BookDelta>, a: nat, n: nat)
    requires a <= n < |history| == |deltas|
    requires b.synced && b.sequence == Some(a)
    requires forall v :: a < v <= n ==> deltas[v].sequence == Some(v) && deltas[v].prev == Some(v - 1)
    ensures InOrder(b, history, deltas, a, n).synced <==> Continues(history, a, n)
    ensures InOrder(b, history, deltas, a, n).synced ==>
      InOrder(b, history, deltas, a, n).sequence == Some(LastLoud(history, a, n))
    decreases n
  {
    hide Quiet, Kept, PutAll;
    if n > a {
      QuietStepsLookLikeLoss(b, history, deltas, a, n - 1);
      assert Continues(history, a, n) <==> Continues(history, a, n - 1) && (n - 1 > a && Quiet(history, n - 1) ==> Quiet(history, n));
    }
  }

  // -- old news ------------------------------------------------------------------

  // The highest sequence a receiver has been told of since the last snapshot,
  // having started from one.
  function High(known: Option<int>, messages: seq<Message>): (v: Option<int>) {
    if messages == [] then known
    else
      var before := High(known, messages[..|messages| - 1]);
      match messages[|messages| - 1]
      case Snap(s) => s.sequence
      case Delta(d) =>
        if d.sequence.None? then before
        else if before.None? || d.sequence.value > before.value then d.sequence
        else before
      case Disconnect => before
  }

  // An update at or below a sequence told of already: a repeat, or a latecomer.
  predicate IsOld(high: Option<int>, m: Message) {
    m.Delta? && m.delta.sequence.Some? && high.Some? && m.delta.sequence.value <= high.value
  }

  // A delivery without its repeats and latecomers.
  function News(known: Option<int>, messages: seq<Message>): (r: seq<Message>) {
    if messages == [] then []
    else
      var before, last := messages[..|messages| - 1], messages[|messages| - 1];
      News(known, before) + if IsOld(High(known, before), last) then [] else [last]
  }

  // A synchronised book is never behind what it has been told of.
  ghost predicate KeepsUp(b: Book, high: Option<int>) {
    b.synced && high.Some? ==> b.sequence.Some? && b.sequence.value >= high.value
  }

  lemma HandleKeepsUp(b: Book, high: Option<int>, known: Option<int>, before: seq<Message>, m: Message)
    requires KeepsUp(b, high) && high == High(known, before)
    ensures KeepsUp(Handle(b, m), High(known, before + [m]))
  {
    hide Kept, PutAll, Listed;
    assert (before + [m])[..|before|] == before;
  }

  // An update at or below the book's own sequence changes nothing of it.
  lemma OldUpdateIgnored(b: Book, d: BookDelta)
    requires d.sequence.Some? && b.sequence.Some? && d.sequence.value <= b.sequence.value
    ensures AfterDelta(b, d) == b
    ensures b.synced ==> !Receive(b, d).Raises()
  {
  }

  lemma OldNewsIgnored(b: Book, high: Option<int>, m: Message)
    requires KeepsUp(b, high) && IsOld(high, m)
    ensures Handle(b, m) == b
  {
    if b.synced {
      OldUpdateIgnored(b, m.delta);
    }
  }

  // Any number of repeats and latecomers, anywhere in a delivery, leave the
  // book exactly as the delivery without them does.
  lemma {:induction false} OldNewsChangesNothing(b: Book, known: Option<int>, messages: seq<Message>)
    requires KeepsUp(b, known)
    ensures Deliver(b, messages) == Deliver(b, News(known, messages))
    ensures KeepsUp(Deliver(b, messages), High(known, messages))
  {
    hide Handle, KeepsUp, IsOld;
    if messages != [] {
      var before, last := messages[..|messages| - 1], messages[|messages| - 1];
      OldNewsChangesNothing(b, known, before);
      assert messages == before + [last];
      HandleKeepsUp(Deliver(b, before), High(known, before), known, before, last);
      if IsOld(High(known, before), last) {
        OldNewsIgnored(Deliver(b, before), High(known, before), last);
        assert News(known, messages) == News(known, before);
      } else {
        DeliverSnoc(b, News(known, before), last);
      }
    }
  }

  lemma DeliverSnoc(b: Book, messages: seq<Message>, m: Message)
    ensures Deliver(b, messages + [m]) == Handle(Deliver(b, messages), m)
  {
    hide Handle;
    assert (messages + [m])[..|messages|] == messages;
  }

  // -- which deliveries keep a book synchronised ------------------------------------

  // Updates only, each sent against the version before its own.
  predicate Updates(messages: seq<Message>) {
    forall m :: m in messages ==> m.Delta? && m.delta.sequence.Some? && m.delta.prev == Some(m.delta.sequence.value - 1)
  }

  // What is new comes without a hole: versions a+1, a+2 and so on.
  predicate Unbroken(a: int, news: seq<Message>) {
    forall i :: 0 <= i < |news| ==> news[i].Delta? && news[i].delta.sequence == Some(a + 1 + i)
  }

  // Whatever updates arrive, in whatever order and however often, a book
  // synchronised at version `a` stays synchronised exactly when what is new
  // among them comes without a hole, and then stands at the last of it.
  lemma {:induction false} SynchronisedIffUnbroken(b: Book, a: int, messages: seq<Message>)
    requires b.synced && b.sequence == Some(a) && Updates(messages)
    ensures Deliver(b, messages).synced <==> Unbroken(a, News(Some(a), messages))
    ensures Deliver(b, messages).synced ==>
      Deliver(b, messages).sequence == High(Some(a), messages) == Some(a + |News(Some(a), messages)|)
  {
    hide AfterDelta, Unbroken;
    if messages == [] {
      NothingBroken(a);
    } else {
      var before, last := messages[..|messages| - 1], messages[|messages| - 1];
      assert last in messages && forall m :: m in before ==> m in messages;
      SynchronisedIffUnbroken(b, a, before);
      var news := News(Some(a), before);
      UnbrokenSnoc(a, news, last);
      assert News(Some(a), messages) == if IsOld(High(Some(a), before), last) then news else news + [last];
      OneMoreUpdate(Deliver(b, before), a, |news|, High(Some(a), before), last.delta);
    }
  }

  // One more update meets a book in step with what it was told, or one lost.
  lemma OneMoreUpdate(b: Book, a: int, n: nat, high: Option<int>, d: BookDelta)
    requires high.Some? && d.sequence.Some? && d.prev == Some(d.sequence.value - 1)
    requires b.synced ==> b.sequence == high == Some(a + n)
    ensures AfterDelta(b, d).synced <==> b.synced && (d.sequence.value <= high.value || d.sequence.value == a + 1 + n)
    ensures AfterDelta(b, d).synced ==>
      AfterDelta(b, d).sequence == if d.sequence.value <= high.value then high else d.sequence
  {
    hide Kept, PutAll;
  }

  lemma NothingBroken(a: int)
    ensures Unbroken(a, [])
  {
  }

  lemma UnbrokenSnoc(a: int, news: seq<Message>, m: Message)
    ensures Unbroken(a, news + [m]) <==>
      Unbroken(a, news) && m.Delta? && m.delta.sequence == Some(a + 1 + |news|)
  {
    var more := news + [m];
    assert more[|news|] == m && forall i :: 0 <= i < |news| ==> more[i] == news[i];
  }

  // The updates of versions a+1 to n that were sent: a quiet step sends none.
  ghost function Sent(history: seq<Sides>, deltas: seq<BookDelta>, a: nat, n: nat): (r: seq<Message>)
    requires a <= n < |history| == |deltas|
    decreases n
  {
    if n == a then []
    else Sent(history, deltas, a, n - 1) + if Quiet(history, n) then [] else [Delta(deltas[n])]
  }

  lemma {:induction false} InOrderIsDelivery(b: Book, history: seq<Sides>, deltas: seq<BookDelta>, a: nat, n: nat)
    requires a <= n < |history| == |deltas|
    ensures InOrder(b, history, deltas, a, n) == Deliver(b, Sent(history, deltas, a, n))
    decreases n
  {
    hide Quiet, AfterDelta;
    if n > a {
      InOrderIsDelivery(b, history, deltas, a, n - 1);
      var before := Sent(history, deltas, a, n - 1);
      if Quiet(history, n) {
        assert before + [] == before;
      } else {
        DeliverSnoc(b, before, Delta(deltas[n]));
      }
    }
  }

  // The same feed with any repeats and latecomers mixed in: the book ends as it
  // would without them, and so stays synchronised exactly when no change
  // follows a quiet step.
  lemma RepeatsChangeNothingOfAFeed(
    b: Book, history: seq<Sides>, deltas: seq<BookDelta>, a: nat, n: nat, received: seq<Message>)
    requires a <= n < |history| == |deltas|
    requires b.synced && b.sequence == Some(a)
    requires forall v :: a < v <= n ==> deltas[v].sequence == Some(v) && deltas[v].prev == Some(v - 1)
    requires News(Some(a), received) == Sent(history, deltas, a, n)
    ensures Deliver(b, received) == InOrder(b, history, deltas, a, n)
    ensures Deliver(b, received).synced <==> Continues(history, a, n)
  {
    hide Deliver, InOrder, News, Quiet, Kept, PutAll;
    OldNewsChangesNothing(b, Some(a), received);
    InOrderIsDelivery(b, history, deltas, a, n);
    QuietStepsLookLikeLoss(b, history, deltas, a, n);
  }

  // Every message of the generator reaches the book, in order, and still it
  // loses track: the second version is sent whole, the third changes nothing
  // and is not sent, the fourth is sent against the third.
  lemma QuietStepDesynchronises() returns (history: seq<Sides>, messages: seq<Message>)
    ensures |history| == 4 && Quiet(history, 2) && !Quiet(history, 3)
    ensures |messages| == 2 && messages[0].Snap? && messages[0].snapshot.sequence == Some(1)
    ensures messages[1].Delta? && messages[1].delta.sequence == Some(3)
    ensures FitsDepth(history, 25) && forall m :: m in messages ==> Authentic(history, m)
    ensures Deliver(NewBook(25), messages[..1]).synced && !Deliver(NewBook(25), messages).synced
  {
    hide Kept, PutAll, Listed, Lists, Quoted, Resting, Handle, Deliver, Changes;
    var one, two, ask := map[100.0 := 1.0], map[100.0 := 2.0], map[101.0 := 1.0];
    history := [Sides(map[], map[]), Sides(one, ask), Sides(one, ask), Sides(two, ask)];
    var snapshot := BookSnapshot(Some(1), [PriceLevel(100.0, 1.0)], [PriceLevel(101.0, 1.0)]);
    var delta := BookDelta(Some(3), Some(2), [PriceLevel(100.0, 2.0)], []);
    messages := [Snap(snapshot), Delta(delta)];
    WitnessSides(one, two, ask);
    ListsNone();
    ListsOne(snapshot.bids, Resting(one), 100.0, 1.0);
    ListsOne(snapshot.asks, Resting(ask), 101.0, 1.0);
    ListsOne(delta.bids, Changes(one, two), 100.0, 2.0);
    assert history[1] == Sides(one, ask) && history[2] == Sides(one, ask) && history[3] == Sides(two, ask);
    assert Authentic(history, messages[0]) && Authentic(history, messages[1]);
    assert messages[..1] == [Snap(snapshot)];
    DeliverTwo(NewBook(25), Snap(snapshot), Delta(delta));
    GapAfterSnapshot(snapshot, delta);
  }

  lemma DeliverTwo(b: Book, m: Message, n: Message)
    ensures Deliver(b, [m]) == Handle(b, m)
    ensures Deliver(b, [m, n]) == Handle(Handle(b, m), n)
  {
    hide Handle;
    assert [m][..0] == [] && [m, n][..1] == [m];
  }

  lemma GapAfterSnapshot(s: BookSnapshot, d: BookDelta)
    requires s.sequence == Some(1) && d.sequence == Some(3) && d.prev == Some(2)
    ensures Handle(NewBook(25), Snap(s)).synced
    ensures !Handle(Handle(NewBook(25), Snap(s)), Delta(d)).synced
  {
  }

  lemma WitnessSides(one: Ladder, two: Ladder, ask: Ladder)
    requires one == map[100.0 := 1.0] && two == map[100.0 := 2.0] && ask == map[101.0 := 1.0]
    ensures Quoted(one) && Quoted(two) && Quoted(ask)
    ensures Resting(one) == one && Resting(two) == two && Resting(ask) == ask && Resting(map[]) == map[]
    ensures Changes(one, one) == map[] && Changes(ask, ask) == map[] && Changes(one, two) == two
  {
    WholeIsQuoted(one, 100.0, 1);
    WholeIsQuoted(two, 100.0, 2);
    WholeIsQuoted(ask, 101.0, 1);
    hide OnGrid, Quoted;
  }

  lemma WholeIsQuoted(ladder: Ladder, price: real, size: nat)
    requires ladder == map[price := size as real] && price > 0.0
    ensures Quoted(ladder)
  {
    assert size as real * 100000000.0 == (size * 100000000) as real;
  }

  lemma ListsNone()
    ensures Lists([], map[]) && Quoted(map[])
  {
  }

  lemma ListsOne(levels: seq<Level>, ladder: Ladder, price: real, size: real)
    requires ladder == map[price := size] && |levels| == 1 && levels[0].price == price && levels[0].size == size
    ensures Lists(levels, ladder)
  {
  }

  // What was authentic stays so as the generator moves on.
  lemma AuthenticStays(history: seq<Sides>, more: seq<Sides>, m: Message)
    requires Authentic(history, m)
    ensures Authentic(history + more, m)
  {
    hide Lists, Changes, Resting;
    var all := history + more;
    assert forall v :: 0 <= v < |history| ==> all[v] == history[v];
  }

  // -- asking for a snapshot -----------------------------------------------------------

  // Updates that turned a synchronised book unsynchronised.
  function LossesSeen(b: Book, messages: seq<Message>): (n: nat) {
    if messages == [] then 0
    else
      var before, last := messages[..|messages| - 1], messages[|messages| - 1];
      LossesSeen(b, before)
      + if last.Delta? && Deliver(b, before).synced && !Deliver(b, messages).synced then 1 else 0
  }

  // A snapshot has arrived, or news of a disconnect.
  predicate Begun(messages: seq<Message>) {
    exists m :: m in messages && !m.Delta?
  }

  // Whatever is delivered to a new book, it asks for a snapshot exactly while it
  // has lost one it had, or been told of a disconnect, since the last snapshot;
  // and it has counted every update it lost track on.
  lemma {:induction false} ResyncAskedForLosses(depth: nat, messages: seq<Message>)
    ensures var b := Deliver(NewBook(depth), messages);
      && (b.needsResync <==> !b.synced && Begun(messages)) && (b.synced ==> Begun(messages))
      && b.gaps == LossesSeen(NewBook(depth), messages)
  {
    hide Handle;
    if messages != [] {
      var before, last := messages[..|messages| - 1], messages[|messages| - 1];
      ResyncAskedForLosses(depth, before);
      BegunSnoc(before, last);
      assert messages == before + [last];
      OneMoreLoss(Deliver(NewBook(depth), before), last);
    }
  }

  lemma BegunSnoc(messages: seq<Message>, m: Message)
    ensures Begun(messages + [m]) <==> Begun(messages) || !m.Delta?
  {
    assert m in messages + [m];
  }

  lemma OneMoreLoss(b: Book, m: Message)
    requires b.needsResync ==> !b.synced
    ensures var r := Handle(b, m);
      && (m.Delta? ==> (r.needsResync <==> b.needsResync || (b.synced && !r.synced)) && (r.synced ==> b.synced))
      && (!m.Delta? ==> (r.synced <==> m.Snap?) && (r.needsResync <==> !r.synced))
      && r.gaps == b.gaps + if m.Delta? && b.synced && !r.synced then 1 else 0
  {
    hide Kept, PutAll, Listed;
  }

  // An update without a number always applies to a synchronised book, which
  // keeps its place.
  lemma UnnumberedUpdatesApply(b: Book, d: BookDelta)
    requires b.synced && d.sequence.None?
    ensures var r := AfterDelta(b, d);
      && r.synced && r.sequence == b.sequence && !Receive(b, d).Raises() && r.updates == b.updates + 1
      && (|PutAll(b.bids, d.bids)| <= b.maxDepth ==> r.bids == PutAll(b.bids, d.bids))
      && (|PutAll(b.asks, d.asks)| <= b.maxDepth ==> r.asks == PutAll(b.asks, d.asks))
  {
    hide Kept, PutAll;
    if |PutAll(b.bids, d.bids)| <= b.maxDepth {
      KeptWhole(PutAll(b.bids, d.bids), b.maxDepth, Buy);
    }
    if |PutAll(b.asks, d.asks)| <= b.maxDepth {
      KeptWhole(PutAll(b.asks, d.asks), b.maxDepth, Sell);
    }
  }

  // -- the generator -------------------------------------------------------------

  predicate IsDue(step: nat, every: nat)
    requires every > 0
  {
    step % every == 0
  }

  // What was sent is, version by version after `base`, a snapshot when one is
  // due, otherwise an update unless the version is quiet, and nothing else.
  ghost predicate Emitted(sent: seq<Message>, history: seq<Sides>, base: nat, n: nat, step: nat, every: nat)
    requires base + n < |history| && every > 0
    decreases n
  {
    if n == 0 then sent == []
    else if !IsDue(step + n - 1, every) && Quiet(history, base + n) then Emitted(sent, history, base, n - 1, step, every)
    else
      && sent != []
      && Carries(sent[|sent| - 1], base + n, IsDue(step + n - 1, every))
      && Emitted(sent[..|sent| - 1], history, base, n - 1, step, every)
  }

  // The message is of that version, and a snapshot or an update as asked.
  predicate Carries(m: Message, version: int, snapshot: bool) {
    if snapshot then m.Snap? && m.snapshot.sequence == Some(version) else m.Delta? && m.delta.sequence == Some(version)
  }

  lemma {:induction false} EmittedStays(
    sent: seq<Message>, history: seq<Sides>, more: seq<Sides>, base: nat, n: nat, step: nat, every: nat)
    requires base + n < |history| && every > 0 && Emitted(sent, history, base, n, step, every)
    ensures Emitted(sent, history + more, base, n, step, every)
    decreases n
  {
    hide Changes, IsDue, Carries;
    if n > 0 {
      if !IsDue(step + n - 1, every) && Quiet(history, base + n) {
        EmittedStays(sent, history, more, base, n - 1, step, every);
      } else {
        EmittedStays(sent[..|sent| - 1], history, more, base, n - 1, step, every);
      }
    }
  }

  lemma NothingEmitted(history: seq<Sides>, base: nat, step: nat, every: nat)
    requires base < |history| && every > 0
    ensures Emitted([], history, base, 0, step, every)
  {
  }

  // One more step, whatever it sent.
  lemma OneMoreEmitted(
    sent: seq<Message>, out: seq<Message>, history: seq<Sides>, next: Sides, base: nat, n: nat, step: nat, every: nat)
    requires every > 0 && |history| == base + n + 1 && Emitted(sent, history, base, n, step, every)
    requires var due, quiet := IsDue(step + n, every), Quiet(history + [next], base + n + 1);
      if !due && quiet then out == [] else |out| == 1 && Carries(out[0], base + n + 1, due)
    ensures Emitted(sent + out, history + [next], base, n + 1, step, every)
  {
    hide Quiet, IsDue, Carries;
    EmittedStays(sent, history, [next], base, n, step, every);
    if out == [] {
      assert sent + out == sent;
    } else {
      assert (sent + out)[..|sent + out| - 1] == sent;
    }
  }

  // The last of the first `n` steps a snapshot was due on; 0 when none was.
  function LastDue(n: nat, step: nat, every: nat): (k: nat)
    requires every > 0
    ensures k <= n && (k == n <==> n == 0 || IsDue(step + n - 1, every))
  {
    if n == 0 || IsDue(step + n - 1, every) then n else LastDue(n - 1, step, every)
  }

  // The last of the first `n` steps anything was sent on; 0 when nothing was.
  ghost function LastSent(history: seq<Sides>, base: nat, n: nat, step: nat, every: nat): (k: nat)
    requires base + n < |history| && every > 0
    ensures k <= n && (k == n <==> n == 0 || IsDue(step + n - 1, every) || !Quiet(history, base + n))
  {
    if n == 0 || IsDue(step + n - 1, every) || !Quiet(history, base + n) then n
    else LastSent(history, base, n - 1, step, every)
  }

  // A change follows a quiet step.
  ghost predicate Spoils(history: seq<Sides>, base: nat, v: int)
    requires 0 < v && base + v + 1 < |history|
  {
    Quiet(history, base + v) && !Quiet(history, base + v + 1)
  }

  // Since the last snapshot no change has followed a quiet step.
  ghost predicate Unspoiled(history: seq<Sides>, base: nat, n: nat, step: nat, every: nat)
    requires base + n < |history| && every > 0
  {
    forall v :: LastDue(n, step, every) < v < n ==> !Spoils(history, base, v)
  }

  lemma UnspoiledStep(history: seq<Sides>, base: nat, n: nat, step: nat, every: nat)
    requires 0 < n && base + n < |history| && every > 0
    ensures IsDue(step + n - 1, every) ==> Unspoiled(history, base, n, step, every)
    ensures !IsDue(step + n - 1, every) ==>
      (Unspoiled(history, base, n, step, every) <==>
        Unspoiled(history, base, n - 1, step, every)
        && (Quiet(history, base + n) || LastSent(history, base, n - 1, step, every) == n - 1))
  {
    hide Quiet, IsDue;
    if !IsDue(step + n - 1, every) {
      assert LastDue(n, step, every) == LastDue(n - 1, step, every);
      if LastDue(n, step, every) < n - 1 {
        assert Spoils(history, base, n - 1) <==> Quiet(history, base + (n - 1)) && !Quiet(history, base + n);
      }
    }
  }

  lemma UnspoiledStart(history: seq<Sides>, base: nat, step: nat, every: nat)
    requires base < |history| && every > 0
    ensures Unspoiled(history, base, 0, step, every) && LastSent(history, base, 0, step, every) == 0
  {
  }

  // All that a generator run sends, delivered without loss to a book in step
  // with where it started: the book is synchronised at the end exactly when no
  // change has followed a quiet step since the last snapshot, and then stands
  // at the last version sent. Every snapshot repairs what a quiet step broke.
  lemma {:induction false} WholeFeedSynchronises(
    b: Book, sent: seq<Message>, history: seq<Sides>, base: nat, n: nat, step: nat, every: nat)
    requires base + n < |history| && every > 0 && b.synced && b.sequence == Some(base)
    requires Emitted(sent, history, base, n, step, every) && forall m :: m in sent ==> Authentic(history, m)
    ensures Deliver(b, sent).synced <==> Unspoiled(history, base, n, step, every)
    ensures Deliver(b, sent).synced ==>
      Deliver(b, sent).sequence == Some(base + LastSent(history, base, n, step, every))
    decreases n
  {
    hide Quiet, IsDue, Unspoiled, LastSent, Handle, Authentic;
    if n == 0 {
      UnspoiledStart(history, base, step, every);
    } else {
      UnspoiledStep(history, base, n, step, every);
      if !IsDue(step + n - 1, every) && Quiet(history, base + n) {
        WholeFeedSynchronises(b, sent, history, base, n - 1, step, every);
        NotSent(history, base, n, step, every);
      } else {
        var before, last := sent[..|sent| - 1], sent[|sent| - 1];
        WholeFeedSynchronises(b, before, history, base, n - 1, step, every);
        assert last in sent;
        OneMoreCarried(Deliver(b, before), last, history, base, n, LastSent(history, base, n - 1, step, every),
                       IsDue(step + n - 1, every));
      }
    }
  }

  lemma NotSent(history: seq<Sides>, base: nat, n: nat, step: nat, every: nat)
    requires 0 < n && base + n < |history| && every > 0 && !IsDue(step + n - 1, every) && Quiet(history, base + n)
    ensures LastSent(history, base, n, step, every) == LastSent(history, base, n - 1, step, every)
  {
  }

  lemma OneMoreCarried(b: Book, m: Message, history: seq<Sides>, base: nat, n: nat, at: nat, due: bool)
    requires 0 < n && at < n && Authentic(history, m) && Carries(m, base + n, due)
    requires b.synced ==> b.sequence == Some(base + at)
    ensures Handle(b, m).synced <==> due || (b.synced && at == n - 1)
    ensures Handle(b, m).synced ==> Handle(b, m).sequence == Some(base + n)
  {
    hide Lists, Changes, Kept, PutAll, Listed;
  }

  class SyntheticBook {
    var bids: Ladder
    var asks: Ladder
    var sequence: nat
    ghost var history: seq<Sides>

    ghost predicate Valid()
      reads this
    {
      && |history| == sequence + 1 && history[sequence] == Sides(bids, asks)
      && forall v :: 0 <= v < |history| ==> Quoted(history[v].bids) && Quoted(history[v].asks)
    }

    constructor ()
      ensures Valid() && history == [Sides(map[], map[])]
    {
      bids, asks, sequence, history := map[], map[], 0, [Sides(map[], map[])];
    }

    // Runs through the given books, sending a snapshot every so many steps.
    method Generate(books: seq<Sides>, step: nat, snapshotEvery: nat) returns (sent: seq<Message>)
      requires Valid() && snapshotEvery > 0
      requires forall i :: 0 <= i < |books| ==> Quoted(books[i].bids) && Quoted(books[i].asks)
      modifies this
      ensures Valid() && history == old(history) + books
      ensures forall m :: m in sent ==> Authentic(history, m)
      ensures Emitted(sent, history, old(sequence), |books|, step, snapshotEvery)
    {
      hide Quoted, Authentic, Emitted, Quiet, Ranked;
      sent := [];
      NothingEmitted(history, sequence, step, snapshotEvery);
      for i := 0 to |books|
        invariant Valid() && history == old(history) + books[..i] && sequence == old(sequence) + i
        invariant forall m :: m in sent ==> Authentic(history, m)
        invariant Emitted(sent, history, old(sequence), i, step, snapshotEvery)
      {
        ghost var before := history;
        var out := NextStep(books[i].bids, books[i].asks, IsDue(step + i, snapshotEvery));
        OneMoreEmitted(sent, out, before, books[i], old(sequence), i, step, snapshotEvery);
        forall m | m in sent ensures Authentic(history, m) {
          AuthenticStays(before, [books[i]], m);
        }
        assert books[..i + 1] == books[..i] + [books[i]];
        sent := sent + out;
      }
      assert books[..|books|] == books;
    }

    // Moves to the next version and sends what a subscriber should know: a
    // full snapshot when one is due, otherwise an update unless nothing
    // changed. Listings run from the touch outwards.
    method NextStep(newBids: Ladder, newAsks: Ladder, emitSnapshot: bool) returns (out: seq<Message>)
      requires Valid() && Quoted(newBids) && Quoted(newAsks)
      modifies this
      ensures Valid() && history == old(history) + [Sides(newBids, newAsks)]
      ensures forall m :: m in out ==> Authentic(history, m) && m.Snap? == emitSnapshot && !m.Disconnect?
      ensures emitSnapshot ==> |out| == 1 && out[0].Snap? && out[0].snapshot.sequence == Some(sequence)
      ensures emitSnapshot ==> Ranked(out[0].snapshot.bids, Buy) && Ranked(out[0].snapshot.asks, Sell)
      ensures !emitSnapshot ==> |out| <= 1 && (out == [] <==> Quiet(history, sequence))
      ensures !emitSnapshot && out != [] ==> out[0].Delta? && out[0].delta.sequence == Some(sequence)
      ensures !emitSnapshot && out != [] ==> Ranked(out[0].delta.bids, Buy) && Ranked(out[0].delta.asks, Sell)
    {
      hide Quoted, Lists, Ranked, Changes, Resting, Sane;
      SaneSides(bids, newBids);
      SaneSides(asks, newAsks);
      var bidChanges := Diff(bids, newBids);
      var askChanges := Diff(asks, newAsks);
      var prevSequence := sequence;
      sequence, bids, asks, history := sequence + 1, newBids, newAsks, history + [Sides(newBids, newAsks)];
      if emitSnapshot {
        var bidLevels := LevelsOf(Resting(bids), Buy);
        var askLevels := LevelsOf(Resting(asks), Sell);
        return [Snap(BookSnapshot(Some(sequence), bidLevels, askLevels))];
      }
      if bidChanges == map[] && askChanges == map[] {
        return [];
      }
      var bidLevels := LevelsOf(bidChanges, Buy);
      var askLevels := LevelsOf(askChanges, Sell);
      return [Delta(BookDelta(Some(sequence), Some(prevSequence), bidLevels, askLevels))];
    }
  }

  ghost predicate Ranked(levels: seq<Level>, side: Side) {
    forall i, j :: 0 <= i < j < |levels| ==> Nearer(side, levels[i].price, levels[j].price)
  }

  // What changed between two versions of a side.
  method Diff(before: Ladder, after: Ladder) returns (changed: Ladder)
    ensures changed == Changes(before, after)
  {
    changed := Altered(before, after);
    var left := before.Keys;
    while left != {}
      invariant left <= before.Keys
      invariant forall p :: p in changed <==> p in after.Keys + (before.Keys - left) && Changed(before, after, p)
      invariant forall p :: p in changed ==> changed[p] == SizeAt(after, p)
      decreases |left|
    {
      ghost var some := SomeMember(left);
      var p :| p in left;
      left := left - {p};
      if p !in after {
        changed := changed[p := 0.0];
      }
    }
    SameSizes(changed, Changes(before, after));
  }

  // Levels of the new version whose size is new.
  method Altered(before: Ladder, after: Ladder) returns (changed: Ladder)
    ensures forall p :: p in changed <==> p in after && Changed(before, after, p)
    ensures forall p :: p in changed ==> changed[p] == after[p]
  {
    changed := map[];
    var left := after.Keys;
    while left != {}
      invariant left <= after.Keys
      invariant forall p :: p in changed <==> p in after && p !in left && Changed(before, after, p)
      invariant forall p :: p in changed ==> changed[p] == after[p]
      decreases |left|
    {
      ghost var some := SomeMember(left);
      var p :| p in left;
      left := left - {p};
      if Abs((if p in before then before[p] else 0.0) - after[p]) > DIFF_TOLERANCE {
        changed := changed[p := after[p]];
      }
    }
  }

  // A ladder's levels, best first.
  method LevelsOf(ladder: Ladder, side: Side) returns (levels: seq<Level>)
    requires Sane(ladder)
    ensures Lists(levels, ladder) && Ranked(levels, side)
  {
    hide Listing, Lists, Ranked;
    levels := [];
    var rest := ladder;
    ghost var listed: Ladder := map[];
    ListingStarts(ladder, side);
    while rest != map[]
      invariant Listing(ladder, levels, listed, rest, side)
      decreases |rest|
    {
      var best := Nearest(rest, side);
      ListingMoves(ladder, levels, listed, rest, best, side);
      listed := listed[best := rest[best]];
      levels, rest := levels + [PriceLevel(best, rest[best])], rest - {best};
    }
    ListingEnds(ladder, levels, listed, side);
  }

  // `levels` lists what was taken of the ladder so far, nearest the touch first.
  ghost predicate Listing(ladder: Ladder, levels: seq<Level>, listed: Ladder, rest: Ladder, side: Side) {
    Sane(ladder) && Split(ladder, listed, rest, side) && Lists(levels, listed) && Ranked(levels, side)
  }

  lemma ListingStarts(ladder: Ladder, side: Side)
    requires Sane(ladder)
    ensures Listing(ladder, [], map[], ladder, side)
  {
  }

  lemma ListingMoves(ladder: Ladder, levels: seq<Level>, listed: Ladder, rest: Ladder, best: real, side: Side)
    requires Listing(ladder, levels, listed, rest, side) && best in rest
    requires forall q :: q in rest && q != best ==> Nearer(side, best, q)
    ensures best > 0.0 && rest[best] >= 0.0
    ensures Listing(ladder, levels + [PriceLevel(best, rest[best])], listed[best := rest[best]], rest - {best}, side)
  {
    hide Lists, Ranked, Split, Nearer;
    SplitNext(ladder, listed, rest, best, side);
    SplitMoves(ladder, listed, rest, best, side);
    SplitNearer(ladder, listed, rest, side);
    OneMore(levels, listed, PriceLevel(best, rest[best]));
    RankedOneMore(levels, listed, rest, PriceLevel(best, rest[best]), side);
  }

  lemma ListingEnds(ladder: Ladder, levels: seq<Level>, listed: Ladder, side: Side)
    requires Listing(ladder, levels, listed, map[], side)
    ensures Lists(levels, ladder) && Ranked(levels, side)
  {
    hide Lists, Ranked;
    SplitDone(ladder, listed, side);
  }

  lemma SplitNext(ladder: Ladder, listed: Ladder, rest: Ladder, best: real, side: Side)
    requires Split(ladder, listed, rest, side) && best in rest
    ensures best !in listed && best in ladder && rest[best] == ladder[best]
  {
  }

  lemma SplitNearer(ladder: Ladder, listed: Ladder, rest: Ladder, side: Side)
    requires Split(ladder, listed, rest, side)
    ensures forall p, q :: p in listed && q in rest ==> Nearer(side, p, q)
  {
  }

  lemma SplitDone(ladder: Ladder, listed: Ladder, side: Side)
    requires Split(ladder, listed, map[], side)
    ensures listed == ladder
  {
  }

  ghost predicate Sane(ladder: Ladder) {
    forall p :: p in ladder ==> p > 0.0 && ladder[p] >= 0.0
  }

  lemma OneMore(levels: seq<Level>, listed: Ladder, l: Level)
    requires Lists(levels, listed) && l.price !in listed
    ensures Lists(levels + [l], listed[l.price := l.size])
  {
    var more := levels + [l];
    assert more[|levels|] == l;
    forall p | p in listed ensures exists i :: 0 <= i < |more| && more[i].price == p {
      var i :| 0 <= i < |levels| && levels[i].price == p;
      assert more[i] == levels[i];
    }
  }

  lemma RankedOneMore(levels: seq<Level>, listed: Ladder, rest: Ladder, l: Level, side: Side)
    requires Ranked(levels, side) && Lists(levels, listed)
    requires l.price in rest && forall p, q :: p in listed && q in rest ==> Nearer(side, p, q)
    ensures Ranked(levels + [l], side)
  {
  }

  lemma SaneSides(before: Ladder, after: Ladder)
    requires Quoted(before) && Quoted(after)
    ensures Sane(Resting(after)) && Sane(Changes(before, after))
  {
  }
}
