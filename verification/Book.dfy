// LocalOrderBook: one venue's book for one symbol, rebuilt from snapshots and
// incremental updates.
module LocalBooks {
  import opened Common
  import opened Costs

  type Ladder = map<real, real>

  datatype BookSnapshot = BookSnapshot(sequence: Option<int>, bids: seq<Level>, asks: seq<Level>)
  datatype BookDelta = BookDelta(sequence: Option<int>, prev: Option<int>, bids: seq<Level>, asks: seq<Level>)

  // The value of a local book.
  datatype Book = Book(
    maxDepth: nat, bids: Ladder, asks: Ladder, sequence: Option<int>, synced: bool,
    gaps: nat, updates: nat, needsResync: bool)

  function NewBook(maxDepth: nat): (b: Book) {
    Book(maxDepth, map[], map[], None, false, 0, 0, false)
  }

  // -- sides ----------------------------------------------------------------

  // One changed level; size zero removes the price.
  function Put(side: Ladder, l: Level): (r: Ladder) {
    if l.size <= 0.0 then side - {l.price} else side[l.price := l.size]
  }

  function PutAll(side: Ladder, changes: seq<Level>): (r: Ladder) {
    if changes == [] then side
    else Put(PutAll(side, changes[..|changes| - 1]), changes[|changes| - 1])
  }

  // The levels a snapshot lists; empty ones are skipped.
  function Listed(levels: seq<Level>): (r: Ladder) {
    if levels == [] then map[]
    else
      var rest, l := Listed(levels[..|levels| - 1]), levels[|levels| - 1];
      if l.size > 0.0 then rest[l.price := l.size] else rest
  }

  // `p` is nearer the touch than `q`.
  predicate Nearer(side: Side, p: real, q: real) {
    if side.Buy? then p > q else p < q
  }

  function Ahead(ladder: Ladder, p: real, side: Side): (prices: set<real>) {
    set q | q in ladder && Nearer(side, q, p)
  }

  // The `depth` levels nearest the touch.
  function Kept(ladder: Ladder, depth: nat, side: Side): (r: Ladder) {
    map p | p in ladder && |Ahead(ladder, p, side)| < depth :: ladder[p]
  }

  // Nothing is trimmed from a side that fits.
  lemma KeptWhole(ladder: Ladder, depth: nat, side: Side)
    requires |ladder| <= depth
    ensures Kept(ladder, depth, side) == ladder
  {
    forall p | p in ladder ensures |Ahead(ladder, p, side)| < depth {
      assert p in ladder.Keys - Ahead(ladder, p, side);
      Subset(Ahead(ladder, p, side) + {p}, ladder.Keys);
    }
  }

  // What is kept of bids is dearer than what is dropped, of asks cheaper.
  lemma KeptIsBest(ladder: Ladder, depth: nat, p: real, q: real)
    ensures p in Kept(ladder, depth, Buy) && q in ladder && q !in Kept(ladder, depth, Buy) ==> p > q
    ensures p in Kept(ladder, depth, Sell) && q in ladder && q !in Kept(ladder, depth, Sell) ==> p < q
  {
    if p in ladder && q in ladder && p <= q {
      Subset(Ahead(ladder, q, Buy), Ahead(ladder, p, Buy));
    }
    if p in ladder && q in ladder && q <= p {
      Subset(Ahead(ladder, q, Sell), Ahead(ladder, p, Sell));
    }
  }

  lemma Subset<T>(a: set<T>, b: set<T>)
    requires a <= b
    ensures |a| <= |b|
  {
    assert b == a + (b - a);
  }

  // -- the operations as functions ------------------------------------------

  function AfterSnapshot(b: Book, s: BookSnapshot): (r: Book) {
    b.(bids := Kept(Listed(s.bids), b.maxDepth, Buy), asks := Kept(Listed(s.asks), b.maxDepth, Sell),
       sequence := s.sequence, synced := true, needsResync := false, updates := b.updates + 1)
  }

  // How an update is received; NotReady and Gap raise.
  datatype Reception = Applied | Stale | NotReady | Gap {
    predicate Raises() {
      NotReady? || Gap?
    }
  }

  function Receive(b: Book, d: BookDelta): (r: Reception) {
    if !b.synced then NotReady
    else if d.sequence.Some? && b.sequence.Some? && d.sequence.value <= b.sequence.value then Stale
    else if d.sequence.Some? && b.sequence.Some? && d.prev.Some? && d.prev != b.sequence then Gap
    else Applied
  }

  function AfterDelta(b: Book, d: BookDelta): (r: Book) {
    match Receive(b, d)
    case Applied =>
      b.(bids := Kept(PutAll(b.bids, d.bids), b.maxDepth, Buy), asks := Kept(PutAll(b.asks, d.asks), b.maxDepth, Sell),
         sequence := if d.sequence.Some? then d.sequence else b.sequence, updates := b.updates + 1)
    case Gap => b.(gaps := b.gaps + 1, synced := false, needsResync := true)
    case _ => b
  }

  function Invalidated(b: Book): (r: Book) {
    b.(synced := false, needsResync := true)
  }

  // -- the class --------------------------------------------------------------

  class LocalOrderBook {
    const maxDepth: nat
    var bids: Ladder
    var asks: Ladder
    var sequence: Option<int>
    var synced: bool
    var sequenceGaps: nat
    var updatesApplied: nat
    var needsResync: bool

    function View(): (b: Book)
      reads this
    {
      Book(maxDepth, bids, asks, sequence, synced, sequenceGaps, updatesApplied, needsResync)
    }

    constructor (maxDepth: nat)
      ensures View() == NewBook(maxDepth)
    {
      this.maxDepth := maxDepth;
      bids, asks, sequence, synced := map[], map[], None, false;
      sequenceGaps, updatesApplied, needsResync := 0, 0, false;
    }

    method ApplySnapshot(s: BookSnapshot)
      modifies this
      ensures View() == AfterSnapshot(old(View()), s)
    {
      bids := Gather(s.bids);
      asks := Gather(s.asks);
      sequence, synced, needsResync := s.sequence, true, false;
      updatesApplied := updatesApplied + 1;
      TrimSides();
    }

    // Applies an incremental update; raises on a sequence gap, and before the
    // first snapshot.
    method ApplyDelta(d: BookDelta) returns (raised: bool)
      modifies this
      ensures raised <==> Receive(old(View()), d).Raises()
      ensures View() == AfterDelta(old(View()), d)
    {
      if !synced {
        return true;
      }
      if d.sequence.Some? && sequence.Some? {
        if d.sequence.value <= sequence.value {
          return false;
        }
        if d.prev.Some? && d.prev != sequence {
          sequenceGaps, synced, needsResync := sequenceGaps + 1, false, true;
          return true;
        }
      }
      bids := Change(bids, d.bids);
      asks := Change(asks, d.asks);
      if d.sequence.Some? {
        sequence := d.sequence;
      }
      updatesApplied := updatesApplied + 1;
      TrimSides();
      return false;
    }

    method Invalidate()
      modifies this`synced, this`needsResync
      ensures View() == Invalidated(old(View()))
    {
      synced, needsResync := false, true;
    }

    method TrimSides()
      modifies this`bids, this`asks
      ensures bids == Kept(old(bids), maxDepth, Buy) && asks == Kept(old(asks), maxDepth, Sell)
    {
      bids := TopLevels(bids, maxDepth, Buy);
      asks := TopLevels(asks, maxDepth, Sell);
    }
  }

  method Gather(levels: seq<Level>) returns (r: Ladder)
    ensures r == Listed(levels)
  {
    r := map[];
    for i := 0 to |levels|
      invariant r == Listed(levels[..i])
    {
      assert levels[..i + 1][..i] == levels[..i];
      if levels[i].size > 0.0 {
        r := r[levels[i].price := levels[i].size];
      }
    }
    assert levels[..|levels|] == levels;
  }

  method Change(side: Ladder, changes: seq<Level>) returns (r: Ladder)
    ensures r == PutAll(side, changes)
  {
    r := side;
    for i := 0 to |changes|
      invariant r == PutAll(side, changes[..i])
    {
      assert changes[..i + 1][..i] == changes[..i];
      r := Put(r, changes[i]);
    }
    assert changes[..|changes|] == changes;
  }

  // Keeps the `depth` levels nearest the touch, best first.
  method TopLevels(ladder: Ladder, depth: nat, side: Side) returns (kept: Ladder)
    ensures kept == Kept(ladder, depth, side)
    ensures |kept| == if |ladder| <= depth then |ladder| else depth
  {
    if |ladder| <= depth {
      KeptWhole(ladder, depth, side);
      return ladder;
    }
    kept := map[];
    var rest := ladder;
    while |kept| < depth
      invariant Split(ladder, kept, rest, side)
      invariant |kept| <= depth
    {
      assert kept.Keys != ladder.Keys;
      var best := Nearest(rest, side);
      SplitMoves(ladder, kept, rest, best, side);
      kept, rest := kept[best := rest[best]], rest - {best};
    }
    SplitIsKept(ladder, kept, rest, side);
  }

  // `kept` are levels of the ladder, all nearer the touch than the `rest`.
  ghost predicate Split(ladder: Ladder, kept: Ladder, rest: Ladder, side: Side) {
    && kept.Keys !! rest.Keys && ladder == kept + rest
    && forall p, q :: p in kept && q in rest ==> Nearer(side, p, q)
  }

  lemma SplitMoves(ladder: Ladder, kept: Ladder, rest: Ladder, best: real, side: Side)
    requires Split(ladder, kept, rest, side) && best in rest
    requires forall q :: q in rest && q != best ==> Nearer(side, best, q)
    ensures Split(ladder, kept[best := rest[best]], rest - {best}, side)
    ensures |kept[best := rest[best]]| == |kept| + 1
  {
    hide Nearer;
    var more := kept[best := rest[best]];
    MovedUnion(ladder, kept, rest, best);
    assert more.Keys == kept.Keys + {best};
    assert |more.Keys| == |kept.Keys| + 1;
  }

  lemma MovedUnion(ladder: Ladder, kept: Ladder, rest: Ladder, best: real)
    requires ladder == kept + rest && kept.Keys !! rest.Keys && best in rest
    ensures ladder == kept[best := rest[best]] + (rest - {best})
  {
  }

  lemma SplitIsKept(ladder: Ladder, kept: Ladder, rest: Ladder, side: Side)
    requires Split(ladder, kept, rest, side)
    ensures kept == Kept(ladder, |kept|, side)
  {
    hide Ahead;
    forall p | p in ladder ensures p in kept <==> |Ahead(ladder, p, side)| < |kept| {
      if p in kept {
        KeptAhead(ladder, kept, rest, p, side);
      } else {
        RestBehind(ladder, kept, rest, p, side);
      }
    }
  }

  // Only other kept levels are nearer than a kept one.
  lemma KeptAhead(ladder: Ladder, kept: Ladder, rest: Ladder, p: real, side: Side)
    requires Split(ladder, kept, rest, side) && p in kept
    ensures |Ahead(ladder, p, side)| < |kept|
  {
    var ahead := Ahead(ladder, p, side);
    assert ahead <= kept.Keys - {p};
    Subset(ahead, kept.Keys - {p});
  }

  // Every kept level is nearer than one of the rest.
  lemma RestBehind(ladder: Ladder, kept: Ladder, rest: Ladder, p: real, side: Side)
    requires Split(ladder, kept, rest, side) && p in rest
    ensures |kept| <= |Ahead(ladder, p, side)|
  {
    Subset(kept.Keys, Ahead(ladder, p, side));
  }

  lemma SomeMember<T>(s: set<T>) returns (x: T)
    requires s != {}
    ensures x in s
  {
    x :| x in s;
  }

  method Nearest(rest: Ladder, side: Side) returns (best: real)
    requires rest != map[]
    ensures best in rest && forall q :: q in rest && q != best ==> Nearer(side, best, q)
  {
    var left := rest.Keys;
    ghost var any := SomeMember(left);
    best :| best in left;
    left := left - {best};
    while left != {}
      invariant best in rest && left <= rest.Keys
      invariant forall q :: q in rest && q !in left && q != best ==> Nearer(side, best, q)
      decreases |left|
    {
      ghost var another := SomeMember(left);
      var p :| p in left;
      left := left - {p};
      if Nearer(side, p, best) {
        best := p;
      }
    }
  }
}
