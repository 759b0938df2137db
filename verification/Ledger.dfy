// The replayable ledger: cash, realised P&L, fees and positions as a fold of fills.
module Ledgers {
  import opened Common
  import opened Execution
  import opened Positions
  import opened Totals

  datatype Ledger = Ledger(cash: real, realized: real, fees: real, positions: map<string, Position>)

  function Opening(balance: real): (l: Ledger) {
    Ledger(balance, 0.0, 0.0, map[])
  }

  function PositionAt(positions: map<string, Position>, key: string): (p: Position) {
    if key in positions then positions[key] else FLAT_POSITION
  }

  // One fill folded into a ledger.
  function Step(l: Ledger, f: Fill): (r: Ledger) {
    var p := PositionAt(l.positions, f.Key());
    Ledger(
      l.cash + f.CashDelta(),
      l.realized + RealizedBy(p, f.side, f.quantity, f.price),
      l.fees + f.fee,
      l.positions[f.Key() := Posted(p, f.side, f.quantity, f.price, f.fee)])
  }

  function Replay(l: Ledger, fills: seq<Fill>): (r: Ledger) {
    if fills == [] then l else Step(Replay(l, fills[..|fills| - 1]), fills[|fills| - 1])
  }

  lemma ReplayNone(l: Ledger)
    ensures Replay(l, []) == l
  {
  }

  lemma ReplaySnoc(l: Ledger, fills: seq<Fill>, f: Fill)
    ensures Replay(l, fills + [f]) == Step(Replay(l, fills), f)
  {
    assert (fills + [f])[..|fills|] == fills;
  }

  // Replaying a tail from a checkpoint of its prefix is replaying the whole log.
  lemma {:induction false} ReplayConcat(l: Ledger, a: seq<Fill>, b: seq<Fill>)
    ensures Replay(l, a + b) == Replay(Replay(l, a), b)
    decreases |b|
  {
    if b == [] {
      assert a + b == a;
    } else {
      var last := |b| - 1;
      assert (a + b)[..|a + b| - 1] == a + b[..last];
      ReplayConcat(l, a, b[..last]);
    }
  }

  lemma {:induction false} ReplayFees(l: Ledger, fills: seq<Fill>)
    ensures Replay(l, fills).fees == l.fees + SumFees(fills)
  {
    if fills != [] {
      ReplayFees(l, fills[..|fills| - 1]);
    }
  }

  // -- conservation ---------------------------------------------------------

  // Cash plus what the open positions cost, against initial plus realised minus fees.
  function BasisOf(p: Position): (r: Tally) {
    Tally(1, p.Basis())
  }

  ghost function Imbalance(l: Ledger, initial: real): real {
    l.cash + Total(l.positions, BasisOf).amount - (initial + l.realized - l.fees)
  }

  function ResidueOf(l: Ledger, f: Fill): (r: real) {
    Residue(PositionAt(l.positions, f.Key()), f.side, f.quantity, f.price)
  }

  // The value lost to flat-snapping over a whole log.
  function LogResidue(l: Ledger, fills: seq<Fill>): (r: real) {
    if fills == [] then 0.0
    else
      var before := fills[..|fills| - 1];
      LogResidue(l, before) + ResidueOf(Replay(l, before), fills[|fills| - 1])
  }

  lemma StepImbalance(l: Ledger, f: Fill, initial: real)
    ensures Imbalance(Step(l, f), initial) == Imbalance(l, initial) + ResidueOf(l, f)
  {
    hide Total, Posted, RealizedBy, Residue, Position.Basis, PositionAt;
    UnheldCostsNothing(l.positions, f.Key());
    var p := PositionAt(l.positions, f.Key());
    var q := Posted(p, f.side, f.quantity, f.price, f.fee);
    TotalUpdate(l.positions, BasisOf, f.Key(), q);
    BasisBalance(p, f.side, f.quantity, f.price, f.fee);
  }

  lemma UnheldCostsNothing(positions: map<string, Position>, key: string)
    ensures if key in positions then BasisOf(PositionAt(positions, key)) == BasisOf(positions[key])
      else BasisOf(PositionAt(positions, key)).amount == 0.0
  {
  }

  // Exact conservation: money only ever leaves the identity through the residues.
  lemma {:induction false} Conservation(initial: real, fills: seq<Fill>)
    ensures Imbalance(Replay(Opening(initial), fills), initial) == LogResidue(Opening(initial), fills)
  {
    if fills != [] {
      var before := fills[..|fills| - 1];
      Conservation(initial, before);
      StepImbalance(Replay(Opening(initial), before), fills[|fills| - 1], initial);
    }
  }

  predicate PricedWithin(fills: seq<Fill>, cap: real) {
    forall f :: f in fills ==> f.price <= cap
  }

  ghost predicate SaneLedger(l: Ledger, cap: real) {
    forall key :: key in l.positions ==> Sane(l.positions[key], cap)
  }

  // No reachable position has a negative average cost, one above twice the
  // dearest fill, or dust with a cost: the schema's validator never fires.
  lemma {:induction false} ReplaySane(initial: real, fills: seq<Fill>, cap: real)
    requires cap >= 0.0 && PricedWithin(fills, cap)
    ensures SaneLedger(Replay(Opening(initial), fills), cap)
  {
    if fills != [] {
      var before, f := fills[..|fills| - 1], fills[|fills| - 1];
      ReplaySane(initial, before, cap);
      SaneKept(PositionAt(Replay(Opening(initial), before).positions, f.Key()),
               f.side, f.quantity, f.price, f.fee, cap);
    }
  }

  // What one fill priced at most `cap` can lose to flat-snapping.
  function FillTolerance(cap: real): (r: real) {
    2.0 * FLAT_EPSILON * cap
  }

  // After n fills priced at most `cap` the identity is off by at most 2 * n * FLAT_EPSILON * cap.
  lemma {:induction false} ConservationBound(initial: real, fills: seq<Fill>, cap: real)
    requires cap >= 0.0 && PricedWithin(fills, cap)
    ensures Abs(Imbalance(Replay(Opening(initial), fills), initial)) <= |fills| as real * FillTolerance(cap)
  {
    hide Imbalance, FillTolerance;
    Conservation(initial, fills);
    LogResidueBound(initial, fills, cap);
  }

  lemma LogResidueBound(initial: real, fills: seq<Fill>, cap: real)
    requires cap >= 0.0 && PricedWithin(fills, cap)
    ensures Abs(LogResidue(Opening(initial), fills)) <= |fills| as real * FillTolerance(cap)
  {
    hide ResidueOf, FillTolerance, Replay, LogResidue, Repeated, PricedWithin;
    var unit := FillTolerance(cap);
    forall i | 0 <= i < |fills|
      ensures Abs(ResidueOf(Replay(Opening(initial), fills[..i]), fills[i])) <= unit
    {
      EachResidueBound(initial, fills, cap, i);
    }
    SumOfBounded(Opening(initial), fills, unit);
    RepeatedIsProduct(|fills|, unit);
  }

  lemma EachResidueBound(initial: real, fills: seq<Fill>, cap: real, i: nat)
    requires cap >= 0.0 && PricedWithin(fills, cap) && i < |fills|
    ensures Abs(ResidueOf(Replay(Opening(initial), fills[..i]), fills[i])) <= FillTolerance(cap)
  {
    hide ResidueOf;
    ReplaySane(initial, fills[..i], cap);
    StepResidueBound(Replay(Opening(initial), fills[..i]), fills[i], cap);
  }

  // n * unit, as repeated addition.
  function Repeated(n: nat, unit: real): (r: real) {
    if n == 0 then 0.0 else Repeated(n - 1, unit) + unit
  }

  lemma {:induction false} RepeatedIsProduct(n: nat, unit: real)
    ensures Repeated(n, unit) == n as real * unit
  {
    if n > 0 {
      RepeatedIsProduct(n - 1, unit);
      var m := (n - 1) as real;
      assert n as real == m + 1.0;
      assert (m + 1.0) * unit == m * unit + unit;
    }
  }

  lemma {:induction false} SumOfBounded(l: Ledger, fills: seq<Fill>, unit: real)
    requires forall i :: 0 <= i < |fills| ==> Abs(ResidueOf(Replay(l, fills[..i]), fills[i])) <= unit
    ensures Abs(LogResidue(l, fills)) <= Repeated(|fills|, unit)
  {
    hide ResidueOf;
    if fills != [] {
      var before := fills[..|fills| - 1];
      forall i | 0 <= i < |before|
        ensures Abs(ResidueOf(Replay(l, before[..i]), before[i])) <= unit
      {
        assert before[..i] == fills[..i];
      }
      SumOfBounded(l, before, unit);
    }
  }

  lemma StepResidueBound(l: Ledger, f: Fill, cap: real)
    requires SaneLedger(l, cap) && f.price <= cap
    ensures Abs(ResidueOf(l, f)) <= FillTolerance(cap)
  {
    ResidueBound(PositionAt(l.positions, f.Key()), f.side, f.quantity, f.price, cap);
  }

  // The fill opens to, rests in, or closes into (without reaching zero) the flat band.
  predicate LandsInDust(l: Ledger, f: Fill) {
    var q := PositionAt(l.positions, f.Key()).quantity;
    var after := q + f.SignedQuantity();
    if Increases(q, f.SignedQuantity()) then Abs(after) <= FLAT_EPSILON
    else 0.0 < Abs(after) < FLAT_EPSILON
  }

  // With no fill landing in dust the identity is exact.
  lemma {:induction false} ConservationExact(initial: real, fills: seq<Fill>)
    requires forall i :: 0 <= i < |fills| ==> !LandsInDust(Replay(Opening(initial), fills[..i]), fills[i])
    ensures Imbalance(Replay(Opening(initial), fills), initial) == 0.0
  {
    Conservation(initial, fills);
    NoDustNoResidue(initial, fills);
  }

  lemma {:induction false} NoDustNoResidue(initial: real, fills: seq<Fill>)
    requires forall i :: 0 <= i < |fills| ==> !LandsInDust(Replay(Opening(initial), fills[..i]), fills[i])
    ensures LogResidue(Opening(initial), fills) == 0.0
  {
    if fills != [] {
      var before := fills[..|fills| - 1];
      forall i | 0 <= i < |before|
        ensures !LandsInDust(Replay(Opening(initial), before[..i]), before[i])
      {
        assert before[..i] == fills[..i];
      }
      NoDustNoResidue(initial, before);
      NoResidue(Replay(Opening(initial), before), fills[|fills| - 1]);
    }
  }

  lemma NoResidue(l: Ledger, f: Fill)
    requires !LandsInDust(l, f)
    ensures ResidueOf(l, f) == 0.0
  {
    var p := PositionAt(l.positions, f.Key());
    if p.quantity + f.SignedQuantity() == 0.0 {
      assert -0.0 * f.price == 0.0 && -0.0 * p.entry == 0.0;
    }
  }
}
