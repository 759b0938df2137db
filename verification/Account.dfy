// PaperAccount: running totals, the unsealed tail of the fill log, and the
// checkpoint its sealed prefix was folded into.
module Accounts {
  import opened Common
  import opened Dedupe
  import opened Execution
  import opened Ledgers
  import opened Positions

  // The value of an account. `lifetime` is every fill ever accepted; the
  // source keeps it only in the recorder.
  datatype Account = Account(
    initial: real, retained: nat, running: Ledger, log: seq<Fill>, checkpoint: Ledger, sealed: nat,
    applied: nat, recent: seq<string>, lifetime: seq<Fill>)

  function NewAccount(initial: real, retained: nat): (a: Account) {
    Account(initial, retained, Opening(initial), [], Opening(initial), 0, 0, [], [])
  }

  function AfterFill(a: Account, f: Fill): (r: Account) {
    if f.fillId in a.recent then a
    else
      a.(running := Step(a.running, f), log := a.log + [f], applied := a.applied + 1,
         recent := Window(a.recent + [f.fillId], a.retained), lifetime := a.lifetime + [f])
  }

  // Folds the first `count` resident fills into the checkpoint.
  function AfterSeal(a: Account, count: nat): (r: Account)
    requires count <= |a.log|
  {
    a.(checkpoint := Replay(a.checkpoint, a.log[..count]), sealed := a.sealed + count, log := a.log[count..])
  }

  // Running state, tail replay and lifetime replay are one and the same ledger.
  ghost predicate AccountInv(a: Account) {
    && a.sealed <= |a.lifetime| == a.applied
    && a.log == a.lifetime[a.sealed..]
    && a.checkpoint == Replay(Opening(a.initial), a.lifetime[..a.sealed])
    && a.running == Replay(Opening(a.initial), a.lifetime)
    && a.recent == Window(IdSeq(a.lifetime), a.retained)
    && Distinct(a.recent)
  }

  lemma NewAccountInv(initial: real, retained: nat)
    ensures AccountInv(NewAccount(initial, retained))
  {
  }

  lemma ApplyFillInv(a: Account, f: Fill)
    requires AccountInv(a)
    ensures AccountInv(AfterFill(a, f))
  {
    hide Replay, Step, Window, IdSeq;
    if f.fillId !in a.recent {
      var r := AfterFill(a, f);
      assert r.lifetime[..a.sealed] == a.lifetime[..a.sealed];
      assert r.lifetime[a.sealed..] == a.log + [f];
      ReplaySnoc(Opening(a.initial), a.lifetime, f);
      RecentSnoc(a.lifetime, f, a.retained);
      DistinctRecent(a.recent, f.fillId, a.retained);
    }
  }

  lemma RecentSnoc(lifetime: seq<Fill>, f: Fill, retained: nat)
    ensures Window(Window(IdSeq(lifetime), retained) + [f.fillId], retained) == Window(IdSeq(lifetime + [f]), retained)
  {
    assert IdSeq(lifetime + [f]) == IdSeq(lifetime) + [f.fillId];
    WindowSnoc(IdSeq(lifetime), retained, f.fillId);
  }

  lemma DistinctRecent(recent: seq<string>, id: string, retained: nat)
    requires Distinct(recent) && id !in recent
    ensures Distinct(recent + [id]) && Distinct(Window(recent + [id], retained))
  {
  }

  lemma RecentDistinct(a: Account)
    requires AccountInv(a)
    ensures Distinct(a.recent)
    ensures forall id :: id !in a.recent ==> Distinct(a.recent + [id])
  {
  }

  lemma SealInv(a: Account, count: nat)
    requires AccountInv(a) && count <= |a.log|
    ensures AccountInv(AfterSeal(a, count))
  {
    hide Replay;
    assert a.lifetime[a.sealed..][..count] == a.lifetime[a.sealed..a.sealed + count];
    assert a.lifetime[..a.sealed] + a.log[..count] == a.lifetime[..a.sealed + count];
    ReplayConcat(Opening(a.initial), a.lifetime[..a.sealed], a.log[..count]);
  }

  // The second opinion of reconciliation: replaying the tail from the
  // checkpoint gives exactly the running ledger.
  lemma TailReplayIsRunning(a: Account)
    requires AccountInv(a)
    ensures Replay(a.checkpoint, a.log) == a.running
  {
    hide Replay;
    assert a.lifetime[..a.sealed] + a.log == a.lifetime;
    ReplayConcat(Opening(a.initial), a.lifetime[..a.sealed], a.log);
  }

  // -- runs -----------------------------------------------------------------

  // Sealing asks for any number of fills; the account seals at most what it holds.
  datatype Op = Credit(fill: Fill) | SealUpTo(count: int)

  function SealCount(a: Account, count: int): (n: nat)
    ensures n <= |a.log|
  {
    if count <= 0 then 0 else if count <= |a.log| then count else |a.log|
  }

  function Do(a: Account, op: Op): (r: Account) {
    match op
    case Credit(f) => AfterFill(a, f)
    case SealUpTo(count) => AfterSeal(a, SealCount(a, count))
  }

  function RunOps(a: Account, ops: seq<Op>): (r: Account) {
    if ops == [] then a else Do(RunOps(a, ops[..|ops| - 1]), ops[|ops| - 1])
  }

  function Deliveries(ops: seq<Op>): (r: seq<Fill>) {
    if ops == [] then []
    else Deliveries(ops[..|ops| - 1]) + match ops[|ops| - 1] case Credit(f) => [f] case SealUpTo(_) => []
  }

  // Sealing is invisible: whatever is sealed and whenever, the running ledger,
  // the tail replay and the lifetime replay are the replay of the accepted
  // deliveries, and no fill is lost between checkpoint and tail.
  lemma {:induction false} SealingIsInvisible(initial: real, retained: nat, ops: seq<Op>)
    ensures var a := RunOps(NewAccount(initial, retained), ops);
      && AccountInv(a)
      && a.initial == initial && a.retained == retained
      && a.lifetime == Accepted(Deliveries(ops), retained)
      && a.running == Replay(a.checkpoint, a.log) == Replay(Opening(initial), Accepted(Deliveries(ops), retained))
      && a.sealed + |a.log| == a.applied
  {
    if ops != [] {
      var before, op := ops[..|ops| - 1], ops[|ops| - 1];
      SealingIsInvisible(initial, retained, before);
      DoKeeps(RunOps(NewAccount(initial, retained), before), Deliveries(before), op);
      DeliveriesSnoc(ops);
    } else {
      NewAccountInv(initial, retained);
    }
    TailReplayIsRunning(RunOps(NewAccount(initial, retained), ops));
  }

  lemma DeliveriesSnoc(ops: seq<Op>)
    requires ops != []
    ensures ops[|ops| - 1].Credit? ==>
      Deliveries(ops) == Deliveries(ops[..|ops| - 1]) + [ops[|ops| - 1].fill]
    ensures ops[|ops| - 1].SealUpTo? ==> Deliveries(ops) == Deliveries(ops[..|ops| - 1])
  {
  }

  lemma DoKeeps(a: Account, stream: seq<Fill>, op: Op)
    requires AccountInv(a) && a.lifetime == Accepted(stream, a.retained)
    ensures var r := Do(a, op);
      && AccountInv(r) && r.initial == a.initial && r.retained == a.retained
      && r.lifetime == if op.Credit? then Accepted(stream + [op.fill], a.retained) else a.lifetime
  {
    hide AccountInv, Replay, Step;
    match op
    case Credit(f) =>
      RecentIsWindow(a);
      ApplyFillInv(a, f);
      assert (stream + [f])[..|stream|] == stream;
    case SealUpTo(count) =>
      SealInv(a, SealCount(a, count));
  }

  lemma RecentIsWindow(a: Account)
    requires AccountInv(a)
    ensures a.recent == Window(IdSeq(a.lifetime), a.retained)
  {
  }

  // The bounded duplicate window is as good as remembering every id, exactly
  // on the streams whose redeliveries come in time.
  lemma BoundedWindowRefines(initial: real, retained: nat, ops: seq<Op>)
    ensures RedeliveredInTime(Deliveries(ops), retained) <==>
      RunOps(NewAccount(initial, retained), ops).lifetime == AcceptedOnce(Deliveries(ops))
    ensures RedeliveredInTime(Deliveries(ops), retained) ==>
      RunOps(NewAccount(initial, retained), ops).running == Replay(Opening(initial), AcceptedOnce(Deliveries(ops)))
  {
    SealingIsInvisible(initial, retained, ops);
    BoundedMemoryRefines(Deliveries(ops), retained);
  }

  // -- the position books ---------------------------------------------------

  ghost predicate Keyed(positions: map<string, PositionState>) {
    forall key :: key in positions ==> positions[key].Key() == key
  }

  function ViewOf(positions: map<string, PositionState>): map<string, Position>
    reads positions.Values
  {
    map key | key in positions :: positions[key].View()
  }

  // Posts one fill to the book, opening the position if it is new.
  method Post(positions: map<string, PositionState>, f: Fill)
    returns (positions': map<string, PositionState>, realized: real)
    requires Keyed(positions)
    modifies positions.Values
    ensures Keyed(positions') && positions'.Keys == positions.Keys + {f.Key()}
    ensures forall key :: key in positions ==> positions'[key] == positions[key]
    ensures f.Key() !in positions ==> fresh(positions'[f.Key()])
    ensures ViewOf(positions') == old(ViewOf(positions))[f.Key() :=
      Posted(PositionAt(old(ViewOf(positions)), f.Key()), f.side, f.quantity, f.price, f.fee)]
    ensures realized == RealizedBy(PositionAt(old(ViewOf(positions)), f.Key()), f.side, f.quantity, f.price)
  {
    hide Posted, RealizedBy;
    var key := f.Key();
    positions' := positions;
    if key !in positions {
      var created := new PositionState(f.venue, f.symbol);
      positions' := positions[key := created];
    }
    var position := positions'[key];
    realized := position.Apply(f.side, f.quantity, f.price, f.fee);
  }

  // Verified totals of a sealed prefix. Its positions are copies: no later
  // fill can reach them.
  datatype LedgerCheckpoint = LedgerCheckpoint(
    fillsSealed: nat, cash: real, realizedPnl: real, feesPaid: real, positions: map<string, Position>)
  {
    function Totals(): (l: Ledger) {
      Ledger(cash, realizedPnl, feesPaid, positions)
    }
  }

  // Replays fills onto copies of a checkpoint's positions.
  method ReplayFrom(c: LedgerCheckpoint, fills: seq<Fill>)
    returns (cash: real, positions: map<string, Position>, realized: real)
    ensures var l := Replay(c.Totals(), fills);
      cash == l.cash && positions == l.positions && realized == l.realized
  {
    cash, positions, realized := c.cash, c.positions, c.realizedPnl;
    for i := 0 to |fills|
      invariant var l := Replay(c.Totals(), fills[..i]);
        cash == l.cash && positions == l.positions && realized == l.realized
    {
      hide Replay, Posted, RealizedBy;
      var f := fills[i];
      assert fills[..i + 1] == fills[..i] + [f];
      ReplaySnoc(c.Totals(), fills[..i], f);
      var p := PositionAt(positions, f.Key());
      realized := realized + RealizedBy(p, f.side, f.quantity, f.price);
      positions := positions[f.Key() := Posted(p, f.side, f.quantity, f.price, f.fee)];
      cash := cash + f.CashDelta();
    }
    assert fills[..|fills|] == fills;
  }

  // The checkpoint that absorbs `prefix`.
  method Folded(c: LedgerCheckpoint, prefix: seq<Fill>) returns (r: LedgerCheckpoint)
    ensures r.Totals() == Replay(c.Totals(), prefix)
    ensures r.fillsSealed == c.fillsSealed + |prefix|
  {
    hide Replay;
    var fees := 0.0;
    for i := 0 to |prefix|
      invariant fees == SumFees(prefix[..i])
    {
      assert prefix[..i + 1] == prefix[..i] + [prefix[i]];
      SumSnoc(prefix[..i], prefix[i]);
      fees := fees + prefix[i].fee;
    }
    assert prefix[..|prefix|] == prefix;
    ReplayFees(c.Totals(), prefix);
    var cash, positions, realized := ReplayFrom(c, prefix);
    r := LedgerCheckpoint(c.fillsSealed + |prefix|, cash, realized, c.feesPaid + fees, positions);
  }

  class PaperAccount {
    const initialBalance: real
    const retainedFills: nat
    var cash: real
    var positions: map<string, PositionState>
    var realizedPnl: real
    var feesPaid: real
    var fillLog: seq<Fill>
    var checkpoint: LedgerCheckpoint
    var fillsApplied: nat
    var applied: set<string>
    var dedupeOrder: seq<string>
    ghost var lifetime: seq<Fill>

    ghost predicate Valid()
      reads this, positions.Values
    {
      && Keyed(positions)
      && applied == (set id | id in dedupeOrder)
      && AccountInv(View())
    }

    ghost function Running(): Ledger
      reads this, positions.Values
    {
      Ledger(cash, realizedPnl, feesPaid, ViewOf(positions))
    }

    ghost function View(): Account
      reads this, positions.Values
    {
      Account(initialBalance, retainedFills, Running(), fillLog, checkpoint.Totals(),
              checkpoint.fillsSealed, fillsApplied, dedupeOrder, lifetime)
    }

    lemma Visible()
      ensures View().log == fillLog && View().retained == retainedFills
      ensures View().running == Running() && View().checkpoint == checkpoint.Totals()
      ensures View().applied == fillsApplied
    {
    }

    constructor (initialBalance: real, retainedFills: nat)
      ensures Valid() && View() == NewAccount(initialBalance, retainedFills)
      ensures positions == map[]
    {
      this.initialBalance, this.retainedFills := initialBalance, retainedFills;
      cash, positions, realizedPnl, feesPaid, fillLog := initialBalance, map[], 0.0, 0.0, [];
      checkpoint := LedgerCheckpoint(0, initialBalance, 0.0, 0.0, map[]);
      fillsApplied, applied, dedupeOrder, lifetime := 0, {}, [], [];
    }

    // Applies a fill once; a fill id still remembered changes nothing.
    method ApplyFill(f: Fill) returns (accepted: bool)
      requires Valid()
      modifies this, positions.Values
      ensures Valid()
      ensures accepted <==> f.fillId !in old(dedupeOrder)
      ensures View() == AfterFill(old(View()), f)
      ensures forall key :: key in positions ==>
        (key in old(positions) && positions[key] == old(positions)[key]) || fresh(positions[key])
    {
      hide AccountInv, Replay, Step, ViewOf, Window, Keyed;
      ghost var before := View();
      ApplyFillInv(before, f);
      if f.fillId in applied {
        return false;
      }
      RecentDistinct(before);
      Remember(f.fillId);
      PostFill(f);
      accepted := true;
    }

    method Remember(id: string)
      requires applied == (set id | id in dedupeOrder) && Distinct(dedupeOrder + [id])
      modifies this`applied, this`dedupeOrder, this`fillsApplied
      ensures dedupeOrder == Window(old(dedupeOrder) + [id], retainedFills)
      ensures applied == set id | id in dedupeOrder
      ensures fillsApplied == old(fillsApplied) + 1
    {
      applied := applied + {id};
      dedupeOrder := dedupeOrder + [id];
      TrimDedupe();
      fillsApplied := fillsApplied + 1;
    }

    // Folds one fill into the running totals.
    method PostFill(f: Fill)
      requires Keyed(positions)
      modifies this`positions, this`cash, this`realizedPnl, this`feesPaid, this`fillLog, this`lifetime, positions.Values
      ensures Keyed(positions)
      ensures fillLog == old(fillLog) + [f] && lifetime == old(lifetime) + [f]
      ensures Running() == Step(old(Running()), f)
      ensures forall key :: key in positions ==>
        (key in old(positions) && positions[key] == old(positions)[key]) || fresh(positions[key])
    {
      hide Posted, RealizedBy, ViewOf, Keyed;
      fillLog, lifetime := fillLog + [f], lifetime + [f];
      var realized;
      positions, realized := Post(positions, f);
      cash, realizedPnl, feesPaid := cash + f.CashDelta(), realizedPnl + realized, feesPaid + f.fee;
    }

    method TrimDedupe()
      requires applied == (set id | id in dedupeOrder) && Distinct(dedupeOrder)
      modifies this`applied, this`dedupeOrder
      ensures dedupeOrder == Window(old(dedupeOrder), retainedFills)
      ensures applied == set id | id in dedupeOrder
    {
      applied, dedupeOrder := Trim(applied, dedupeOrder, retainedFills);
    }

    // The second opinion: the tail replayed from the checkpoint, whatever the
    // running totals say.
    method RecomputeFromFills() returns (cash: real, positions: map<string, Position>, realized: real)
      ensures var l := Replay(View().checkpoint, View().log);
        cash == l.cash && realized == l.realized && positions == l.positions
    {
      hide Replay;
      cash, positions, realized := ReplayFrom(checkpoint, fillLog);
    }

    // Folds a prefix of the tail into the checkpoint; None seals everything.
    method Seal(count: Option<int>) returns (fillsSealed: nat)
      requires Valid()
      modifies this`checkpoint, this`fillLog
      ensures Valid()
      ensures fillsSealed == SealCount(old(View()), if count.None? then |old(fillLog)| else count.value)
      ensures View() == AfterSeal(old(View()), fillsSealed)
    {
      hide AccountInv, Replay, ViewOf;
      var limit := match count case None => |fillLog| case Some(n) => if n <= |fillLog| then n else |fillLog|;
      if limit <= 0 {
        assert fillLog[..0] == [] && fillLog[0..] == fillLog;
        ReplayNone(View().checkpoint);
        return 0;
      }
      SealInv(View(), limit);
      var prefix, tail := fillLog[..limit], fillLog[limit..];
      checkpoint := Folded(checkpoint, prefix);
      fillLog := tail;
      fillsSealed := limit;
    }
  }
}
