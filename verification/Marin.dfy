// MARIN: the reconciler, working on the live account and order manager.
module MarinAgent {
  import opened Accounts
  import opened Common
  import opened Execution
  import opened Ledgers
  import opened Orders
  import opened Reconciliation
  import opened Totals

  method PulledBack(log: seq<Fill>, start: nat, straddling: set<string>) returns (boundary: nat)
    requires start <= |log|
    ensures boundary == PullBack(log, start, straddling)
  {
    boundary := start;
    while boundary > 0 && log[boundary - 1].orderId in straddling
      invariant boundary <= start
      invariant PullBack(log, start, straddling) == PullBack(log, boundary, straddling)
    {
      boundary := boundary - 1;
    }
  }

  class Marin {
    const oms: OrderManager
    const account: PaperAccount
    var runs: nat
    var lastOk: Option<bool>
    var fillsSealed: nat
    var ordersArchived: nat

    constructor (oms: OrderManager, account: PaperAccount)
      ensures this.oms == oms && this.account == account
      ensures runs == 0 && lastOk == None && fillsSealed == 0 && ordersArchived == 0
    {
      this.oms, this.account := oms, account;
      runs, lastOk, fillsSealed, ordersArchived := 0, None, 0, 0;
    }

    ghost predicate Valid()
      reads this, oms, oms.orders.Values, account, account.positions.Values
    {
      oms.Valid() && account.Valid()
    }

    ghost function View(): Sys
      reads oms, oms.orders.Values, account, account.positions.Values
    {
      Sys(oms.View(), account.View())
    }

    // How much of the fill log can leave memory.
    method FindSealBoundary() returns (boundary: nat)
      ensures boundary == SealBoundary(account.fillLog, Orders.ViewOf(oms.orders))
    {
      hide TerminalPrefix, Orders.ViewOf;
      var log := account.fillLog;
      boundary := TerminalRun(log, oms.orders);
      if boundary == 0 {
        return;
      }
      var straddling := set f | f in log[boundary..] :: f.orderId;
      boundary := PulledBack(log, boundary, straddling);
    }

    // Compares the running account, its replay and the order manager; reports
    // every disagreement, and is ok when none of them is critical.
    method Reconcile() returns (mismatches: seq<Mismatch>, ok: bool)
      modifies this`runs, this`lastOk
      ensures forall m :: m in mismatches <==> Found(View(), m)
      ensures ok <==> ReconcileOk(View())
      ensures runs == old(runs) + 1 && lastOk == Some(ok)
    {
      hide Found, OrderManager.View, PaperAccount.View;
      mismatches := FindAll();
      ok := forall m | m in mismatches :: !m.IsCritical();
      runs, lastOk := runs + 1, Some(ok);
    }

    method FindAll() returns (found: seq<Mismatch>)
      ensures forall m :: m in found <==> Found(View(), m)
    {
      hide Found, View;
      var fills := FindFillMismatches();
      var totals := FindTotalMismatches();
      var positions := FindPositionMismatches();
      var orders := FindOrderMismatches();
      found := fills + totals + positions + orders;
      forall m: Mismatch ensures m in found <==> Found(View(), m) {
        assert m in found <==> m in fills || m in totals || m in positions || m in orders;
        EveryKind(m.kind);
      }
    }

    // Fill sets in both directions, and lifetime counts.
    method FindFillMismatches() returns (found: seq<Mismatch>)
      ensures forall m :: m in found <==>
        m.kind in {MissingFill, UnknownFill, CountMismatch} && Found(View(), m)
    {
      hide Replay, OmsFillIds, FillIdsOf, Ids;
      oms.Visible();
      account.Visible();
      LiveFillIds(oms.orders, oms.View());
      var omsIds, accountIds := FillIdsOf(oms.orders), Ids(account.fillLog);
      found := ReportAll([], MissingFill, omsIds - accountIds);
      found := ReportAll(found, UnknownFill, accountIds - omsIds);
      found := ReportIf(found, CountMismatch, "fills_applied", oms.fillsApplied != account.fillsApplied);
    }

    // Cash, realised P&L and fees against the replayed tail.
    method FindTotalMismatches() returns (found: seq<Mismatch>)
      ensures forall m :: m in found <==>
        m.kind in {CashMismatch, PnlMismatch, FeeMismatch} && Found(View(), m)
    {
      hide Replay, FillsById, FeeOf;
      account.Visible();
      var cash, positions, realized := account.RecomputeFromFills();
      var tail := FeesOf(FillsById(account.fillLog));
      found := ReportIf([], CashMismatch, "cash", Abs(cash - account.cash) > MONEY_EPSILON);
      found := ReportIf(found, PnlMismatch, "realized_pnl", Abs(realized - account.realizedPnl) > MONEY_EPSILON);
      found := ReportIf(found, FeeMismatch, "fees",
        Abs(account.checkpoint.feesPaid + tail - account.feesPaid) > MONEY_EPSILON);
    }

    // Positions, key by key.
    method FindPositionMismatches() returns (found: seq<Mismatch>)
      ensures forall m :: m in found <==> m.kind == PositionMismatch && Found(View(), m)
    {
      hide Replay, Misplaced;
      account.Visible();
      var cash, positions, realized := account.RecomputeFromFills();
      found := ReportAll([], PositionMismatch, Misplaced(positions, Accounts.ViewOf(account.positions)));
    }

    // Order bookkeeping, and orders whose state is unknown.
    method FindOrderMismatches() returns (found: seq<Mismatch>)
      ensures forall m :: m in found <==>
        m.kind in {OrderQuantity, FilledWithRemainder, Unresolved} && Found(View(), m)
    {
      hide Misfilled, Unfinished, Unsettled;
      oms.Visible();
      var orders := Orders.ViewOf(oms.orders);
      found := ReportAll([], OrderQuantity, Misfilled(orders));
      found := ReportAll(found, FilledWithRemainder, Unfinished(orders));
      found := ReportAll(found, Unresolved, Unsettled(orders));
    }

    // One scheduled run: reconcile, and compact only what reconciled.
    method Run() returns (ok: bool)
      requires Valid()
      modifies this, account`checkpoint, account`fillLog, oms`orders, oms`archived
      ensures Valid() && ok == ReconcileOk(old(View()))
      ensures View() == if ok then AfterCompaction(old(View())) else old(View())
      ensures runs == old(runs) + 1 && lastOk == Some(ok)
      ensures fillsSealed == old(fillsSealed) + old(|account.fillLog|) - |account.fillLog|
      ensures ordersArchived == old(ordersArchived) + oms.archived.count - old(oms.archived.count)
    {
      hide ReconcileOk, AfterCompaction, OrderManager.View, PaperAccount.View, OrderManager.Valid, PaperAccount.Valid;
      var mismatches;
      mismatches, ok := Reconcile();
      if ok {
        var fills, archived := Compact();
      }
    }

    // Seals verified history and archives the orders it belongs to.
    method Compact() returns (fills: nat, archived: nat)
      requires Valid()
      modifies this`fillsSealed, this`ordersArchived
      modifies account`checkpoint, account`fillLog, oms`orders, oms`archived
      ensures Valid()
      ensures View() == AfterCompaction(old(View()))
      ensures fills == old(|account.fillLog|) - |account.fillLog|
      ensures archived == oms.archived.count - old(oms.archived.count)
      ensures fillsSealed == old(fillsSealed) + fills && ordersArchived == old(ordersArchived) + archived
      ensures lastOk == old(lastOk) && runs == old(runs)
    {
      hide OrderManager.Valid, OrderManager.View, PaperAccount.Valid, PaperAccount.View, SealBoundary, Doomed;
      hide AfterCompact, AfterSeal, Orders.ViewOf;
      account.Visible();
      oms.Visible();
      var excess := |account.fillLog| - account.retainedFills;
      if excess <= 0 {
        return 0, 0;
      }
      var boundary := FindSealBoundary();
      var cut := if boundary <= excess then boundary else excess;
      ghost var was := account.fillLog;
      fills := SealLog(cut);
      assert account.fillLog == was[cut..];
      archived := ArchiveOrders(Ids(account.fillLog));
      fillsSealed := fillsSealed + fills;
      ordersArchived := ordersArchived + archived;
    }

    // Sealing does not touch the order manager.
    method SealLog(cut: nat) returns (fills: nat)
      requires oms.Valid() && account.Valid() && cut <= |account.fillLog|
      modifies account`checkpoint, account`fillLog
      ensures oms.Valid() && account.Valid()
      ensures fills == cut && account.fillLog == old(account.fillLog)[cut..]
      ensures oms.View() == old(oms.View()) && account.View() == AfterSeal(old(account.View()), cut)
    {
      hide OrderManager.Valid, OrderManager.View, PaperAccount.Valid, PaperAccount.View, AfterSeal;
      account.Visible();
      SealedLog(account.View(), cut);
      fills := account.Seal(Some(cut));
      account.Visible();
    }

    // Archiving does not touch the account.
    method ArchiveOrders(unsealed: set<string>) returns (archived: nat)
      requires oms.Valid() && account.Valid()
      modifies oms`orders, oms`archived
      ensures oms.Valid() && account.Valid()
      ensures oms.View() == AfterCompact(old(oms.View()), unsealed) && account.View() == old(account.View())
      ensures oms.archived.count == old(oms.archived.count) + archived
    {
      hide *;
      archived := oms.Compact(unsealed);
    }
  }

  lemma SealedLog(a: Account, count: nat)
    requires count <= |a.log|
    ensures AfterSeal(a, count).log == a.log[count..]
  {
    hide Replay;
  }

  lemma EveryKind(k: Kind)
    ensures k in {MissingFill, UnknownFill, CountMismatch} || k in {CashMismatch, PnlMismatch, FeeMismatch}
      || k == PositionMismatch || k in {OrderQuantity, FilledWithRemainder, Unresolved}
  {
  }

  function FillIdsOf(orders: map<string, PaperOrder>): (ids: set<string>)
    reads orders.Values
  {
    set id, f | id in orders && f in orders[id].fills :: f.fillId
  }

  lemma LiveFillIds(orders: map<string, PaperOrder>, m: Oms)
    requires m.orders == Orders.ViewOf(orders)
    ensures FillIdsOf(orders) == OmsFillIds(m)
  {
    forall id, f | id in m.orders && f in m.orders[id].fills ensures f.fillId in FillIdsOf(orders) {
      assert f in orders[id].fills;
    }
    forall id, f | id in orders && f in orders[id].fills ensures f.fillId in OmsFillIds(m) {
      assert f in m.orders[id].fills;
    }
  }

  // Appends one report per key.
  method ReportAll(found: seq<Mismatch>, kind: Kind, keys: set<string>) returns (r: seq<Mismatch>)
    ensures forall m :: m in r <==> m in found || (m.kind == kind && m.key in keys)
  {
    r := found;
    var left := keys;
    while left != {}
      invariant left <= keys
      invariant forall m :: m in r <==> m in found || (m.kind == kind && m.key in keys - left)
      decreases |left|
    {
      var key :| key in left;
      r, left := r + [Mismatch(kind, key)], left - {key};
    }
  }

  method ReportIf(found: seq<Mismatch>, kind: Kind, key: string, wrong: bool) returns (r: seq<Mismatch>)
    ensures forall m :: m in r <==> m in found || (wrong && m == Mismatch(kind, key))
  {
    r := if wrong then found + [Mismatch(kind, key)] else found;
  }

  // Total fees of fills keyed by id.
  method FeesOf(fills: map<string, Fill>) returns (fees: real)
    ensures fees == Total(fills, FeeOf).amount
  {
    fees := 0.0;
    var left := fills;
    while left != map[]
      invariant fees + Total(left, FeeOf).amount == Total(fills, FeeOf).amount
      decreases |left|
    {
      var id :| id in left;
      TotalRemove(left, FeeOf, id);
      fees, left := fees + left[id].fee, left - {id};
    }
  }

  method TerminalRun(log: seq<Fill>, orders: map<string, PaperOrder>) returns (boundary: nat)
    ensures boundary == TerminalPrefix(log, Orders.ViewOf(orders))
  {
    boundary := |log|;
    ghost var views := Orders.ViewOf(orders);
    for index := 0 to |log|
      invariant TerminalPrefix(log, views) == index + TerminalPrefix(log[index..], views)
    {
      var f := log[index];
      if f.orderId !in orders || !orders[f.orderId].status.IsTerminal() {
        return index;
      }
      assert log[index..][1..] == log[index + 1..];
    }
  }
}
