// The two-view ledger: what reconciliation compares, what compaction drops,
// and when the two stay in step over whole runs.
module Reconciliation {
  import opened Accounts
  import opened Common
  import opened Execution
  import opened Ledgers
  import opened Orders
  import opened Positions
  import opened Totals

  datatype Sys = Sys(oms: Oms, acct: Account)

  function Start(initial: real, retained: nat, dedupeLimit: nat): (s: Sys) {
    Sys(NewOms(dedupeLimit), NewAccount(initial, retained))
  }

  // -- reconciliation -----------------------------------------------------------

  // Ids of every fill the OMS holds against its resident orders.
  function OmsFillIds(m: Oms): (ids: set<string>) {
    set id, f | id in m.orders && f in m.orders[id].fills :: f.fillId
  }

  datatype Kind =
    | MissingFill | UnknownFill | CashMismatch | PnlMismatch | PositionMismatch | CountMismatch
    | FeeMismatch | OrderQuantity | FilledWithRemainder | Unresolved

  datatype Mismatch = Mismatch(kind: Kind, key: string) {
    predicate IsCritical() {
      kind != FeeMismatch && kind != Unresolved
    }
  }

  function QuantityAt(positions: map<string, Position>, key: string): (r: real) {
    PositionAt(positions, key).quantity
  }

  // The account's fills keyed by id; of two with one id the later wins.
  function FillsById(log: seq<Fill>): (r: map<string, Fill>) {
    if log == [] then map[]
    else FillsById(log[..|log| - 1])[log[|log| - 1].fillId := log[|log| - 1]]
  }

  function FeeOf(f: Fill): (t: Tally) {
    Tally(1, f.fee)
  }

  // What reconciliation reports, one finding at a time.
  ghost predicate Found(s: Sys, m: Mismatch) {
    match m.kind
    case MissingFill => m.key in OmsFillIds(s.oms) - Ids(s.acct.log)
    case UnknownFill => m.key in Ids(s.acct.log) - OmsFillIds(s.oms)
    case CashMismatch => m.key == "cash" && Abs(Replayed(s).cash - s.acct.running.cash) > MONEY_EPSILON
    case PnlMismatch => m.key == "realized_pnl" && Abs(Replayed(s).realized - s.acct.running.realized) > MONEY_EPSILON
    case PositionMismatch => m.key in Misplaced(Replayed(s).positions, s.acct.running.positions)
    case CountMismatch => m.key == "fills_applied" && s.oms.applied != s.acct.applied
    case FeeMismatch => m.key == "fees" && FeeGap(s.acct) > MONEY_EPSILON
    case OrderQuantity => m.key in Misfilled(s.oms.orders)
    case FilledWithRemainder => m.key in Unfinished(s.oms.orders)
    case Unresolved => m.key in Unsettled(s.oms.orders)
  }

  function Replayed(s: Sys): (l: Ledger) {
    Replay(s.acct.checkpoint, s.acct.log)
  }

  // Keys whose two quantities disagree.
  function Misplaced(expected: map<string, Position>, actual: map<string, Position>): (keys: set<string>) {
    set key | key in expected.Keys + actual.Keys
      && Abs(QuantityAt(expected, key) - QuantityAt(actual, key)) > QTY_EPSILON
  }

  ghost function FeeGap(a: Account): (r: real) {
    Abs(a.checkpoint.fees + Total(FillsById(a.log), FeeOf).amount - a.running.fees)
  }

  // Orders whose filled quantity is not the sum of their fills.
  function Misfilled(orders: map<string, Order>): (ids: set<string>) {
    set id | id in orders && Abs(SumQuantity(orders[id].fills) - orders[id].filled) > QTY_EPSILON
  }

  // Orders marked FILLED with quantity outstanding.
  function Unfinished(orders: map<string, Order>): (ids: set<string>) {
    set id | id in orders && orders[id].status == Filled && orders[id].Remaining() > QTY_EPSILON
  }

  function Unsettled(orders: map<string, Order>): (ids: set<string>) {
    set id | id in orders && orders[id].status == Unknown
  }

  // `ok`: nothing critical was found.
  ghost predicate ReconcileOk(s: Sys) {
    forall m: Mismatch :: Found(s, m) ==> !m.IsCritical()
  }

  // -- compaction ---------------------------------------------------------------

  predicate Sealable(orders: map<string, Order>, f: Fill) {
    f.orderId in orders && orders[f.orderId].status.IsTerminal()
  }

  // Length of the longest prefix whose orders are all resident and terminal.
  function TerminalPrefix(log: seq<Fill>, orders: map<string, Order>): (n: nat)
    ensures n <= |log|
    ensures forall i :: 0 <= i < n ==> Sealable(orders, log[i])
    ensures n < |log| ==> !Sealable(orders, log[n])
  {
    if log == [] || !Sealable(orders, log[0]) then 0 else 1 + TerminalPrefix(log[1..], orders)
  }

  function OrderIds(log: seq<Fill>): (ids: set<string>) {
    set f | f in log :: f.orderId
  }

  // Steps back over fills of the given orders, stopping at the first of any other.
  function PullBack(log: seq<Fill>, boundary: nat, straddling: set<string>): (n: nat)
    requires boundary <= |log|
    ensures n <= boundary
    ensures forall i :: n <= i < boundary ==> log[i].orderId in straddling
    ensures n > 0 ==> log[n - 1].orderId !in straddling
  {
    if boundary > 0 && log[boundary - 1].orderId in straddling
    then PullBack(log, boundary - 1, straddling)
    else boundary
  }

  function SealBoundary(log: seq<Fill>, orders: map<string, Order>): (n: nat)
    ensures n <= |log|
  {
    var n := TerminalPrefix(log, orders);
    PullBack(log, n, OrderIds(log[n..]))
  }

  // How many fills a compaction seals; None when the retention window is not exceeded.
  function SealCut(s: Sys): (cut: Option<nat>)
    ensures cut.Some? ==> cut.value <= |s.acct.log|
  {
    var boundary := SealBoundary(s.acct.log, s.oms.orders);
    var excess := |s.acct.log| - s.acct.retained;
    if excess <= 0 then None else Some(if boundary <= excess then boundary else excess)
  }

  ghost function AfterCompaction(s: Sys): (r: Sys) {
    match SealCut(s)
    case None => s
    case Some(cut) => Sys(Orders.AfterCompact(s.oms, Ids(s.acct.log[cut..])), AfterSeal(s.acct, cut))
  }

  // A cut is clean when no order has fills on both sides of it.
  predicate CleanCut(log: seq<Fill>, cut: nat)
    requires cut <= |log|
  {
    OrderIds(log[..cut]) !! OrderIds(log[cut..])
  }

  // -- runs -----------------------------------------------------------------------

  // What drives the pair: orders are created and moved, a fill is delivered to
  // the OMS and then to the account, MARIN reconciles and compacts.
  datatype Action = Create(id: string, ticket: Ticket) | Move(id: string, status: Status) | Deliver(fill: Fill) | Run

  // The executor hands the account a fill only when the OMS took it without raising.
  ghost function Next(s: Sys, step: Action): (r: Sys)
    requires OmsInv(s.oms)
  {
    match step
    case Create(id, ticket) => s.(oms := AfterCreate(s.oms, id, ticket))
    case Move(id, status) => s.(oms := AfterMove(s.oms, id, status))
    case Deliver(f) =>
      FillInv(s.oms, f);
      Sys(Orders.AfterFill(s.oms, f),
          if FillOutcome(s.oms, f).Done? then Accounts.AfterFill(s.acct, f) else s.acct)
    case Run => if ReconcileOk(s) then AfterCompaction(s) else s
  }

  // A fill the account has posted before, taken once more: the manager has
  // forgotten its id.
  ghost predicate Repeats(s: Sys, f: Fill) {
    Takes(s.oms, f) && f.fillId in Ids(s.acct.lifetime)
  }

  // Order ids are minted fresh, and only a fill marks an order FILLED. Of
  // fills nothing is assumed.
  ghost predicate WellFormed(s: Sys, step: Action) {
    match step
    case Create(id, _) => id !in s.oms.orders
    case Move(_, status) => status != Filled
    case _ => true
  }

  // The three ways a step can break agreement, seen before the step: a fill for
  // an order that may not move, a fill taken for the second time, and a seal
  // that cuts through an order.
  ghost predicate CleanStep(s: Sys, step: Action) {
    match step
    case Deliver(f) => !Strands(s.oms, f) && !Repeats(s, f)
    case Run => SealCut(s).Some? ==> CleanCut(s.acct.log, SealCut(s).value)
    case _ => true
  }

  // A fill taken for the second time that the account has forgotten as well.
  ghost predicate SilentStep(s: Sys, step: Action) {
    step.Deliver? && Repeats(s, step.fill) && step.fill.fillId !in s.acct.recent
  }

  ghost predicate Follows(s: Sys, step: Action, r: Sys) {
    OmsInv(s.oms) ==> WellFormed(s, step) && r == Next(s, step)
  }

  // A run: the states it passes through and the steps between them.
  ghost predicate IsRun(states: seq<Sys>, steps: seq<Action>) {
    && |states| == |steps| + 1
    && forall i :: 0 <= i < |steps| ==> Follows(states[i], steps[i], states[i + 1])
  }

  ghost predicate CleanUpTo(states: seq<Sys>, steps: seq<Action>, n: nat)
    requires n <= |steps| < |states|
  {
    forall i :: 0 <= i < n ==> CleanStep(states[i], steps[i])
  }

  ghost predicate NeverSilent(states: seq<Sys>, steps: seq<Action>, n: nat)
    requires n <= |steps| < |states|
  {
    forall i :: 0 <= i < n ==> !SilentStep(states[i], steps[i])
  }
}
