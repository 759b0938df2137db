// OrderManager: the book of record for orders, and the archive terminal
// orders are compacted into.
module Orders {
  import opened Common
  import opened Dedupe
  import opened Execution
  import opened Totals

  datatype Archive = Archive(count: int, fills: int, filledQuantity: real, feesPaid: real) {
    function Absorbing(o: Order): (r: Archive) {
      Archive(count + 1, fills + |o.fills|, filledQuantity + o.filled, feesPaid + o.fees)
    }
  }

  // The value of an order manager.
  datatype Oms = Oms(
    orders: map<string, Order>, recent: seq<string>, dedupeLimit: nat, archived: Archive,
    ordersCreated: nat, applied: nat, duplicates: nat, illegal: nat)

  function NewOms(dedupeLimit: nat): (m: Oms) {
    Oms(map[], [], dedupeLimit, Archive(0, 0, 0.0, 0.0), 0, 0, 0, 0)
  }

  // How a call ends; all but Done and Duplicate are raised in the source.
  datatype Outcome = Done | Duplicate | UnknownOrder | Overfill | IllegalMove

  // -- the operations as functions --------------------------------------------

  function AfterCreate(m: Oms, id: string, ticket: Ticket): (r: Oms) {
    m.(orders := m.orders[id := NewOrder(id, ticket)], ordersCreated := m.ordersCreated + 1)
  }

  function MoveOutcome(m: Oms, id: string, status: Status): (r: Outcome) {
    if id !in m.orders then UnknownOrder
    else if status in Transitions(m.orders[id].status) then Done
    else IllegalMove
  }

  function AfterMove(m: Oms, id: string, status: Status): (r: Oms) {
    if MoveOutcome(m, id, status).Done? then m.(orders := m.orders[id := Moved(m.orders[id], status)]) else m
  }

  // A move to FILLED is of an order that is full.
  predicate FillsUp(m: Oms, id: string, status: Status) {
    status == Filled && MoveOutcome(m, id, status).Done? ==> m.orders[id].Remaining() <= QTY_EPSILON
  }

  // A transition requested through the manager: refusals are counted.
  function AfterTransition(m: Oms, id: string, status: Status): (r: Oms) {
    var moved := AfterMove(m, id, status);
    if MoveOutcome(m, id, status).IllegalMove? then moved.(illegal := m.illegal + 1) else moved
  }

  // Where a fill takes its order.
  function Target(o: Order): (s: Status) {
    if o.Remaining() <= QTY_EPSILON then Filled else PartiallyFilled
  }

  // A fill that leaves an order FILLED where it is FILLED already moves nothing.
  predicate Moves(o: Order) {
    o.status != Target(o) || Target(o) == PartiallyFilled
  }

  function FillOutcome(m: Oms, f: Fill): (r: Outcome)
    requires f.orderId in m.orders ==> m.orders[f.orderId].filled >= 0.0
  {
    if f.fillId in m.recent then Duplicate
    else if f.orderId !in m.orders then UnknownOrder
    else
      var o := m.orders[f.orderId];
      if f.quantity > o.Remaining() + QTY_EPSILON then Overfill
      else
        var recorded := Recorded(o, f);
        if Moves(recorded) && Target(recorded) !in Transitions(recorded.status) then IllegalMove else Done
  }

  // The fill is recorded before the order moves, so an illegal move leaves it recorded.
  function AfterFill(m: Oms, f: Fill): (r: Oms)
    requires f.orderId in m.orders ==> m.orders[f.orderId].filled >= 0.0
  {
    match FillOutcome(m, f)
    case Duplicate => m.(duplicates := m.duplicates + 1)
    case Done =>
      var recorded := Recorded(m.orders[f.orderId], f);
      Booked(m, f, if Moves(recorded) then Moved(recorded, Target(recorded)) else recorded)
    case IllegalMove => Booked(m, f, Recorded(m.orders[f.orderId], f))
    case _ => m
  }

  function Booked(m: Oms, f: Fill, o: Order): (r: Oms) {
    m.(orders := m.orders[f.orderId := o], recent := Window(m.recent + [f.fillId], m.dedupeLimit),
       applied := m.applied + 1)
  }

  // The fill reaches an order that may not take it: one never sent to the
  // venue, or one that ended without filling.
  predicate Strands(m: Oms, f: Fill) {
    && f.fillId !in m.recent && f.orderId in m.orders
    && f.quantity <= m.orders[f.orderId].Remaining() + QTY_EPSILON
    && m.orders[f.orderId].status in {Created, Submitting, Cancelled, Rejected, Expired}
  }

  // The manager takes the fill: it does not remember the id, and the order may
  // be traded and has room. Nothing here asks whether the order holds the fill.
  predicate Takes(m: Oms, f: Fill) {
    && f.fillId !in m.recent && f.orderId in m.orders
    && f.quantity <= m.orders[f.orderId].Remaining() + QTY_EPSILON
    && m.orders[f.orderId].status in {Acknowledged, Open, PartiallyFilled, Filled, CancelPending, Unknown}
  }

  // Terminal orders none of whose fills await sealing.
  function Doomed(m: Oms, unsealed: set<string>): (ids: set<string>) {
    set id | id in m.orders && m.orders[id].status.IsTerminal() && Ids(m.orders[id].fills) !! unsealed
  }

  function FillTally(o: Order): (t: Tally) {
    Tally(|o.fills|, o.filled)
  }

  function FeeTally(o: Order): (t: Tally) {
    Tally(1, o.fees)
  }

  // The archive once it has absorbed a set of orders.
  ghost function Absorbed(before: Archive, orders: map<string, Order>): (after: Archive) {
    Archive(
      before.count + |orders|,
      before.fills + Total(orders, FillTally).count,
      before.filledQuantity + Total(orders, FillTally).amount,
      before.feesPaid + Total(orders, FeeTally).amount)
  }

  ghost function AfterCompact(m: Oms, unsealed: set<string>): (r: Oms) {
    m.(orders := m.orders - Doomed(m, unsealed),
       archived := Absorbed(m.archived, Restrict(m.orders, Doomed(m, unsealed))))
  }

  // -- what every operation keeps -----------------------------------------------

  ghost predicate OmsInv(m: Oms) {
    && (forall id :: id in m.orders ==> m.orders[id].id == id && OrderInv(m.orders[id]))
    && Distinct(m.recent)
    && |m.recent| <= m.dedupeLimit
  }

  lemma CreateInv(m: Oms, id: string, ticket: Ticket)
    requires OmsInv(m)
    ensures OmsInv(AfterCreate(m, id, ticket))
  {
    NewOrderInv(id, ticket);
  }

  // A move to FILLED is the fill's business: nothing else may mark an order filled.
  lemma MoveInv(m: Oms, id: string, status: Status)
    requires OmsInv(m)
    requires FillsUp(m, id, status)
    ensures OmsInv(AfterMove(m, id, status))
  {
    hide OrderInv;
    if MoveOutcome(m, id, status).Done? {
      MovedInv(m.orders[id], status);
    }
  }

  lemma FillInv(m: Oms, f: Fill)
    requires OmsInv(m)
    ensures f.orderId in m.orders ==> m.orders[f.orderId].filled >= 0.0
    ensures OmsInv(AfterFill(m, f))
  {
    hide OrderInv, Recorded, Moves, Target, Moved, Booked;
    if f.orderId in m.orders {
      var o := m.orders[f.orderId];
      NonNegativeFilled(o);
      if FillOutcome(m, f).Done? || FillOutcome(m, f).IllegalMove? {
        FilledOrderInv(o, f);
        BookedInv(m, f, Recorded(o, f));
        if FillOutcome(m, f).Done? && Moves(Recorded(o, f)) {
          BookedInv(m, f, Moved(Recorded(o, f), Target(Recorded(o, f))));
        }
      }
    }
  }

  lemma BookedInv(m: Oms, f: Fill, o: Order)
    requires OmsInv(m) && f.fillId !in m.recent
    ensures OrderInv(o) && o.id == f.orderId ==> OmsInv(Booked(m, f, o))
  {
    hide OrderInv, Distinct, Window;
    RecentInv(m.recent, f.fillId, m.dedupeLimit);
  }

  // A fill is booked and then refused exactly when it strands: the guard can be
  // read off the manager before the call.
  lemma RefusedExactlyWhenStranded(m: Oms, f: Fill)
    requires OmsInv(m)
    ensures f.orderId in m.orders ==> m.orders[f.orderId].filled >= 0.0
    ensures FillOutcome(m, f).IllegalMove? <==> Strands(m, f)
  {
    hide Rolled, IsPath, FillsInv;
    if f.orderId in m.orders {
      NonNegativeFilled(m.orders[f.orderId]);
    }
  }

  lemma DoneExactlyWhenTaken(m: Oms, f: Fill)
    requires OmsInv(m)
    ensures f.orderId in m.orders ==> m.orders[f.orderId].filled >= 0.0
    ensures FillOutcome(m, f).Done? <==> Takes(m, f)
  {
    hide Rolled, IsPath, FillsInv;
    if f.orderId in m.orders {
      NonNegativeFilled(m.orders[f.orderId]);
    }
  }

  // How every delivery ends and what it counts, read off the manager and the
  // fill before the call.
  lemma EveryOutcome(m: Oms, f: Fill)
    requires OmsInv(m)
    ensures f.orderId in m.orders ==> m.orders[f.orderId].filled >= 0.0
    ensures FillOutcome(m, f).Duplicate? <==> f.fillId in m.recent
    ensures FillOutcome(m, f).UnknownOrder? <==> f.fillId !in m.recent && f.orderId !in m.orders
    ensures FillOutcome(m, f).Overfill? <==>
      && f.fillId !in m.recent && f.orderId in m.orders
      && f.quantity > m.orders[f.orderId].Remaining() + QTY_EPSILON
    ensures var r := AfterFill(m, f);
      && r.applied == m.applied + (if Takes(m, f) || Strands(m, f) then 1 else 0)
      && r.duplicates == m.duplicates + (if f.fillId in m.recent then 1 else 0)
      && r.orders.Keys == m.orders.Keys && r.archived == m.archived
  {
    hide Recorded, Moves, Target, Transitions, OmsInv, Strands, Takes, Window;
    RefusedExactlyWhenStranded(m, f);
    DoneExactlyWhenTaken(m, f);
  }

  lemma NonNegativeFilled(o: Order)
    requires OrderInv(o)
    ensures o.filled >= 0.0
  {
  }

  lemma FilledOrderInv(o: Order, f: Fill)
    requires OrderInv(o) && f.orderId == o.id
    ensures var r := Recorded(o, f);
      OrderInv(r) && r.id == o.id &&
      (Moves(r) && Target(r) in Transitions(r.status) ==>
        OrderInv(Moved(r, Target(r))) && Moved(r, Target(r)).id == o.id)
  {
    RecordedInv(o, f);
    var r := Recorded(o, f);
    if Moves(r) && Target(r) in Transitions(r.status) {
      MovedInv(r, Target(r));
    }
  }

  lemma RecentInv(recent: seq<string>, id: string, limit: nat)
    requires Distinct(recent) && id !in recent
    ensures Distinct(Window(recent + [id], limit))
  {
  }

  lemma CompactInv(m: Oms, unsealed: set<string>)
    requires OmsInv(m)
    ensures OmsInv(AfterCompact(m, unsealed))
  {
  }

  // A transition the table refuses is counted and moves nothing; one it admits
  // moves the order and is not.
  lemma RefusalsAreCounted(m: Oms, id: string, status: Status)
    ensures var r, known := AfterTransition(m, id, status), id in m.orders;
      && (known && status in Transitions(m.orders[id].status) ==>
            r.illegal == m.illegal && r.orders == m.orders[id := Moved(m.orders[id], status)])
      && (known && status !in Transitions(m.orders[id].status) ==> r == m.(illegal := m.illegal + 1))
      && (!known ==> r == m)
  {
    hide Transitions;
  }

  // -- who leaves -----------------------------------------------------------------

  // An order that may no longer move is exactly a terminal one.
  lemma TerminalCannotMove(s: Status)
    ensures s.IsTerminal() <==> Transitions(s) == {}
  {
    assert PartiallyFilled in Transitions(Open);
    assert s == Created ==> Submitting in Transitions(s);
    assert s in {Acknowledged, PartiallyFilled, CancelPending, Unknown} ==> Filled in Transitions(s);
    assert s == Submitting ==> Unknown in Transitions(s);
  }

  // What compaction keeps, on the orders alone: whatever may still move, and
  // whatever holds a fill that awaits sealing. Those it keeps it leaves as
  // they are.
  lemma CompactKeepsExactly(m: Oms, unsealed: set<string>, id: string)
    ensures id in AfterCompact(m, unsealed).orders <==>
      id in m.orders
      && (Transitions(m.orders[id].status) != {} || exists f :: f in m.orders[id].fills && f.fillId in unsealed)
    ensures id in AfterCompact(m, unsealed).orders ==> AfterCompact(m, unsealed).orders[id] == m.orders[id]
  {
    hide Absorbed, Transitions;
    if id in m.orders {
      TerminalCannotMove(m.orders[id].status);
    }
  }

  // -- the class ------------------------------------------------------------------

  function ViewOf(orders: map<string, PaperOrder>): map<string, Order>
    reads orders.Values
  {
    map id | id in orders :: orders[id].View()
  }

  ghost predicate Keyed(orders: map<string, PaperOrder>) {
    forall id :: id in orders ==> orders[id].clientOrderId == id
  }

  // Records a fill on its order, then moves the order to match.
  method RecordAndMove(order: PaperOrder, f: Fill) returns (outcome: Outcome)
    requires order.filledQuantity >= 0.0 && f.orderId == order.clientOrderId
    modifies order
    ensures var r := Recorded(old(order.View()), f);
      && outcome == (if Moves(r) && Target(r) !in Transitions(r.status) then IllegalMove else Done)
      && order.View() == if Moves(r) && outcome.Done? then Moved(r, Target(r)) else r
  {
    hide Recorded;
    var ok := order.ApplyFill(f);
    var target := if order.View().Remaining() <= QTY_EPSILON then Filled else PartiallyFilled;
    if order.status != target || target == PartiallyFilled {
      ok := order.Transition(target);
      if !ok {
        return IllegalMove;
      }
    }
    return Done;
  }

  lemma ViewOfAdded(orders: map<string, PaperOrder>, id: string, order: PaperOrder)
    ensures ViewOf(orders[id := order]) == ViewOf(orders)[id := order.View()]
  {
  }

  lemma ViewOfAt(orders: map<string, PaperOrder>, id: string)
    ensures ViewOf(orders).Keys == orders.Keys
    ensures id in orders ==> ViewOf(orders)[id] == orders[id].View()
  {
  }

  lemma ViewOfLess(orders: map<string, PaperOrder>, ids: set<string>)
    ensures ViewOf(orders - ids) == ViewOf(orders) - ids
  {
  }

  lemma RecentDistinct(m: Oms)
    requires OmsInv(m)
    ensures Distinct(m.recent)
    ensures forall id :: id !in m.recent ==> Distinct(m.recent + [id])
  {
  }

  function SelectDoomed(orders: map<string, PaperOrder>, unsealed: set<string>): (ids: set<string>)
    reads orders.Values
  {
    set id | id in orders && orders[id].status.IsTerminal()
      && !exists f :: f in orders[id].fills && f.fillId in unsealed
  }

  // Absorbs a set of orders into an archive and drops them.
  method ArchiveAll(orders: map<string, PaperOrder>, archived: Archive, doomed: set<string>)
    returns (resident: map<string, PaperOrder>, archive: Archive)
    requires doomed <= orders.Keys
    ensures resident == orders - doomed
    ensures archive == Absorbed(archived, Restrict(ViewOf(orders), doomed))
  {
    hide ViewOf, Absorbed;
    resident, archive := orders, archived;
    var left := doomed;
    NothingAbsorbed(archived, ViewOf(orders));
    while left != {}
      invariant left <= doomed
      invariant resident == orders - (doomed - left)
      invariant archive == Absorbed(archived, Restrict(ViewOf(orders), doomed - left))
      decreases |left|
    {
      var id :| id in left;
      ViewOfAt(orders, id);
      AbsorbOne(archived, ViewOf(orders), doomed - left, id);
      OneLess(orders, doomed, left, id);
      archive := archive.Absorbing(resident[id].View());
      resident, left := resident - {id}, left - {id};
    }
    assert doomed - left == doomed;
  }

  class OrderManager {
    var orders: map<string, PaperOrder>
    var appliedFills: set<string>
    var dedupeOrder: seq<string>
    const dedupeFills: nat
    var archived: Archive
    var ordersCreated: nat
    var fillsApplied: nat
    var duplicateFills: nat
    var illegalTransitions: nat

    ghost predicate Valid()
      reads this, orders.Values
    {
      && Keyed(orders)
      && appliedFills == (set id | id in dedupeOrder)
      && OmsInv(View())
    }

    ghost function View(): Oms
      reads this, orders.Values
    {
      Oms(ViewOf(orders), dedupeOrder, dedupeFills, archived,
          ordersCreated, fillsApplied, duplicateFills, illegalTransitions)
    }

    lemma Visible()
      ensures View().orders == ViewOf(orders) && View().applied == fillsApplied
    {
    }

    constructor (dedupeFills: nat)
      ensures Valid() && View() == NewOms(dedupeFills)
      ensures orders == map[]
    {
      this.dedupeFills := dedupeFills;
      orders, appliedFills, dedupeOrder := map[], {}, [];
      archived := Archive(0, 0, 0.0, 0.0);
      ordersCreated, fillsApplied, duplicateFills, illegalTransitions := 0, 0, 0, 0;
    }

    // Registers a new order under its client id.
    method Create(id: string, ticket: Ticket) returns (order: PaperOrder)
      requires Valid()
      modifies this`orders, this`ordersCreated
      ensures Valid() && fresh(order) && orders == old(orders)[id := order]
      ensures View() == AfterCreate(old(View()), id, ticket)
    {
      hide OmsInv, ViewOf;
      CreateInv(View(), id, ticket);
      order := new PaperOrder(id, ticket);
      ViewOfAdded(orders, id, order);
      orders := orders[id := order];
      ordersCreated := ordersCreated + 1;
    }

    // Moves an order; only a direct move of an unfilled order to FILLED, which
    // the table admits, leaves an order marked full that is not.
    method Transition(id: string, status: Status) returns (outcome: Outcome)
      requires Valid()
      modifies this`illegalTransitions, orders.Values
      ensures FillsUp(old(View()), id, status) ==> Valid()
      ensures outcome == MoveOutcome(old(View()), id, status)
      ensures View() == AfterTransition(old(View()), id, status)
    {
      hide OrderInv;
      if FillsUp(View(), id, status) {
        MoveInv(View(), id, status);
      }
      if id !in orders {
        return UnknownOrder;
      }
      var ok := MoveOne(id, status);
      if !ok {
        illegalTransitions := illegalTransitions + 1;
        return IllegalMove;
      }
      return Done;
    }

    // Moves one resident order, leaving every other order alone.
    method MoveOne(id: string, status: Status) returns (ok: bool)
      requires id in orders
      requires Keyed(orders)
      modifies orders[id]
      ensures ok <==> status in Transitions(old(orders[id].status))
      ensures ViewOf(orders) ==
        if ok then old(ViewOf(orders))[id := Moved(old(orders[id].View()), status)] else old(ViewOf(orders))
    {
      ok := orders[id].Transition(status);
    }

    // An operation timed out: the order is neither filled nor cancelled.
    method MarkUnknown(id: string) returns (outcome: Outcome)
      requires Valid()
      modifies orders.Values
      ensures Valid()
      ensures outcome == if id in orders && old(orders[id].status).IsTerminal() then Done
        else MoveOutcome(old(View()), id, Unknown)
      ensures View() == if id in orders && old(orders[id].status).IsTerminal() then old(View())
        else AfterMove(old(View()), id, Unknown)
    {
      hide OrderInv;
      MoveInv(View(), id, Unknown);
      if id !in orders {
        return UnknownOrder;
      }
      if orders[id].status.IsTerminal() {
        return Done;
      }
      var ok := MoveOne(id, Unknown);
      return if ok then Done else IllegalMove;
    }

    // Applies a fill once; see FillOutcome for how it can end.
    method ApplyFill(f: Fill) returns (outcome: Outcome)
      requires Valid()
      modifies this`appliedFills, this`dedupeOrder, this`fillsApplied, this`duplicateFills, orders.Values
      ensures Valid()
      ensures f.orderId in old(View()).orders ==> old(View()).orders[f.orderId].filled >= 0.0
      ensures outcome == FillOutcome(old(View()), f)
      ensures View() == AfterFill(old(View()), f)
    {
      hide OmsInv, Recorded, Moves, Target, Window, Transitions, Moved, ViewOf;
      ghost var before := View();
      FillInv(before, f);
      ViewOfAt(orders, f.orderId);
      RecentDistinct(before);
      if f.fillId in appliedFills {
        duplicateFills := duplicateFills + 1;
        return Duplicate;
      }
      if f.orderId !in orders {
        return UnknownOrder;
      }
      if f.quantity > orders[f.orderId].View().Remaining() + QTY_EPSILON {
        return Overfill;
      }
      Remember(f.fillId);
      outcome := RecordOne(f);
    }

    method Remember(id: string)
      requires appliedFills == (set id | id in dedupeOrder) && Distinct(dedupeOrder + [id])
      modifies this`appliedFills, this`dedupeOrder, this`fillsApplied
      ensures dedupeOrder == Window(old(dedupeOrder) + [id], dedupeFills)
      ensures appliedFills == set id | id in dedupeOrder
      ensures fillsApplied == old(fillsApplied) + 1
    {
      appliedFills := appliedFills + {id};
      dedupeOrder := dedupeOrder + [id];
      appliedFills, dedupeOrder := Trim(appliedFills, dedupeOrder, dedupeFills);
      fillsApplied := fillsApplied + 1;
    }

    // Records the fill on its order, leaving every other order alone.
    method RecordOne(f: Fill) returns (outcome: Outcome)
      requires f.orderId in orders && orders[f.orderId].filledQuantity >= 0.0
      requires Keyed(orders)
      modifies orders[f.orderId]
      ensures var r := Recorded(old(orders[f.orderId].View()), f);
        && outcome == (if Moves(r) && Target(r) !in Transitions(r.status) then IllegalMove else Done)
        && ViewOf(orders) == old(ViewOf(orders))[f.orderId :=
             if Moves(r) && outcome.Done? then Moved(r, Target(r)) else r]
    {
      hide Recorded, Moves, Target, Moved;
      outcome := RecordAndMove(orders[f.orderId], f);
    }

    // Archives every terminal order the ledger has finished with.
    method Compact(unsealed: set<string>) returns (count: nat)
      requires Valid()
      modifies this`orders, this`archived
      ensures Valid()
      ensures count == |Doomed(old(View()), unsealed)| && archived.count == old(archived.count) + count
      ensures View() == AfterCompact(old(View()), unsealed)
      ensures orders.Keys <= old(orders).Keys && forall id :: id in orders ==> orders[id] == old(orders)[id]
    {
      hide OmsInv, ViewOf, Doomed, Absorbed;
      ghost var before := View();
      var doomed := SelectDoomed(orders, unsealed);
      DoomedAgain(orders, doomed, before, unsealed);
      count := |doomed|;
      ViewOfLess(orders, doomed);
      ViewOfAt(orders, "");
      AbsorbedCount(archived, before.orders, doomed);
      orders, archived := ArchiveAll(orders, archived, doomed);
      CompactInv(before, unsealed);
    }
  }

  lemma AbsorbedCount(before: Archive, orders: map<string, Order>, ids: set<string>)
    requires ids <= orders.Keys
    ensures Absorbed(before, Restrict(orders, ids)).count == before.count + |ids|
  {
    assert Restrict(orders, ids).Keys == ids;
  }

  lemma DoomedAgain(orders: map<string, PaperOrder>, doomed: set<string>, m: Oms, unsealed: set<string>)
    requires m.orders == ViewOf(orders)
    requires doomed == SelectDoomed(orders, unsealed)
    ensures doomed <= orders.Keys
    ensures doomed == Doomed(m, unsealed)
  {
  }

  lemma OneLess<V>(m: map<string, V>, doomed: set<string>, left: set<string>, id: string)
    requires left <= doomed && id in left
    ensures doomed - (left - {id}) == doomed - left + {id}
    ensures m - (doomed - left) - {id} == m - (doomed - (left - {id}))
  {
  }

  lemma NothingAbsorbed(before: Archive, orders: map<string, Order>)
    ensures Absorbed(before, Restrict(orders, {})) == before
  {
    assert Restrict(orders, {}) == map[];
  }

  lemma AbsorbOne(before: Archive, orders: map<string, Order>, done: set<string>, id: string)
    requires id in orders && id !in done
    ensures Absorbed(before, Restrict(orders, done + {id}))
         == Absorbed(before, Restrict(orders, done)).Absorbing(orders[id])
  {
    var part, whole := Restrict(orders, done), Restrict(orders, done + {id});
    assert whole == part[id := orders[id]] && id !in part && |whole| == |part| + 1;
    hide Restrict, Total;
    TotalUpdate(part, FillTally, id, orders[id]);
    TotalUpdate(part, FeeTally, id, orders[id]);
  }
}
