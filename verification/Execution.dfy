// Fills, and the paper order with its state machine.
module Execution {
  import opened Common

  datatype Status =
    | Created | Submitting | Acknowledged | Open | PartiallyFilled | Filled
    | CancelPending | Cancelled | Rejected | Expired | Unknown
  {
    predicate IsTerminal() {
      this in {Filled, Cancelled, Rejected, Expired}
    }

    // Neither finished nor lost sight of.
    predicate IsLive() {
      !IsTerminal() && this != Unknown
    }
  }

  // ORDER_TRANSITIONS.
  function Transitions(s: Status): (r: set<Status>) {
    match s
    case Created => {Submitting, Rejected}
    case Submitting => {Acknowledged, Rejected, Unknown}
    case Acknowledged => {Open, PartiallyFilled, Filled, Rejected, CancelPending, Unknown}
    case Open => {PartiallyFilled, Filled, CancelPending, Cancelled, Expired, Unknown}
    case PartiallyFilled => {PartiallyFilled, Filled, CancelPending, Cancelled, Expired, Unknown}
    case CancelPending => {Cancelled, Filled, PartiallyFilled, Unknown}
    case Unknown => {Open, PartiallyFilled, Filled, Cancelled, Rejected, Expired}
    case Filled => {}
    case Cancelled => {}
    case Rejected => {}
    case Expired => {}
  }

  datatype FillEvent = FillEvent(
    fillId: string, orderId: string, venue: string, symbol: string,
    side: Side, quantity: real, price: real, fee: real)
  {
    function SignedQuantity(): (r: real) {
      side.Signed(quantity)
    }

    // Change in cash, fee included.
    function CashDelta(): (r: real) {
      -(SignedQuantity() * price) - fee
    }

    function Key(): (key: string) {
      KeyOf(venue, symbol)
    }
  }

  // The schema refuses a fill without quantity or price.
  type Fill = f: FillEvent | f.quantity > 0.0 && f.price > 0.0
    witness FillEvent("", "", "", "", Buy, 1.0, 1.0, 0.0)

  function Ids(fills: seq<Fill>): (ids: set<string>) {
    set f | f in fills :: f.fillId
  }

  predicate DistinctIds(fills: seq<Fill>) {
    forall i, j :: 0 <= i < j < |fills| ==> fills[i].fillId != fills[j].fillId
  }

  function SumQuantity(fills: seq<Fill>): (r: real)
    ensures r >= 0.0
    ensures fills != [] ==> r > 0.0
  {
    if fills == [] then 0.0 else SumQuantity(fills[..|fills| - 1]) + fills[|fills| - 1].quantity
  }

  function SumNotional(fills: seq<Fill>): (r: real) {
    if fills == [] then 0.0
    else SumNotional(fills[..|fills| - 1]) + fills[|fills| - 1].price * fills[|fills| - 1].quantity
  }

  function SumFees(fills: seq<Fill>): (r: real) {
    if fills == [] then 0.0 else SumFees(fills[..|fills| - 1]) + fills[|fills| - 1].fee
  }

  lemma SumSnoc(fills: seq<Fill>, f: Fill)
    ensures SumQuantity(fills + [f]) == SumQuantity(fills) + f.quantity
    ensures SumNotional(fills + [f]) == SumNotional(fills) + f.price * f.quantity
    ensures SumFees(fills + [f]) == SumFees(fills) + f.fee
  {
    assert (fills + [f])[..|fills|] == fills;
  }

  // The fills of one order, in order.
  function FillsOf(log: seq<Fill>, orderId: string): (r: seq<Fill>)
    ensures forall f :: f in r <==> f in log && f.orderId == orderId
  {
    if log == [] then []
    else
      var last := log[|log| - 1];
      FillsOf(log[..|log| - 1], orderId) + if last.orderId == orderId then [last] else []
  }

  lemma {:induction false} FillsOfConcat(a: seq<Fill>, b: seq<Fill>, orderId: string)
    ensures FillsOf(a + b, orderId) == FillsOf(a, orderId) + FillsOf(b, orderId)
    decreases |b|
  {
    if b == [] {
      assert a + b == a;
    } else {
      var last := |b| - 1;
      assert (a + b)[..|a + b| - 1] == a + b[..last];
      FillsOfConcat(a, b[..last], orderId);
    }
  }

  // What the order was created with; none of it ever changes.
  datatype OrderType = MARKET | LIMIT
  datatype TimeInForce = GTC | IOC | FOK | POST_ONLY
  datatype OrderTicket = OrderTicket(
    venue: string, symbol: string, side: Side, orderType: OrderType, timeInForce: TimeInForce,
    quantity: real, limitPrice: Option<real>, expectedPrice: real, expiresAt: Option<int>)

  // The schema refuses an order without quantity.
  type Ticket = t: OrderTicket | t.quantity > 0.0
    witness OrderTicket("", "", Buy, MARKET, GTC, 1.0, None, 1.0, None)

  datatype Order = Order(
    id: string, ticket: Ticket, status: Status, filled: real, average: Option<real>, fees: real,
    fills: seq<Fill>, history: seq<Status>)
  {
    function Remaining(): (r: real) {
      Max(0.0, ticket.quantity - filled)
    }
  }

  function NewOrder(id: string, ticket: Ticket): (o: Order) {
    Order(id, ticket, Created, 0.0, None, 0.0, [], [Created])
  }

  // The move a legal transition makes.
  function Moved(o: Order, status: Status): (r: Order) {
    o.(status := status, history := o.history + [status])
  }

  // The quantity-weighted average price after one more fill.
  function Rolled(average: Option<real>, filled: real, price: real, quantity: real): (r: real)
    requires filled + quantity != 0.0
  {
    ((if average.Some? then average.value else 0.0) * filled + price * quantity) / (filled + quantity)
  }

  // Recording a fill; a fill already held changes nothing.
  function Recorded(o: Order, f: Fill): (r: Order)
    requires o.filled >= 0.0
  {
    if f.fillId in Ids(o.fills) then o
    else
      o.(fills := o.fills + [f], filled := o.filled + f.quantity, fees := o.fees + f.fee,
         average := Some(Rolled(o.average, o.filled, f.price, f.quantity)))
  }

  predicate IsPath(history: seq<Status>) {
    forall i :: 0 < i < |history| ==> history[i] in Transitions(history[i - 1])
  }

  // What holds of every order the manager owns.
  ghost predicate OrderInv(o: Order) {
    && |o.history| > 0 && o.history[0] == Created && o.history[|o.history| - 1] == o.status
    && IsPath(o.history)
    && FillsInv(o)
    && (o.status == Filled ==> o.Remaining() <= QTY_EPSILON)
  }

  // The totals of an order are the totals of its fills.
  ghost predicate FillsInv(o: Order) {
    && DistinctIds(o.fills)
    && (forall f :: f in o.fills ==> f.orderId == o.id)
    && o.filled == SumQuantity(o.fills)
    && o.fees == SumFees(o.fills)
    && (o.average.None? <==> o.fills == [])
    && (o.average.Some? ==> o.average.value * o.filled == SumNotional(o.fills))
  }

  lemma NewOrderInv(id: string, ticket: Ticket)
    ensures OrderInv(NewOrder(id, ticket))
  {
  }

  lemma MovedInv(o: Order, status: Status)
    requires OrderInv(o) && status in Transitions(o.status)
    requires status == Filled ==> o.Remaining() <= QTY_EPSILON
    ensures OrderInv(Moved(o, status))
  {
  }

  lemma RecordedInv(o: Order, f: Fill)
    requires OrderInv(o) && f.orderId == o.id
    ensures OrderInv(Recorded(o, f))
  {
    hide FillsInv;
    RecordedFills(o, f);
  }

  lemma RecordedFills(o: Order, f: Fill)
    requires FillsInv(o) && f.orderId == o.id
    ensures FillsInv(Recorded(o, f))
    ensures Recorded(o, f).filled >= o.filled
  {
    hide Rolled, DistinctIds, Ids;
    if f.fillId !in Ids(o.fills) {
      SumSnoc(o.fills, f);
      RecordedNotional(o, f);
      DistinctSnoc(o.fills, f);
    }
  }

  lemma RecordedNotional(o: Order, f: Fill)
    requires FillsInv(o) && f.fillId !in Ids(o.fills)
    ensures o.filled >= 0.0
    ensures var r := Recorded(o, f);
      r.average.Some? && r.average.value * r.filled == SumNotional(o.fills) + f.price * f.quantity
  {
    hide Rolled, DistinctIds, Ids;
    RolledKeepsNotional(o.average, o.filled, f.price, f.quantity);
    if o.average.None? {
      assert SumNotional(o.fills) == 0.0;
    }
  }

  lemma RolledKeepsNotional(average: Option<real>, filled: real, price: real, quantity: real)
    requires filled >= 0.0 && quantity > 0.0
    ensures Rolled(average, filled, price, quantity) * (filled + quantity)
         == (if average.Some? then average.value * filled else 0.0) + price * quantity
  {
  }

  lemma DistinctSnoc(fills: seq<Fill>, f: Fill)
    requires DistinctIds(fills) && f.fillId !in Ids(fills)
    ensures DistinctIds(fills + [f])
  {
    forall i | 0 <= i < |fills| ensures fills[i].fillId != f.fillId {
      assert fills[i] in fills;
    }
  }

  class PaperOrder {
    const clientOrderId: string
    const ticket: Ticket
    var status: Status
    var filledQuantity: real
    var averagePrice: Option<real>
    var feesPaid: real
    var fills: seq<Fill>
    var history: seq<Status>

    constructor (clientOrderId: string, ticket: Ticket)
      ensures View() == NewOrder(clientOrderId, ticket)
    {
      this.clientOrderId, this.ticket := clientOrderId, ticket;
      status, filledQuantity, averagePrice, feesPaid := Created, 0.0, None, 0.0;
      fills, history := [], [Created];
    }

    function View(): (o: Order)
      reads this
    {
      Order(clientOrderId, ticket, status, filledQuantity, averagePrice, feesPaid, fills, history)
    }

    // Moves to `next`, or refuses and changes nothing.
    method Transition(next: Status) returns (ok: bool)
      modifies this
      ensures ok <==> next in Transitions(old(status))
      ensures View() == if ok then Moved(old(View()), next) else old(View())
    {
      if next !in Transitions(status) {
        return false;
      }
      status := next;
      history := history + [next];
      return true;
    }

    // Records a fill and rolls the average price forward; false when the fill
    // belongs to another order.
    method ApplyFill(f: Fill) returns (ok: bool)
      requires filledQuantity >= 0.0
      modifies this
      ensures ok <==> f.orderId == clientOrderId
      ensures View() == if ok then Recorded(old(View()), f) else old(View())
    {
      if f.orderId != clientOrderId {
        return false;
      }
      if exists g :: g in fills && g.fillId == f.fillId {
        assert f.fillId in Ids(fills);
        return true;
      }
      assert f.fillId !in Ids(fills);
      averagePrice := Some(Rolled(averagePrice, filledQuantity, f.price, f.quantity));
      fills := fills + [f];
      filledQuantity := filledQuantity + f.quantity;
      feesPaid := feesPaid + f.fee;
      return true;
    }
  }
}
