// PaperExecutor, step by step: what polling, cancelling and submitting do to
// the order book of record and the account.
module ExecutorRuns {
  import opened Accounts
  import opened Common
  import opened Costs
  import opened Dedupe
  import opened Execution
  import opened LedgerRuns
  import opened Orders
  import opened Reconciliation
  import opened Simulator

  // Simulated venue-side timing of one order.
  datatype Pending = Pending(ackAt: int, cancelAt: Option<int>, tradedThrough: real, forceUnknown: bool)

  datatype ExecConfig = ExecConfig(
    cap: real, queueAhead: real, makerProbability: real, takerBps: real, makerBps: real)

  // What one order meets when it is polled: the visible opposing levels, the
  // levels left after drift and vanishing, the random draws, and the id the
  // next fill would be given.
  datatype Encounter = Encounter(
    opposing: seq<Level>, met: seq<Level>, draw: real, queueDraw: real, cancelDraw: real, fillId: string)

  predicate ValidConfig(cfg: ExecConfig) {
    0.0 < cfg.cap <= 1.0 && cfg.queueAhead >= 0.0
  }

  predicate IsMarketable(t: Ticket) {
    t.orderType.MARKET? || t.timeInForce in {IOC, FOK}
  }

  // A cancel on an order the market has reached may lose.
  predicate CancelWins(t: Ticket, opposing: seq<Level>, draw: real, makerProbability: real) {
    if t.orderType.MARKET? then false
    else if t.limitPrice.None? || opposing == [] then true
    else if !Acceptable(t.side, opposing[0].price, t.limitPrice.value) then true
    else draw > makerProbability
  }

  function Attempt(o: Order, p: Pending, cfg: ExecConfig, e: Encounter): (r: Option<SimulatedFill>) {
    if o.status !in {Open, PartiallyFilled, CancelPending} || e.opposing == [] then None
    else
      var simulated := if IsMarketable(o.ticket) then FillMarketable(o, e.met, cfg.cap, cfg.takerBps)
        else FillPassive(o, e.opposing, p.tradedThrough, cfg.makerProbability, cfg.queueAhead, e.draw, e.queueDraw, cfg.makerBps);
      if simulated.Some? && simulated.value.quantity > QTY_EPSILON then simulated else None
  }

  // The fill event a simulated fill is turned into.
  function Built(o: Order, f: SimulatedFill, fillId: string): (r: FillEvent) {
    FillEvent(fillId, o.id, o.ticket.venue, o.ticket.symbol, o.ticket.side, f.quantity, f.price, f.fee)
  }

  datatype PollResult = PollResult(sys: Sys, raised: bool)

  // An order in flight arrives at the venue.
  function Arrived(m: Oms, id: string): (r: Oms)
    requires id in m.orders
  {
    if m.orders[id].status == Submitting then AfterTransition(AfterTransition(m, id, Acknowledged), id, Open) else m
  }

  predicate CancelDue(p: Pending, now: int) {
    p.cancelAt.Some? && now >= p.cancelAt.value
  }

  predicate Fillable(f: FillEvent) {
    f.quantity > 0.0 && f.price > 0.0
  }

  // A fill goes to the OMS, and on to the account when the OMS took it.
  function FillStage(s: Sys, id: string, p: Pending, cfg: ExecConfig, e: Encounter): (r: PollResult)
    requires id in s.oms.orders
  {
    var o := s.oms.orders[id];
    match Attempt(o, p, cfg, e)
    case None => PollResult(s, false)
    case Some(f) =>
      if !Fillable(Built(o, f, e.fillId)) || o.filled < 0.0 || o.id != id then PollResult(s, true)
      else
        var fill: Fill := Built(o, f, e.fillId);
        var outcome := FillOutcome(s.oms, fill);
        PollResult(
          Sys(Orders.AfterFill(s.oms, fill), if outcome.Done? then Accounts.AfterFill(s.acct, fill) else s.acct),
          !outcome.Done? && !outcome.Duplicate?)
  }

  function ExpiryTarget(o: Order): (s: Status) {
    if o.filled <= 0.0 then Expired else Cancelled
  }

  function ExpireStage(s: Sys, id: string, now: int): (r: PollResult)
    requires id in s.oms.orders
  {
    var o := s.oms.orders[id];
    if o.status.IsTerminal() || o.ticket.expiresAt.None? || now < o.ticket.expiresAt.value then PollResult(s, false)
    else PollResult(s.(oms := AfterTransition(s.oms, id, ExpiryTarget(o))), !MoveOutcome(s.oms, id, ExpiryTarget(o)).Done?)
  }

  // Advances one order to `now`; `raised` when the source would raise.
  function PollOne(s: Sys, id: string, p: Pending, now: int, cfg: ExecConfig, e: Encounter): (r: PollResult)
    requires id in s.oms.orders
  {
    var o := s.oms.orders[id];
    if o.status.IsTerminal() || o.status == Unknown then PollResult(s, false)
    else if p.forceUnknown then
      PollResult(s.(oms := AfterMove(s.oms, id, Unknown)), !MoveOutcome(s.oms, id, Unknown).Done?)
    else if now < p.ackAt then PollResult(s, false)
    else
      var arrived := s.(oms := Arrived(s.oms, id));
      if o.status == CancelPending && !CancelDue(p, now) then PollResult(arrived, false)
      else if o.status == CancelPending && CancelWins(o.ticket, e.opposing, e.cancelDraw, cfg.makerProbability) then
        PollResult(arrived.(oms := AfterTransition(arrived.oms, id, Cancelled)), false)
      else
        var filled := FillStage(arrived, id, p, cfg, e);
        if filled.raised || id !in filled.sys.oms.orders then filled else ExpireStage(filled.sys, id, now)
  }

  // -- order integrity ------------------------------------------------------------------------

  // What the executor keeps of every order it placed.
  ghost predicate Placed(o: Order) {
    && o.status != Created && o.status != Acknowledged
    && o.filled <= o.ticket.quantity
    && (o.status in {Submitting, Open} ==> o.fills == [])
    && (o.status == PartiallyFilled ==> o.fills != [])
    && (IsMarketable(o.ticket) || (o.ticket.limitPrice.Some? ==> o.ticket.limitPrice.value > 0.0))
  }

  // Order integrity does not turn on the account: `how` says what else is
  // known of the two books.
  ghost predicate ExecInv(s: Sys, how: Standing) {
    Stands(s, how) && AllPlaced(s.oms.orders)
  }

  ghost predicate AllPlaced(orders: map<string, Order>) {
    forall id :: id in orders ==> Placed(orders[id])
  }

  // Only the polled order changes, and not at all once it is terminal.
  ghost predicate OthersKept(s: Sys, r: Sys, id: string) {
    && r.oms.orders.Keys == s.oms.orders.Keys
    && forall j :: j in s.oms.orders && (j != id || s.oms.orders[j].status.IsTerminal()) ==>
         r.oms.orders[j] == s.oms.orders[j]
  }

  // A simulated fill fits in what is left of the order.
  lemma AttemptFits(o: Order, p: Pending, cfg: ExecConfig, e: Encounter)
    requires ValidConfig(cfg) && e.queueDraw >= 0.0 && Placed(o)
    requires Attempt(o, p, cfg, e).Some?
    ensures var f := Attempt(o, p, cfg, e).value;
      QTY_EPSILON < f.quantity <= o.Remaining() && f.price > 0.0
    ensures o.status in {Open, PartiallyFilled, CancelPending}
  {
    hide FillMarketable, FillPassive;
    if IsMarketable(o.ticket) {
      MarketableFits(o, e.met, cfg.cap, cfg.takerBps);
    } else {
      PassiveFits(o, e.opposing, p.tradedThrough, cfg.makerProbability, cfg.queueAhead, e.draw, e.queueDraw, cfg.makerBps);
    }
  }

  // A fitting fill of a resting order is taken: no overfill, no illegal move.
  lemma FittingFillTaken(m: Oms, f: Fill)
    requires f.orderId in m.orders && f.fillId !in m.recent
    requires var o := m.orders[f.orderId];
      OrderInv(o) && Placed(o) && o.id == f.orderId && o.status in {Open, PartiallyFilled, CancelPending}
      && f.quantity <= o.Remaining() && f.fillId !in Ids(o.fills)
    ensures m.orders[f.orderId].filled >= 0.0 && FillOutcome(m, f).Done?
    ensures Placed(Orders.AfterFill(m, f).orders[f.orderId])
    ensures var o := Orders.AfterFill(m, f).orders[f.orderId];
      o.status in {Filled, PartiallyFilled} && o.filled > 0.0 && o.ticket == m.orders[f.orderId].ticket
    ensures Orders.AfterFill(m, f).orders.Keys == m.orders.Keys
    ensures forall j :: j in m.orders && j != f.orderId ==> Orders.AfterFill(m, f).orders[j] == m.orders[j]
  {
    hide Rolled, IsPath;
  }

  lemma MoveKeepsExec(s: Sys, id: string, status: Status, how: Standing)
    requires ExecInv(s, how) && id in s.oms.orders
    requires status in {Open, CancelPending, Cancelled, Expired, Unknown, Rejected}
    requires status == Open ==> s.oms.orders[id].fills == []
    ensures ExecInv(s.(oms := AfterMove(s.oms, id, status)), how)
    ensures ExecInv(s.(oms := AfterTransition(s.oms, id, status)), how)
    ensures !s.oms.orders[id].status.IsTerminal() ==> OthersKept(s, s.(oms := AfterMove(s.oms, id, status)), id)
    ensures !s.oms.orders[id].status.IsTerminal() ==> OthersKept(s, s.(oms := AfterTransition(s.oms, id, status)), id)
  {
    hide Stands, Placed;
    MoveStands(s, id, status, how);
    MovedPlaced(s.oms.orders[id], status);
  }

  lemma MoveStands(s: Sys, id: string, status: Status, how: Standing)
    requires Stands(s, how) && status != Filled
    ensures Stands(s.(oms := AfterMove(s.oms, id, status)), how)
    ensures Stands(s.(oms := AfterTransition(s.oms, id, status)), how)
  {
    hide Stands, AfterMove, Transitions;
    MovedStands(s, id, status, how);
    CounterIrrelevant(s.(oms := AfterMove(s.oms, id, status)), s.oms.illegal + 1, how);
  }

  lemma MovedStands(s: Sys, id: string, status: Status, how: Standing)
    requires Stands(s, how) && status != Filled
    ensures Stands(s.(oms := AfterMove(s.oms, id, status)), how)
  {
    StandingOms(s, how);
    hide Stands, AfterMove, OmsInv;
    ActStands(s, Move(id, status), how);
  }

  lemma StandingOms(s: Sys, how: Standing)
    requires Stands(s, how)
    ensures OmsInv(s.oms)
  {
  }

  lemma CounterIrrelevant(s: Sys, n: nat, how: Standing)
    requires Stands(s, how)
    ensures Stands(s.(oms := s.oms.(illegal := n)), how)
  {
    hide AccountInv, OrderInv;
    var r := s.(oms := s.oms.(illegal := n));
    if how.Apart? && s.oms.applied <= s.acct.applied {
      var id :| Orphan(s, id);
      assert Orphan(r, id);
    }
  }

  lemma MovedPlaced(o: Order, status: Status)
    requires Placed(o) && status in {Open, CancelPending, Cancelled, Expired, Unknown, Rejected}
    requires status == Open ==> o.fills == []
    ensures Placed(Moved(o, status))
  {
  }

  // An arrival passes through ACKNOWLEDGED on its way to OPEN.
  lemma ArrivalKeeps(s: Sys, id: string, how: Standing)
    requires ExecInv(s, how) && id in s.oms.orders
    ensures ExecInv(s.(oms := Arrived(s.oms, id)), how)
    ensures OthersKept(s, s.(oms := Arrived(s.oms, id)), id)
    ensures var o, r := s.oms.orders[id], Arrived(s.oms, id).orders[id];
      r.ticket == o.ticket && r.filled == o.filled && r.fills == o.fills && r.status != Submitting
      && (o.status != Submitting ==> r == o) && (o.status == Submitting ==> r.status == Open)
  {
    hide Stands;
    if s.oms.orders[id].status == Submitting {
      MoveStands(s, id, Acknowledged, how);
      MoveStands(s.(oms := AfterTransition(s.oms, id, Acknowledged)), id, Open, how);
    }
  }

  // The next fill id is freshly minted: neither book has seen it.
  ghost predicate Minted(s: Sys, fillId: string) {
    fillId !in s.oms.recent && fillId !in OmsFillIds(s.oms) && fillId !in Ids(s.acct.lifetime)
  }

  lemma MintedIsNew(s: Sys, id: string, fillId: string)
    requires OmsInv(s.oms) && Minted(s, fillId) && id in s.oms.orders
    ensures fillId !in s.oms.recent && fillId !in Ids(s.oms.orders[id].fills)
    ensures s.oms.orders[id].id == id && OrderInv(s.oms.orders[id]) && s.oms.orders[id].filled >= 0.0
  {
    hide IsPath;
  }

  // A fill, if there is one, is taken by both books and fills the order no further than full.
  lemma FillStageKeeps(s: Sys, id: string, p: Pending, cfg: ExecConfig, e: Encounter, how: Standing)
    requires ExecInv(s, how) && id in s.oms.orders && Minted(s, e.fillId)
    requires ValidConfig(cfg) && e.queueDraw >= 0.0
    ensures var r := FillStage(s, id, p, cfg, e);
      !r.raised && ExecInv(r.sys, how) && OthersKept(s, r.sys, id)
    ensures var r, o := FillStage(s, id, p, cfg, e), s.oms.orders[id];
      if Attempt(o, p, cfg, e).None? then r.sys == s
      else
        var q := r.sys.oms.orders[id];
        q.ticket == o.ticket && q.filled > 0.0 && q.status in {Filled, PartiallyFilled}
  {
    hide Stands, Attempt, OmsInv, OrderInv, Orders.AfterFill, FillOutcome, Accounts.AfterFill;
    StandingOms(s, how);
    var o := s.oms.orders[id];
    if Attempt(o, p, cfg, e).Some? {
      AttemptFits(o, p, cfg, e);
      MintedIsNew(s, id, e.fillId);
      var fill: Fill := Built(o, Attempt(o, p, cfg, e).value, e.fillId);
      FittingFillTaken(s.oms, fill);
      CleanDelivery(s, fill, how);
    }
  }

  lemma CleanDelivery(s: Sys, f: Fill, how: Standing)
    requires Stands(s, how) && Minted(s, f.fillId)
    requires f.orderId in s.oms.orders ==> s.oms.orders[f.orderId].filled >= 0.0
    requires FillOutcome(s.oms, f).Done?
    ensures Stands(Sys(Orders.AfterFill(s.oms, f), Accounts.AfterFill(s.acct, f)), how)
  {
    StandingOms(s, how);
    hide Stands, OmsInv, Orders.AfterFill, FillOutcome, Accounts.AfterFill, Strands, Takes;
    RefusedExactlyWhenStranded(s.oms, f);
    ActStands(s, Deliver(f), how);
  }

  predicate IsExpired(t: Ticket, now: int) {
    t.expiresAt.Some? && now >= t.expiresAt.value
  }

  // Expiry raises exactly on an unfilled order whose cancel is pending:
  // CANCEL_PENDING may not become EXPIRED.
  lemma ExpireStageKeeps(s: Sys, id: string, now: int, how: Standing)
    requires ExecInv(s, how) && id in s.oms.orders
    requires s.oms.orders[id].status in {Open, PartiallyFilled, CancelPending, Filled}
    ensures var r, o := ExpireStage(s, id, now), s.oms.orders[id];
      && ExecInv(r.sys, how) && OthersKept(s, r.sys, id)
      && (r.raised <==> o.status == CancelPending && IsExpired(o.ticket, now) && o.filled <= 0.0)
  {
    hide Stands, OrderInv, Placed;
    var o := s.oms.orders[id];
    StandingOms(s, how);
    ResidentOrder(s, id);
    FilledMeansFills(o);
    MoveKeepsExec(s, id, ExpiryTarget(o), how);
  }

  lemma ResidentOrder(s: Sys, id: string)
    requires OmsInv(s.oms) && id in s.oms.orders
    ensures OrderInv(s.oms.orders[id]) && s.oms.orders[id].id == id
  {
    hide OrderInv;
  }

  lemma OthersKeptTwice(a: Sys, b: Sys, c: Sys, id: string)
    requires id in a.oms.orders && !a.oms.orders[id].status.IsTerminal()
    requires OthersKept(a, b, id) && OthersKept(b, c, id)
    ensures OthersKept(a, c, id)
  {
  }

  lemma FilledMeansFills(o: Order)
    requires OrderInv(o) && Placed(o)
    ensures o.status == Open ==> o.filled == 0.0
    ensures o.status == PartiallyFilled ==> o.filled > 0.0
  {
  }

  // The one way a poll raises: a cancel lost its race, nothing traded, and the
  // order has expired without a fill.
  ghost predicate PollRaises(o: Order, p: Pending, now: int, cfg: ExecConfig, e: Encounter) {
    && o.status == CancelPending && !p.forceUnknown && now >= p.ackAt && CancelDue(p, now)
    && !CancelWins(o.ticket, e.opposing, e.cancelDraw, cfg.makerProbability)
    && Attempt(o, p, cfg, e).None?
    && IsExpired(o.ticket, now) && o.filled <= 0.0
  }

  // Polling one order keeps every order within its quantity and whatever is
  // known of the two books, leaves every other order and every terminal order
  // alone, and raises exactly when PollRaises says so.
  lemma PollKeeps(s: Sys, id: string, p: Pending, now: int, cfg: ExecConfig, e: Encounter, how: Standing)
    requires ExecInv(s, how) && id in s.oms.orders && Minted(s, e.fillId)
    requires ValidConfig(cfg) && e.queueDraw >= 0.0
    ensures var r := PollOne(s, id, p, now, cfg, e);
      && ExecInv(r.sys, how) && OthersKept(s, r.sys, id)
      && (r.raised <==> PollRaises(s.oms.orders[id], p, now, cfg, e))
  {
    hide Stands, Attempt, CancelWins, FillStage, ExpireStage, Placed, Moved, OrderInv, Arrived;
    var o := s.oms.orders[id];
    if o.status.IsTerminal() || o.status == Unknown {
    } else if p.forceUnknown {
      PlacedMayBeLost(o);
      MoveKeepsExec(s, id, Unknown, how);
    } else if now >= p.ackAt {
      ArrivalKeeps(s, id, how);
      var arrived := s.(oms := Arrived(s.oms, id));
      if o.status == CancelPending && !CancelDue(p, now) {
      } else if o.status == CancelPending && CancelWins(o.ticket, e.opposing, e.cancelDraw, cfg.makerProbability) {
        MoveKeepsExec(arrived, id, Cancelled, how);
      } else {
        PollTrades(s, arrived, id, p, now, cfg, e, how);
      }
    }
  }

  lemma PlacedMayBeLost(o: Order)
    requires Placed(o) && !o.status.IsTerminal() && o.status != Unknown
    ensures Unknown in Transitions(o.status)
    ensures o.status in {Submitting, Open, PartiallyFilled, CancelPending}
  {
  }

  // The last stage of a poll: trade, then expire.
  lemma PollTrades(
    s: Sys, arrived: Sys, id: string, p: Pending, now: int, cfg: ExecConfig, e: Encounter, how: Standing)
    requires ExecInv(arrived, how) && id in s.oms.orders && id in arrived.oms.orders && Minted(s, e.fillId)
    requires OthersKept(s, arrived, id) && Placed(s.oms.orders[id])
    requires arrived == s.(oms := Arrived(s.oms, id))
    requires ValidConfig(cfg) && e.queueDraw >= 0.0
    requires !s.oms.orders[id].status.IsTerminal() && s.oms.orders[id].status != Unknown
    requires var o, a := s.oms.orders[id], arrived.oms.orders[id];
      a.fills == o.fills && (o.status != Submitting ==> a == o) && (o.status == Submitting ==> a.status == Open)
    ensures var filled := FillStage(arrived, id, p, cfg, e);
      && !filled.raised && id in filled.sys.oms.orders
      && (var r := ExpireStage(filled.sys, id, now);
        && ExecInv(r.sys, how) && OthersKept(s, r.sys, id)
        && (r.raised <==>
              s.oms.orders[id].status == CancelPending && Attempt(s.oms.orders[id], p, cfg, e).None?
              && IsExpired(s.oms.orders[id].ticket, now) && s.oms.orders[id].filled <= 0.0))
  {
    hide Stands, Attempt, FillStage, ExpireStage, Placed, OmsFillIds, OthersKept, ExecInv, Minted, Arrived;
    PlacedMayBeLost(s.oms.orders[id]);
    ArrivalKeepsMint(s, id, e.fillId);
    FillStageKeeps(arrived, id, p, cfg, e, how);
    var filled := FillStage(arrived, id, p, cfg, e).sys;
    KeysKept(arrived, filled, id);
    ExpireStageKeeps(filled, id, now, how);
    OthersKeptTwice(s, arrived, filled, id);
    OthersKeptTwice(s, filled, ExpireStage(filled, id, now).sys, id);
    if s.oms.orders[id].status == Submitting {
      NotCancelPending(arrived, filled, id, p, cfg, e);
    }
  }

  lemma KeysKept(s: Sys, r: Sys, id: string)
    requires OthersKept(s, r, id) && id in s.oms.orders
    ensures id in r.oms.orders
  {
  }

  lemma NotCancelPending(s: Sys, r: Sys, id: string, p: Pending, cfg: ExecConfig, e: Encounter)
    requires id in s.oms.orders && s.oms.orders[id].status == Open && id in r.oms.orders
    requires if Attempt(s.oms.orders[id], p, cfg, e).None? then r == s
      else r.oms.orders[id].status in {Filled, PartiallyFilled}
    ensures r.oms.orders[id].status != CancelPending
  {
    hide Attempt;
  }

  lemma ArrivalKeepsMint(s: Sys, id: string, fillId: string)
    requires id in s.oms.orders && Minted(s, fillId)
    ensures Minted(s.(oms := Arrived(s.oms, id)), fillId)
  {
    var r := Arrived(s.oms, id);
    assert forall j :: j in r.orders ==> r.orders[j].fills == s.oms.orders[j].fills;
  }

  // A cancel that reaches the executor before the order is acknowledged only
  // stamps a time nothing reads: the poll ignores it.
  lemma EarlyCancelIgnored(s: Sys, id: string, p: Pending, at: Option<int>, now: int, cfg: ExecConfig, e: Encounter)
    requires id in s.oms.orders && s.oms.orders[id].status != CancelPending
    ensures PollOne(s, id, p, now, cfg, e) == PollOne(s, id, p.(cancelAt := at), now, cfg, e)
  {
    hide AfterMove, ExpireStage, FillOutcome, FillMarketable, FillPassive;
  }

  // -- cancelling and submitting ----------------------------------------------------------------

  function CancelOne(s: Sys, id: string): (r: PollResult) {
    if id !in s.oms.orders || !s.oms.orders[id].status.IsLive() then PollResult(s, false)
    else if s.oms.orders[id].status in {Created, Submitting} then PollResult(s, false)
    else PollResult(s.(oms := AfterTransition(s.oms, id, CancelPending)), !MoveOutcome(s.oms, id, CancelPending).Done?)
  }

  // Cancelling raises exactly when a cancel is already pending.
  lemma CancelKeeps(s: Sys, id: string, how: Standing)
    requires ExecInv(s, how)
    ensures var r := CancelOne(s, id);
      && ExecInv(r.sys, how)
      && (r.raised <==> id in s.oms.orders && s.oms.orders[id].status == CancelPending)
      && OthersKept(s, r.sys, id)
  {
    hide Stands, Placed;
    if id in s.oms.orders && s.oms.orders[id].status.IsLive() {
      PlacedMayBeLost(s.oms.orders[id]);
      MoveKeepsExec(s, id, CancelPending, how);
    }
  }

  // A cancel of every order of a queue, in turn; the first that raises ends it.
  function CancelEach(s: Sys, queue: seq<string>): (r: PollResult)
    decreases |queue|
  {
    if queue == [] then PollResult(s, false)
    else
      var r := CancelOne(s, queue[0]);
      if r.raised then r else CancelEach(r.sys, queue[1..])
  }

  predicate AwaitsCancel(s: Sys, id: string) {
    id in s.oms.orders && s.oms.orders[id].status == CancelPending
  }

  // The venue has the order and may still trade it.
  predicate AtVenue(s: Sys, id: string) {
    id in s.oms.orders && s.oms.orders[id].status in {Acknowledged, Open, PartiallyFilled, CancelPending}
  }

  ghost predicate SomeAwaits(s: Sys, queue: seq<string>) {
    exists id :: id in queue && AwaitsCancel(s, id)
  }

  // What an unraised pass does to the orders of its queue.
  ghost predicate Requested(s: Sys, r: Sys, queue: seq<string>) {
    forall id :: id in queue ==> (AwaitsCancel(r, id) <==> AtVenue(s, id))
  }

  lemma CancelAsks(s: Sys, id: string, how: Standing)
    requires ExecInv(s, how) && !CancelOne(s, id).raised
    ensures AwaitsCancel(CancelOne(s, id).sys, id) <==> AtVenue(s, id)
  {
    hide Stands, Placed, Transitions;
  }

  // Cancelling a queue of orders raises exactly when one of them already
  // awaits its cancel, and otherwise leaves every one the venue has awaiting.
  lemma {:induction false} CancelEachKeeps(s: Sys, queue: seq<string>, how: Standing)
    requires ExecInv(s, how) && Distinct(queue)
    ensures var r := CancelEach(s, queue);
      && ExecInv(r.sys, how) && r.sys.oms.orders.Keys == s.oms.orders.Keys
      && (forall id :: id in s.oms.orders && (id !in queue || s.oms.orders[id].status.IsTerminal()) ==>
            r.sys.oms.orders[id] == s.oms.orders[id])
      && (r.raised <==> SomeAwaits(s, queue))
      && (!r.raised ==> Requested(s, r.sys, queue))
    decreases |queue|
  {
    hide ExecInv, CancelOne, Requested, SomeAwaits, Status.IsTerminal;
    if queue == [] {
      NothingAsked(s);
    } else {
      var id, rest := queue[0], queue[1..];
      assert queue == [id] + rest;
      CancelKeeps(s, id, how);
      var r := CancelOne(s, id);
      if r.raised {
        AwaitsAmong(s, queue, id);
      } else {
        CancelAsks(s, id, how);
        CancelEachKeeps(r.sys, rest, how);
        CancelRest(s, r.sys, CancelEach(r.sys, rest).sys, queue);
      }
    }
  }

  lemma NothingAsked(s: Sys)
    ensures !SomeAwaits(s, []) && Requested(s, s, [])
  {
  }

  lemma AwaitsAmong(s: Sys, queue: seq<string>, id: string)
    requires id in queue && AwaitsCancel(s, id)
    ensures SomeAwaits(s, queue)
  {
  }

  lemma CancelRest(s: Sys, r: Sys, t: Sys, queue: seq<string>)
    requires Distinct(queue) && queue != [] && OthersKept(s, r, queue[0]) && !AwaitsCancel(s, queue[0])
    requires AwaitsCancel(r, queue[0]) <==> AtVenue(s, queue[0])
    requires t.oms.orders.Keys == r.oms.orders.Keys
    requires queue[0] in r.oms.orders && queue[0] !in queue[1..] ==> t.oms.orders[queue[0]] == r.oms.orders[queue[0]]
    ensures SomeAwaits(s, queue) <==> SomeAwaits(r, queue[1..])
    ensures Requested(r, t, queue[1..]) ==> Requested(s, t, queue)
  {
    var id, rest := queue[0], queue[1..];
    assert queue == [id] + rest;
    assert id !in rest;
    forall j | j in rest ensures (AwaitsCancel(s, j) <==> AwaitsCancel(r, j)) && (AtVenue(s, j) <==> AtVenue(r, j)) {
    }
  }

  // The second pass over a queue raises exactly when the first had anything to
  // ask of the venue: a deadline that cancels on every tick fails on the next.
  lemma SecondPassRaises(s: Sys, queue: seq<string>, how: Standing)
    requires ExecInv(s, how) && Distinct(queue) && !CancelEach(s, queue).raised
    ensures CancelEach(CancelEach(s, queue).sys, queue).raised <==> exists id :: id in queue && AtVenue(s, id)
  {
    hide ExecInv, CancelEach, AwaitsCancel, AtVenue;
    CancelEachKeeps(s, queue, how);
    CancelEachKeeps(CancelEach(s, queue).sys, queue, how);
  }

  function SubmitOne(s: Sys, id: string, ticket: Ticket, disabled: bool): (r: Sys) {
    var created := s.(oms := AfterCreate(s.oms, id, ticket));
    created.(oms := AfterTransition(created.oms, id, if disabled then Rejected else Submitting))
  }

  predicate Sendable(t: Ticket) {
    IsMarketable(t) || (t.limitPrice.Some? ==> t.limitPrice.value > 0.0)
  }

  lemma SubmitKeeps(s: Sys, id: string, ticket: Ticket, disabled: bool, how: Standing)
    requires ExecInv(s, how) && id !in s.oms.orders && Sendable(ticket)
    ensures ExecInv(SubmitOne(s, id, ticket, disabled), how)
    ensures var o := SubmitOne(s, id, ticket, disabled).oms.orders[id];
      o.status == (if disabled then Rejected else Submitting) && o.ticket == ticket && o.filled == 0.0
    ensures forall j :: j in s.oms.orders ==>
      j in SubmitOne(s, id, ticket, disabled).oms.orders && SubmitOne(s, id, ticket, disabled).oms.orders[j] == s.oms.orders[j]
  {
    hide Stands;
    CreateStands(s, id, ticket, how);
    MoveStands(s.(oms := AfterCreate(s.oms, id, ticket)), id, if disabled then Rejected else Submitting, how);
  }

  lemma CreateStands(s: Sys, id: string, ticket: Ticket, how: Standing)
    requires Stands(s, how) && id !in s.oms.orders
    ensures Stands(s.(oms := AfterCreate(s.oms, id, ticket)), how)
  {
    StandingOms(s, how);
    hide Stands;
    ActStands(s, Create(id, ticket), how);
  }

  // -- whole executor runs ------------------------------------------------------------------------

  datatype ExecStep =
    | Submit(id: string, ticket: Ticket, disabled: bool)
    | CancelOrder(id: string)
    | Poll(id: string, pending: Pending, now: int, cfg: ExecConfig, e: Encounter)
    | Reconcile

  // What the environment guarantees a step: fresh ids, resident orders to
  // poll, a valid configuration and draws. The reconciler may run at any time,
  // wherever its cut falls.
  ghost predicate Allowed(s: Sys, step: ExecStep) {
    match step
    case Submit(id, ticket, _) => id !in s.oms.orders && Sendable(ticket)
    case CancelOrder(_) => true
    case Poll(id, _, _, cfg, e) =>
      id in s.oms.orders && Minted(s, e.fillId) && ValidConfig(cfg) && e.queueDraw >= 0.0
    case Reconcile => true
  }

  ghost function ExecNext(s: Sys, step: ExecStep): (r: PollResult)
    requires Allowed(s, step)
  {
    match step
    case Submit(id, ticket, disabled) => PollResult(SubmitOne(s, id, ticket, disabled), false)
    case CancelOrder(id) => CancelOne(s, id)
    case Poll(id, p, now, cfg, e) => PollOne(s, id, p, now, cfg, e)
    case Reconcile => PollResult(if ReconcileOk(s) then AfterCompaction(s) else s, false)
  }

  // The two ways the executor can ask for an illegal move.
  ghost predicate Raises(s: Sys, step: ExecStep) {
    match step
    case CancelOrder(id) => id in s.oms.orders && s.oms.orders[id].status == CancelPending
    case Poll(id, p, now, cfg, e) => id in s.oms.orders && PollRaises(s.oms.orders[id], p, now, cfg, e)
    case _ => false
  }

  // A terminal order is left as it is until it is archived.
  ghost predicate TerminalKept(s: Sys, r: Sys) {
    forall id :: id in s.oms.orders && id in r.oms.orders && s.oms.orders[id].status.IsTerminal() ==>
      r.oms.orders[id] == s.oms.orders[id]
  }

  // What is known after a step: only a compaction that cuts through an order
  // sets the books apart.
  ghost function StandingAfter(s: Sys, step: ExecStep, how: Standing): (r: Standing) {
    if how.InStep? && step.Reconcile? && !CleanStep(s, Run) then Apart else how
  }

  lemma ExecStepKeeps(s: Sys, step: ExecStep, how: Standing)
    requires ExecInv(s, how) && Allowed(s, step)
    ensures var r := ExecNext(s, step);
      && ExecInv(r.sys, StandingAfter(s, step, how)) && TerminalKept(s, r.sys)
      && (r.raised <==> Raises(s, step))
  {
    hide Stands, AllPlaced, PollRaises, SubmitOne, CancelOne, PollOne, CleanStep, ReconcileOk, Minted, AfterCompaction;
    match step
    case Submit(id, ticket, disabled) => SubmitKeeps(s, id, ticket, disabled, how);
    case CancelOrder(id) => CancelKeeps(s, id, how);
    case Poll(id, p, now, cfg, e) => PollKeeps(s, id, p, now, cfg, e, how);
    case Reconcile => ReconcileKeeps(s, how);
  }

  lemma ReconcileKeeps(s: Sys, how: Standing)
    requires ExecInv(s, how)
    ensures var r := if ReconcileOk(s) then AfterCompaction(s) else s;
      ExecInv(r, StandingAfter(s, Reconcile, how)) && TerminalKept(s, r)
  {
    StandingOms(s, how);
    ReconcileStands(s, how);
    hide Stands, CleanStep, SealCut, Doomed, ReconcileOk;
  }

  lemma ReconcileStands(s: Sys, how: Standing)
    requires Stands(s, how)
    ensures Stands(if ReconcileOk(s) then AfterCompaction(s) else s, StandingAfter(s, Reconcile, how))
  {
    hide SysInv, Broken, CleanStep, ReconcileOk, AfterCompaction, OmsInv;
    match how
    case InStep =>
      InvReconciles(s);
      CompactionKeeps(s);
      if CleanStep(s, Run) {
        SysInvOms(AfterCompaction(s));
      }
    case Apart => BrokenAlarms(s);
    case Either => ActKeepsOms(s, Run);
  }

  // No reconciliation so far has compacted through an order.
  ghost predicate CleanSoFar(states: seq<Sys>, steps: seq<ExecStep>, n: nat)
    requires n <= |steps| <= |states|
  {
    forall i :: 0 <= i < n && steps[i].Reconcile? ==> CleanStep(states[i], Run)
  }

  // Order integrity over every executor run: whatever the market, the draws,
  // the interleaving and the cuts, every order stays within its quantity and
  // moves only along legal transitions, terminal orders stay as they are, and
  // a step raises exactly in the two cases above. The two books agree exactly
  // as long as no compaction has cut through an order.
  lemma {:induction false} OrderIntegrity(
    states: seq<Sys>, steps: seq<ExecStep>, initial: real, retained: nat, dedupeLimit: nat, n: nat)
    requires |states| == |steps| + 1 && states[0] == Start(initial, retained, dedupeLimit) && n <= |steps|
    requires forall i :: 0 <= i < |steps| ==>
      Allowed(states[i], steps[i]) && states[i + 1] == ExecNext(states[i], steps[i]).sys
    ensures ExecInv(states[n], if CleanSoFar(states, steps, n) then InStep else Apart)
    ensures forall i :: 0 <= i < n ==>
      TerminalKept(states[i], states[i + 1]) && (ExecNext(states[i], steps[i]).raised <==> Raises(states[i], steps[i]))
    ensures forall id :: id in states[n].oms.orders ==> Integral(states[n].oms.orders[id])
    ensures ReconcileOk(states[n]) <==> CleanSoFar(states, steps, n)
  {
    hide Stands, Allowed, ExecNext, Raises, TerminalKept, ReconcileOk, Integral, CleanStep, AllPlaced, Placed;
    var how := if CleanSoFar(states, steps, n) then InStep else Apart;
    if n == 0 {
      StartsOut(initial, retained, dedupeLimit);
    } else {
      OrderIntegrity(states, steps, initial, retained, dedupeLimit, n - 1);
      ExecStepKeeps(states[n - 1], steps[n - 1], if CleanSoFar(states, steps, n - 1) then InStep else Apart);
    }
    StandingTold(states[n], how);
    forall id | id in states[n].oms.orders ensures Integral(states[n].oms.orders[id]) {
      OrderIntegral(states[n], how, id);
    }
  }

  lemma StartsOut(initial: real, retained: nat, dedupeLimit: nat)
    ensures ExecInv(Start(initial, retained, dedupeLimit), InStep)
  {
    StartInv(initial, retained, dedupeLimit);
    SysInvOms(Start(initial, retained, dedupeLimit));
  }

  // Reconciliation tells the two standings apart.
  lemma StandingTold(s: Sys, how: Standing)
    requires ExecInv(s, how) && !how.Either?
    ensures ReconcileOk(s) <==> how.InStep?
  {
    hide SysInv, Broken, ReconcileOk;
    if how.InStep? {
      InvReconciles(s);
    } else {
      BrokenAlarms(s);
    }
  }

  lemma OrderIntegral(s: Sys, how: Standing, id: string)
    requires ExecInv(s, how) && id in s.oms.orders
    ensures Integral(s.oms.orders[id])
  {
    hide OrderInv, Integral, Placed;
    StandingOms(s, how);
    ResidentOrder(s, id);
    WithinQuantity(s.oms.orders[id]);
  }

  // What order integrity means for one order.
  ghost predicate Integral(o: Order) {
    && o.filled == SumQuantity(o.fills) <= o.ticket.quantity
    && (o.average.Some? ==> o.average.value * o.filled == SumNotional(o.fills))
    && (o.status == Filled ==> o.Remaining() <= QTY_EPSILON)
    && IsPath(o.history) && |o.history| > 0 && o.history[0] == Created && o.history[|o.history| - 1] == o.status
  }

  lemma WithinQuantity(o: Order)
    requires OrderInv(o) && Placed(o)
    ensures Integral(o)
  {
  }

  // -- who leaves the order manager ------------------------------------------------------------------

  // No executor step loses an order that may still move: an order leaves
  // exactly on a compaction that finds it terminal with every fill sealed.
  lemma ExecOrdersLeave(s: Sys, step: ExecStep, id: string, how: Standing)
    requires ExecInv(s, how) && Allowed(s, step) && id in s.oms.orders
    ensures id !in ExecNext(s, step).sys.oms.orders <==>
      && step.Reconcile? && Compacts(s, Run)
      && Transitions(s.oms.orders[id].status) == {} && AllSealed(s.oms.orders[id], ExecNext(s, step).sys.acct.log)
  {
    hide Stands, AllPlaced, PollOne, CancelOne, SubmitOne, Minted, ReconcileOk, AllSealed, Transitions, AfterCompaction;
    StandingOms(s, how);
    match step
    case Submit(j, ticket, disabled) => SubmitKeeps(s, j, ticket, disabled, how);
    case CancelOrder(j) => CancelKeeps(s, j, how);
    case Poll(j, p, now, cfg, e) => PollKeeps(s, j, p, now, cfg, e, how);
    case Reconcile => OrdersLeave(s, Run, id);
  }

  // Over every executor run, an order that may still move before a step is
  // resident after it.
  lemma ExecWorkingOrdersStay(
    states: seq<Sys>, steps: seq<ExecStep>, initial: real, retained: nat, dedupeLimit: nat, n: nat, id: string)
    requires |states| == |steps| + 1 && states[0] == Start(initial, retained, dedupeLimit) && n < |steps|
    requires forall i :: 0 <= i < |steps| ==>
      Allowed(states[i], steps[i]) && states[i + 1] == ExecNext(states[i], steps[i]).sys
    requires id in states[n].oms.orders
    ensures Transitions(states[n].oms.orders[id].status) != {} ==> id in states[n + 1].oms.orders
    ensures id !in states[n + 1].oms.orders ==>
      steps[n].Reconcile? && AllSealed(states[n].oms.orders[id], states[n + 1].acct.log)
  {
    hide ExecInv, Allowed, ExecNext, Compacts, AllSealed, Transitions;
    var how := RunStands(states, steps, initial, retained, dedupeLimit, n);
    ExecOrdersLeave(states[n], steps[n], id, how);
  }

  // -- until the cancel resolves --------------------------------------------------------------------

  // A poll that finds the cancel not yet due.
  predicate TooEarly(step: ExecStep, id: string) {
    step.Poll? && step.id == id ==>
      !step.pending.forceUnknown && (step.now < step.pending.ackAt || !CancelDue(step.pending, step.now))
  }

  // Whatever else the executor does, an order whose cancel is pending goes on
  // awaiting it until a poll finds the cancel due, and every cancel of it in
  // the meantime raises.
  lemma {:induction false} CancelsRaiseUntilDue(
    states: seq<Sys>, steps: seq<ExecStep>, initial: real, retained: nat, dedupeLimit: nat, id: string, k: nat, n: nat)
    requires |states| == |steps| + 1 && states[0] == Start(initial, retained, dedupeLimit) && k <= n <= |steps|
    requires forall i :: 0 <= i < |steps| ==>
      Allowed(states[i], steps[i]) && states[i + 1] == ExecNext(states[i], steps[i]).sys
    requires AwaitsCancel(states[k], id) && forall i :: k <= i < n ==> TooEarly(steps[i], id)
    ensures AwaitsCancel(states[n], id)
    ensures CancelOne(states[n], id).raised
  {
    hide AwaitsCancel, TooEarly, Allowed, ExecNext, CancelOne, ExecInv;
    if n > k {
      CancelsRaiseUntilDue(states, steps, initial, retained, dedupeLimit, id, k, n - 1);
      var how := RunStands(states, steps, initial, retained, dedupeLimit, n - 1);
      StepLeavesCancel(states[n - 1], steps[n - 1], id, how);
    }
    AwaitingRaises(states[n], id);
  }

  lemma RunStands(
    states: seq<Sys>, steps: seq<ExecStep>, initial: real, retained: nat, dedupeLimit: nat, n: nat) returns (how: Standing)
    requires |states| == |steps| + 1 && states[0] == Start(initial, retained, dedupeLimit) && n <= |steps|
    requires forall i :: 0 <= i < |steps| ==>
      Allowed(states[i], steps[i]) && states[i + 1] == ExecNext(states[i], steps[i]).sys
    ensures ExecInv(states[n], how)
  {
    hide ExecInv, Allowed, ExecNext, Raises, TerminalKept, ReconcileOk, Integral, CleanStep;
    OrderIntegrity(states, steps, initial, retained, dedupeLimit, n);
    how := if CleanSoFar(states, steps, n) then InStep else Apart;
  }

  lemma AwaitingRaises(s: Sys, id: string)
    requires AwaitsCancel(s, id)
    ensures CancelOne(s, id).raised && CancelOne(s, id).sys.oms.orders == s.oms.orders
  {
  }

  lemma StepLeavesCancel(s: Sys, step: ExecStep, id: string, how: Standing)
    requires ExecInv(s, how) && Allowed(s, step) && AwaitsCancel(s, id) && TooEarly(step, id)
    ensures AwaitsCancel(ExecNext(s, step).sys, id)
  {
    hide ExecInv, PollOne, CancelOne, SubmitOne, Minted, Sendable, ReconcileOk, SealCut;
    match step
    case Submit(j, ticket, disabled) => SubmitKeeps(s, j, ticket, disabled, how);
    case CancelOrder(j) =>
      if j == id {
        AwaitingRaises(s, id);
      } else {
        CancelKeeps(s, j, how);
      }
    case Poll(j, p, now, cfg, e) =>
      if j == id {
        EarlyPollWaits(s, id, p, now, cfg, e);
      } else {
        PollKeeps(s, j, p, now, cfg, e, how);
      }
    case Reconcile => LiveStaysResident(s, id);
  }

  lemma EarlyPollWaits(s: Sys, id: string, p: Pending, now: int, cfg: ExecConfig, e: Encounter)
    requires AwaitsCancel(s, id) && !p.forceUnknown && (now < p.ackAt || !CancelDue(p, now))
    ensures PollOne(s, id, p, now, cfg, e).sys == s
  {
    hide FillStage, ExpireStage, CancelWins;
  }

  lemma LiveStaysResident(s: Sys, id: string)
    requires AwaitsCancel(s, id)
    ensures AwaitsCancel(AfterCompaction(s), id)
  {
    hide SealCut;
  }
}
