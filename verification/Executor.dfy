// PaperExecutor: the simulated venue, working on the live order manager and
// account. Settings, clock and market data arrive as arguments.
module PaperVenue {
  import opened Accounts
  import opened Common
  import opened Dedupe
  import opened Execution
  import opened ExecutorProgress
  import opened ExecutorRuns
  import opened LedgerRuns
  import opened Orders
  import opened Reconciliation

  // One poll of every order in `queue`, in turn; the first one that raises
  // ends the poll. Orders the executor is not tracking are passed over.
  function PollAll(
    s: Sys, queue: seq<string>, pending: map<string, Pending>, now: int, cfg: ExecConfig, market: map<string, Encounter>)
    : (r: PollResult)
    decreases |queue|
  {
    if queue == [] then PollResult(s, false)
    else
      var id := queue[0];
      if !Tracked(s, id, pending, market) then PollAll(s, queue[1..], pending, now, cfg, market)
      else
        var polled := PollOne(s, id, pending[id], now, cfg, market[id]);
        if polled.raised then polled else PollAll(polled.sys, queue[1..], pending, now, cfg, market)
  }

  predicate Tracked(s: Sys, id: string, pending: map<string, Pending>, market: map<string, Encounter>) {
    id in s.oms.orders && id in pending && id in market
  }

  // Every fill id the poll may hand out is freshly minted when it is handed out.
  ghost predicate MintedInTurn(
    s: Sys, queue: seq<string>, pending: map<string, Pending>, now: int, cfg: ExecConfig, market: map<string, Encounter>)
    decreases |queue|
  {
    queue != [] ==>
      var id := queue[0];
      if !Tracked(s, id, pending, market) then MintedInTurn(s, queue[1..], pending, now, cfg, market)
      else
        && Minted(s, market[id].fillId) && market[id].queueDraw >= 0.0
        && MintedInTurn(PollOne(s, id, pending[id], now, cfg, market[id]).sys, queue[1..], pending, now, cfg, market)
  }

  // Some tracked order of the queue is in the one state a poll cannot advance.
  ghost predicate Stuck(
    s: Sys, queue: seq<string>, pending: map<string, Pending>, now: int, cfg: ExecConfig, market: map<string, Encounter>)
  {
    exists id :: id in queue && Tracked(s, id, pending, market)
      && PollRaises(s.oms.orders[id], pending[id], now, cfg, market[id])
  }

  // A whole poll keeps every order within its quantity, every terminal order
  // as it is and whatever is known of the two books; it raises exactly when
  // one of the orders it visits is stuck.
  lemma {:induction false} PollAllKeeps(
    s: Sys, queue: seq<string>, pending: map<string, Pending>, now: int, cfg: ExecConfig, market: map<string, Encounter>,
    how: Standing)
    requires ExecInv(s, how) && ValidConfig(cfg) && Distinct(queue) && MintedInTurn(s, queue, pending, now, cfg, market)
    ensures var r := PollAll(s, queue, pending, now, cfg, market);
      ExecInv(r.sys, how) && TerminalKept(s, r.sys) && r.sys.oms.orders.Keys == s.oms.orders.Keys
    ensures PollAll(s, queue, pending, now, cfg, market).raised <==> Stuck(s, queue, pending, now, cfg, market)
    decreases |queue|
  {
    hide ExecInv, PollOne, PollRaises, Minted, ValidConfig, Stuck;
    if queue != [] {
      var id, rest := queue[0], queue[1..];
      if Tracked(s, id, pending, market) {
        PollKeeps(s, id, pending[id], now, cfg, market[id], how);
        var polled := PollOne(s, id, pending[id], now, cfg, market[id]);
        StuckNow(s, polled.sys, queue, pending, now, cfg, market);
        if !polled.raised {
          PollAllKeeps(polled.sys, rest, pending, now, cfg, market, how);
        }
      } else {
        StuckLater(s, queue, pending, now, cfg, market);
        PollAllKeeps(s, rest, pending, now, cfg, market, how);
      }
    } else {
      NoneStuck(s, pending, now, cfg, market);
    }
  }

  lemma NoneStuck(s: Sys, pending: map<string, Pending>, now: int, cfg: ExecConfig, market: map<string, Encounter>)
    ensures !Stuck(s, [], pending, now, cfg, market)
  {
  }

  lemma StuckLater(
    s: Sys, queue: seq<string>, pending: map<string, Pending>, now: int, cfg: ExecConfig, market: map<string, Encounter>)
    requires queue != [] && !Tracked(s, queue[0], pending, market)
    ensures Stuck(s, queue, pending, now, cfg, market) <==> Stuck(s, queue[1..], pending, now, cfg, market)
  {
    hide PollRaises;
    assert queue == [queue[0]] + queue[1..];
  }

  // Polling one order decides nothing about the others.
  lemma StuckNow(
    s: Sys, r: Sys, queue: seq<string>, pending: map<string, Pending>, now: int, cfg: ExecConfig,
    market: map<string, Encounter>)
    requires Distinct(queue) && queue != [] && Tracked(s, queue[0], pending, market)
    requires OthersKept(s, r, queue[0])
    ensures Stuck(s, queue, pending, now, cfg, market) <==>
      PollRaises(s.oms.orders[queue[0]], pending[queue[0]], now, cfg, market[queue[0]])
      || Stuck(r, queue[1..], pending, now, cfg, market)
  {
    hide PollRaises;
    assert queue == [queue[0]] + queue[1..];
    assert queue[0] !in queue[1..];
  }

  // A poll that does not raise gives every order it visits all that one poll
  // owes it, whatever the orders before it in the queue did.
  lemma {:induction false} PollAllAdvances(
    s: Sys, queue: seq<string>, pending: map<string, Pending>, now: int, cfg: ExecConfig, market: map<string, Encounter>,
    how: Standing)
    requires ExecInv(s, how) && ValidConfig(cfg) && Distinct(queue) && MintedInTurn(s, queue, pending, now, cfg, market)
    ensures var r := PollAll(s, queue, pending, now, cfg, market);
      !r.raised ==> forall id :: id in queue && Tracked(s, id, pending, market) ==>
        id in r.sys.oms.orders
        && Advanced(s.oms.orders[id], r.sys.oms.orders[id], pending[id], now, cfg, market[id], false)
    ensures forall id :: id in s.oms.orders && id !in queue ==>
      var r := PollAll(s, queue, pending, now, cfg, market); id in r.sys.oms.orders && r.sys.oms.orders[id] == s.oms.orders[id]
    decreases |queue|
  {
    hide ExecInv, PollOne, Minted, ValidConfig, Advanced;
    if queue != [] {
      var id, rest := queue[0], queue[1..];
      assert queue == [id] + rest && id !in rest;
      if Tracked(s, id, pending, market) {
        PollKeeps(s, id, pending[id], now, cfg, market[id], how);
        PollAdvances(s, id, pending[id], now, cfg, market[id], how);
        var polled := PollOne(s, id, pending[id], now, cfg, market[id]);
        if !polled.raised {
          PollAllAdvances(polled.sys, rest, pending, now, cfg, market, how);
        }
      } else {
        PollAllAdvances(s, rest, pending, now, cfg, market, how);
      }
    }
  }

  // A position the account had stays in place; any other is new.
  twostate predicate PositionsKept(account: PaperAccount)
    reads account
  {
    forall key :: key in account.positions ==>
      || (key in old(account.positions) && account.positions[key] == old(account.positions)[key])
      || fresh(account.positions[key])
  }

  class PaperExecutor {
    const oms: OrderManager
    const account: PaperAccount
    const config: ExecConfig
    var pending: map<string, Pending>
    var executionDisabled: bool
    var rejectedSubmissions: nat

    constructor (oms: OrderManager, account: PaperAccount, config: ExecConfig)
      ensures this.oms == oms && this.account == account && this.config == config
      ensures pending == map[] && !executionDisabled && rejectedSubmissions == 0
    {
      this.oms, this.account, this.config := oms, account, config;
      pending, executionDisabled, rejectedSubmissions := map[], false, 0;
    }

    ghost predicate Valid()
      reads oms, oms.orders.Values, account, account.positions.Values
    {
      oms.Valid() && account.Valid()
    }

    ghost function View(): Sys
      reads oms, oms.orders.Values, account, account.positions.Values
    {
      Sys(oms.View(), account.View())
    }

    // Registers one planned order and sends it, or rejects it while disabled.
    method Submit(id: string, ticket: Ticket, now: int, latency: int)
      requires Valid()
      modifies this`pending, this`rejectedSubmissions
      modifies oms`orders, oms`ordersCreated, oms`illegalTransitions, oms.orders.Values
      ensures Valid()
      ensures View() == SubmitOne(old(View()), id, ticket, executionDisabled)
      ensures pending == if executionDisabled then old(pending)
        else old(pending)[id := Pending(now + latency, None, 0.0, false)]
      ensures rejectedSubmissions == old(rejectedSubmissions) + if executionDisabled then 1 else 0
    {
      hide OrderManager.Valid, OrderManager.View, PaperAccount.Valid, PaperAccount.View, AfterCreate, AfterTransition;
      var order := oms.Create(id, ticket);
      var outcome;
      if executionDisabled {
        rejectedSubmissions := rejectedSubmissions + 1;
        outcome := oms.Transition(id, Rejected);
      } else {
        outcome := oms.Transition(id, Submitting);
        pending := pending[id := Pending(now + latency, None, 0.0, false)];
      }
    }

    // Asks for a cancel. Before the order is acknowledged this only stamps a
    // time; raises when the cancel is already pending.
    method Cancel(id: string, now: int, cancelLatency: int) returns (raised: bool)
      requires Valid()
      modifies this`pending, oms`illegalTransitions, oms.orders.Values
      ensures Valid()
      ensures PollResult(View(), raised) == CancelOne(old(View()), id)
      ensures pending == if raised then old(pending) else StampedFor(old(View()), old(pending), id, now, cancelLatency)
    {
      hide OrderManager.Valid, OrderManager.View, PaperAccount.Valid, PaperAccount.View;
      hide AfterTransition, Orders.ViewOf, Transitions, Moved;
      oms.Visible();
      ViewOfAt(oms.orders, id);
      if id !in oms.orders || !oms.orders[id].status.IsLive() {
        return false;
      }
      if oms.orders[id].status in {Created, Submitting} {
        pending := Stamped(pending, id, now, now);
        return false;
      }
      var outcome := oms.Transition(id, CancelPending);
      if !outcome.Done? {
        return true;
      }
      pending := Stamped(pending, id, now, now + cancelLatency);
      return false;
    }

    // Asks for a cancel of every order of `queue`, at its venue's latency; the
    // first that raises ends it.
    method CancelAll(queue: seq<string>, now: int, latency: string -> int) returns (raised: bool)
      requires Valid()
      modifies this`pending, oms`illegalTransitions, oms.orders.Values
      ensures Valid()
      ensures PollResult(View(), raised) == CancelEach(old(View()), queue)
      ensures pending == StampedEach(old(View()), old(pending), queue, now, latency)
    {
      hide OrderManager.Valid, OrderManager.View, PaperAccount.Valid, PaperAccount.View, Orders.ViewOf;
      hide CancelOne, StampedFor;
      ghost var start := View();
      raised := false;
      for i := 0 to |queue|
        invariant Valid() && !raised
        invariant CancelEach(start, queue) == CancelEach(View(), queue[i..])
        invariant StampedEach(start, old(pending), queue, now, latency)
               == StampedEach(View(), pending, queue[i..], now, latency)
      {
        var id := queue[i];
        assert queue[i..][0] == id && queue[i..][1..] == queue[i + 1..];
        oms.Visible();
        ViewOfAt(oms.orders, id);
        raised := Cancel(id, now, if id in oms.orders then latency(oms.orders[id].ticket.venue) else 0);
        if raised {
          return;
        }
      }
      assert queue[|queue|..] == [];
    }

    // Tries to trade one order and books the fill, if there is one.
    method TryFill(id: string, p: Pending, e: Encounter) returns (raised: bool)
      requires Valid() && id in oms.orders
      modifies oms`appliedFills, oms`dedupeOrder, oms`fillsApplied, oms`duplicateFills, oms.orders.Values
      modifies account, account.positions.Values
      ensures Valid()
      ensures PollResult(View(), raised) == FillStage(old(View()), id, p, config, e)
      ensures PositionsKept(account)
    {
      hide OrderManager.Valid, OrderManager.View, PaperAccount.Valid, PaperAccount.View, Orders.ViewOf;
      hide Orders.AfterFill, Accounts.AfterFill, FillOutcome, Attempt, Fillable;
      oms.Visible();
      ViewOfAt(oms.orders, id);
      var order := oms.orders[id].View();
      var simulated := Attempt(order, p, config, e);
      if simulated.None? {
        return false;
      }
      var event := Built(order, simulated.value, e.fillId);
      if !Fillable(event) || order.filled < 0.0 || order.id != id {
        return true;
      }
      raised := RecordFill(AsFill(event));
    }

    // The fill goes to the order manager, and to the account if it was taken.
    method RecordFill(f: Fill) returns (raised: bool)
      requires Valid()
      modifies oms`appliedFills, oms`dedupeOrder, oms`fillsApplied, oms`duplicateFills, oms.orders.Values
      modifies account, account.positions.Values
      ensures Valid()
      ensures f.orderId in old(oms.View()).orders ==> old(oms.View()).orders[f.orderId].filled >= 0.0
      ensures oms.View() == Orders.AfterFill(old(oms.View()), f)
      ensures var outcome := FillOutcome(old(oms.View()), f);
        && account.View() == (if outcome.Done? then Accounts.AfterFill(old(account.View()), f) else old(account.View()))
        && raised == (!outcome.Done? && !outcome.Duplicate?)
      ensures PositionsKept(account)
    {
      hide OrderManager.Valid, OrderManager.View, PaperAccount.Valid, PaperAccount.View;
      hide Orders.AfterFill, Accounts.AfterFill, FillOutcome;
      var outcome := oms.ApplyFill(f);
      if outcome.Done? {
        var accepted := account.ApplyFill(f);
      }
      raised := !outcome.Done? && !outcome.Duplicate?;
    }

    // Ends an order whose time is up.
    method Expire(id: string, now: int) returns (raised: bool)
      requires Valid() && id in oms.orders
      modifies oms`illegalTransitions, oms.orders.Values
      ensures Valid()
      ensures PollResult(View(), raised) == ExpireStage(old(View()), id, now)
    {
      hide OrderManager.Valid, OrderManager.View, PaperAccount.Valid, PaperAccount.View, Orders.ViewOf, AfterTransition;
      oms.Visible();
      ViewOfAt(oms.orders, id);
      var order := oms.orders[id].View();
      if order.status.IsTerminal() || order.ticket.expiresAt.None? || now < order.ticket.expiresAt.value {
        return false;
      }
      var outcome := oms.Transition(id, ExpiryTarget(order));
      raised := !outcome.Done?;
    }

    // An order in flight reaches the venue.
    method Arrive(id: string)
      requires Valid() && id in oms.orders
      modifies oms`illegalTransitions, oms.orders.Values
      ensures Valid()
      ensures View() == old(View()).(oms := Arrived(old(View()).oms, id))
    {
      hide OrderManager.Valid, OrderManager.View, PaperAccount.Valid, PaperAccount.View, Orders.ViewOf, AfterTransition;
      oms.Visible();
      ViewOfAt(oms.orders, id);
      if oms.orders[id].status == Submitting {
        var outcome := oms.Transition(id, Acknowledged);
        outcome := oms.Transition(id, Open);
      }
    }

    // The operation timed out.
    method LoseSight(id: string) returns (raised: bool)
      requires Valid() && id in oms.orders && !oms.orders[id].status.IsTerminal()
      modifies oms.orders.Values
      ensures View() == old(View()).(oms := AfterMove(old(View()).oms, id, Unknown))
      ensures raised <==> !MoveOutcome(old(View()).oms, id, Unknown).Done?
      ensures Valid()
    {
      hide OrderManager.Valid, OrderManager.View, PaperAccount.Valid, PaperAccount.View, Orders.ViewOf, AfterMove;
      oms.Visible();
      ViewOfAt(oms.orders, id);
      var outcome := oms.MarkUnknown(id);
      raised := !outcome.Done?;
    }

    // The cancel won its race.
    method EndCancelled(id: string)
      requires Valid() && id in oms.orders
      modifies oms`illegalTransitions, oms.orders.Values
      ensures View() == old(View()).(oms := AfterTransition(old(View()).oms, id, Cancelled))
      ensures Valid()
    {
      hide OrderManager.Valid, OrderManager.View, PaperAccount.Valid, PaperAccount.View, AfterTransition;
      var outcome := oms.Transition(id, Cancelled);
    }

    // Advances one order to `now`.
    method PollOrder(id: string, now: int, e: Encounter) returns (raised: bool)
      requires Valid() && id in oms.orders && id in pending
      modifies oms`appliedFills, oms`dedupeOrder, oms`fillsApplied, oms`duplicateFills, oms`illegalTransitions
      modifies oms.orders.Values, account, account.positions.Values
      ensures id in old(View()).oms.orders
      ensures PollResult(View(), raised) == PollOne(old(View()), id, pending[id], now, config, e)
      ensures Valid()
      ensures PositionsKept(account)
    {
      hide OrderManager.Valid, OrderManager.View, PaperAccount.Valid, PaperAccount.View, Orders.ViewOf;
      hide Arrived, AfterTransition, AfterMove, FillStage, ExpireStage, CancelWins, MoveOutcome;
      oms.Visible();
      ViewOfAt(oms.orders, id);
      var order, p := oms.orders[id].View(), pending[id];
      assert order == View().oms.orders[id];
      if order.status.IsTerminal() || order.status == Unknown {
        return false;
      }
      if p.forceUnknown {
        raised := LoseSight(id);
        return;
      }
      if now < p.ackAt {
        return false;
      }
      Arrive(id);
      if order.status == CancelPending {
        if !CancelDue(p, now) {
          return false;
        }
        if CancelWins(order.ticket, e.opposing, e.cancelDraw, config.makerProbability) {
          EndCancelled(id);
          return false;
        }
      }
      raised := Trade(id, p, now, e);
    }

    // Trade, then expire what did not fill.
    method Trade(id: string, p: Pending, now: int, e: Encounter) returns (raised: bool)
      requires Valid() && id in oms.orders
      modifies oms`appliedFills, oms`dedupeOrder, oms`fillsApplied, oms`duplicateFills, oms`illegalTransitions
      modifies oms.orders.Values, account, account.positions.Values
      ensures Valid()
      ensures id in old(View()).oms.orders
      ensures var filled := FillStage(old(View()), id, p, config, e);
        PollResult(View(), raised) ==
          if filled.raised || id !in filled.sys.oms.orders then filled else ExpireStage(filled.sys, id, now)
      ensures PositionsKept(account)
    {
      hide OrderManager.Valid, OrderManager.View, PaperAccount.Valid, PaperAccount.View, Orders.ViewOf;
      hide FillStage, ExpireStage;
      oms.Visible();
      ViewOfAt(oms.orders, id);
      raised := TryFill(id, p, e);
      oms.Visible();
      ViewOfAt(oms.orders, id);
      if !raised {
        raised := Expire(id, now);
      }
    }

    // Advances every order of `queue` to `now`; the first one that raises ends
    // the poll.
    method Poll(queue: seq<string>, now: int, market: map<string, Encounter>) returns (raised: bool)
      requires Valid()
      modifies oms`appliedFills, oms`dedupeOrder, oms`fillsApplied, oms`duplicateFills, oms`illegalTransitions
      modifies oms.orders.Values, account, account.positions.Values
      ensures Valid()
      ensures PollResult(View(), raised) == PollAll(old(View()), queue, pending, now, config, market)
    {
      hide OrderManager.Valid, OrderManager.View, PaperAccount.Valid, PaperAccount.View, Orders.ViewOf, PollOne;
      ghost var start := View();
      raised := false;
      for i := 0 to |queue|
        invariant Valid() && !raised
        invariant PositionsKept(account)
        invariant PollAll(start, queue, pending, now, config, market)
               == PollAll(View(), queue[i..], pending, now, config, market)
      {
        var id := queue[i];
        oms.Visible();
        ViewOfAt(oms.orders, id);
        assert queue[i..][0] == id && queue[i..][1..] == queue[i + 1..];
        if id in oms.orders && id in pending && id in market {
          raised := PollOrder(id, now, market[id]);
          if raised {
            return;
          }
        }
      }
      assert queue[|queue|..] == [];
    }
  }

  function Stamped(pending: map<string, Pending>, id: string, now: int, at: int): (r: map<string, Pending>) {
    pending[id := (if id in pending then pending[id] else Pending(now, None, 0.0, false)).(cancelAt := Some(at))]
  }

  // The time a cancel stamps: at once on an order not yet acknowledged, after
  // the venue's latency on one it may still trade, none on any other.
  function StampedFor(s: Sys, pending: map<string, Pending>, id: string, now: int, latency: int): (r: map<string, Pending>) {
    if id !in s.oms.orders || !s.oms.orders[id].status.IsLive() then pending
    else Stamped(pending, id, now, now + if s.oms.orders[id].status in {Created, Submitting} then 0 else latency)
  }

  // A cancel of an order the venue has is due once its latency has passed, and
  // says nothing of any other order.
  lemma CancelTakesEffect(s: Sys, pending: map<string, Pending>, id: string, now: int, latency: int, t: int)
    requires AtVenue(s, id)
    ensures id in StampedFor(s, pending, id, now, latency)
    ensures CancelDue(StampedFor(s, pending, id, now, latency)[id], t) <==> t >= now + latency
    ensures forall j :: j in pending && j != id ==>
      j in StampedFor(s, pending, id, now, latency) && StampedFor(s, pending, id, now, latency)[j] == pending[j]
  {
  }

  function StampedEach(s: Sys, pending: map<string, Pending>, queue: seq<string>, now: int, latency: string -> int)
    : (r: map<string, Pending>)
    decreases |queue|
  {
    if queue == [] || CancelOne(s, queue[0]).raised then pending
    else
      var id := queue[0];
      var wait := if id in s.oms.orders then latency(s.oms.orders[id].ticket.venue) else 0;
      var stamped := StampedFor(s, pending, id, now, wait);
      StampedEach(CancelOne(s, id).sys, stamped, queue[1..], now, latency)
  }

  function AsFill(event: FillEvent): (f: Fill)
    requires Fillable(event)
  {
    event
  }
}
