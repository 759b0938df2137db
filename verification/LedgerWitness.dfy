// Concrete runs, from empty ledgers: two in which the books come apart although
// nothing was lost on the way, one that loses a fill, and one that posts a fill
// twice without a word. The account retains one fill and both books remember
// one id.
module LedgerWitness {
  import opened Accounts
  import opened Common
  import opened Dedupe
  import opened Execution
  import opened LedgerPace
  import opened LedgerRuns
  import opened Ledgers
  import opened Orders
  import opened Reconciliation
  import opened Totals

  function FillNamed(fillId: string, orderId: string, quantity: real): (f: Fill)
    requires quantity > 0.0
  {
    FillEvent(fillId, orderId, "V", "S", Buy, quantity, 100.0, 0.0)
  }

  const TICKET: Ticket := OrderTicket("V", "S", Buy, LIMIT, GTC, 2.0, Some(100.0), 100.0, None)

  // -- growing a run step by step -------------------------------------------------

  // A run so far, every step of it clean.
  datatype Trail = Trail(states: seq<Sys>, steps: seq<Action>) {
    ghost predicate Clean() {
      && |states| == |steps| + 1 && IsRun(states, steps) && CleanUpTo(states, steps, |steps|)
      && states[0] == Start(0.0, 1, 1) && SysInv(states[|steps|])
    }

    function Last(): (s: Sys)
      requires |states| > 0
    {
      states[|states| - 1]
    }
  }

  lemma Begin() returns (t: Trail)
    ensures t.Clean() && t.Last() == Start(0.0, 1, 1) && t.steps == []
  {
    t := Trail([Start(0.0, 1, 1)], []);
    StartInv(0.0, 1, 1);
  }

  lemma Extend(t: Trail, action: Action) returns (t': Trail)
    requires t.Clean() && WellFormed(t.Last(), action) && CleanStep(t.Last(), action)
    ensures t'.Clean() && OmsInv(t.Last().oms) && t'.Last() == Next(t.Last(), action)
    ensures t'.steps == t.steps + [action] && t'.states == t.states + [t'.Last()]
  {
    hide SysInv, WellFormed, CleanStep, Next;
    SysInvOms(t.Last());
    ActFromAgreement(t.Last(), action);
    t' := Trail(t.states + [Next(t.Last(), action)], t.steps + [action]);
    assert Follows(t.Last(), action, t'.Last());
  }

  // The step that sets the books apart, and what reconciliation says of it.
  lemma ComeApart(t: Trail, action: Action) returns (states: seq<Sys>, steps: seq<Action>)
    requires t.Clean() && WellFormed(t.Last(), action)
    requires !CleanStep(t.Last(), action) && !SilentStep(t.Last(), action)
    ensures |t.states| == |t.steps| + 1 && OmsInv(t.Last().oms)
    ensures states == t.states + [Next(t.Last(), action)] && steps == t.steps + [action]
    ensures IsRun(states, steps) && states[0] == Start(0.0, 1, 1) && CleanUpTo(states, steps, |t.steps|)
    ensures ReconcileOk(states[|t.steps|]) && !ReconcileOk(states[|steps|])
  {
    hide Trail.Clean, SysInv, WellFormed, CleanStep, SilentStep, Next, ReconcileOk, IsRun, CleanUpTo, OmsInv, Start;
    CleanMeans(t);
    AlarmAfter(t.Last(), action);
    var r := Next(t.Last(), action);
    states, steps := t.states + [r], t.steps + [action];
    RunExtends(t.states, t.steps, action);
  }

  lemma CleanMeans(t: Trail)
    requires t.Clean()
    ensures |t.states| == |t.steps| + 1 && IsRun(t.states, t.steps) && CleanUpTo(t.states, t.steps, |t.steps|)
    ensures t.states[0] == Start(0.0, 1, 1) && SysInv(t.Last()) && OmsInv(t.Last().oms)
  {
    hide IsRun, CleanUpTo, OmsInv, AccountInv;
  }

  lemma AlarmAfter(s: Sys, action: Action)
    requires SysInv(s) && WellFormed(s, action) && !CleanStep(s, action) && !SilentStep(s, action)
    ensures OmsInv(s.oms) && ReconcileOk(s) && !ReconcileOk(Next(s, action))
  {
    hide SysInv, WellFormed, CleanStep, SilentStep, Next, ReconcileOk, Broken, OmsInv;
    SysInvOms(s);
    InvReconciles(s);
    ActFromAgreement(s, action);
    BrokenAlarms(Next(s, action));
  }

  lemma RunExtends(states: seq<Sys>, steps: seq<Action>, action: Action)
    requires |states| == |steps| + 1 && IsRun(states, steps) && CleanUpTo(states, steps, |steps|)
    requires WellFormed(states[|steps|], action) && OmsInv(states[|steps|].oms)
    ensures IsRun(states + [Next(states[|steps|], action)], steps + [action])
    ensures CleanUpTo(states + [Next(states[|steps|], action)], steps + [action], |steps|)
  {
    hide WellFormed, CleanStep, Next, OmsInv;
    assert Follows(states[|steps|], action, Next(states[|steps|], action));
  }

  // How far a run has come: the state of every order, and the log, unsealed.
  datatype Place = Place(status: Status, filled: real)

  ghost predicate Stage(t: Trail, n: nat, book: map<string, Place>, log: seq<Fill>) {
    t.Clean() && |t.steps| == n && Here(t.Last(), book, log)
  }

  ghost predicate Here(s: Sys, book: map<string, Place>, log: seq<Fill>) {
    && s.acct.log == s.acct.lifetime == log && s.acct.retained == 1 == s.oms.dedupeLimit && s.oms.orders.Keys == book.Keys
    && forall id :: id in book ==>
         s.oms.orders[id].ticket == TICKET && s.oms.orders[id].status == book[id].status
         && s.oms.orders[id].filled == book[id].filled
  }

  lemma Extended(t: Trail, n: nat, book: map<string, Place>, log: seq<Fill>, action: Action,
                 book': map<string, Place>, log': seq<Fill>) returns (t': Trail)
    requires Stage(t, n, book, log) && WellFormed(t.Last(), action) && CleanStep(t.Last(), action)
    requires OmsInv(t.Last().oms) && Here(Next(t.Last(), action), book', log')
    ensures Stage(t', n + 1, book', log')
  {
    hide Trail.Clean, WellFormed, CleanStep, Next, Here, OmsInv;
    t' := Extend(t, action);
  }

  lemma Advanced(t: Trail, n: nat, book: map<string, Place>, log: seq<Fill>, id: string, next: Status) returns (t': Trail)
    requires Stage(t, n, book, log) && id in book && next in Transitions(book[id].status) && next != Filled
    ensures Stage(t', n + 1, book[id := Place(next, book[id].filled)], log)
  {
    hide SysInv, Stage, OmsInv, Trail.Clean;
    StageMeans(t, n, book, log);
    MovedHere(t.Last(), book, log, id, next);
    hide CleanStep, WellFormed, Here, Next;
    t' := Extended(t, n, book, log, Move(id, next), book[id := Place(next, book[id].filled)], log);
  }

  lemma MovedHere(s: Sys, book: map<string, Place>, log: seq<Fill>, id: string, next: Status)
    requires OmsInv(s.oms) && Here(s, book, log) && id in book && next in Transitions(book[id].status) && next != Filled
    ensures WellFormed(s, Move(id, next)) && CleanStep(s, Move(id, next))
    ensures Here(Next(s, Move(id, next)), book[id := Place(next, book[id].filled)], log)
  {
    hide OmsInv, Transitions;
  }

  lemma StageMeans(t: Trail, n: nat, book: map<string, Place>, log: seq<Fill>)
    requires Stage(t, n, book, log)
    ensures t.Clean() && |t.steps| == n && |t.states| == n + 1
    ensures Here(t.Last(), book, log) && OmsInv(t.Last().oms) && SysInv(t.Last())
  {
    hide Trail.Clean, Here, OmsInv, SysInv;
    CleanMeans(t);
  }

  // A new order, acknowledged by the venue.
  lemma Acknowledge(t: Trail, n: nat, book: map<string, Place>, log: seq<Fill>, id: string) returns (t': Trail)
    requires Stage(t, n, book, log) && id !in book
    ensures Stage(t', n + 3, book[id := Place(Acknowledged, 0.0)], log)
  {
    hide Stage;
    var created := Opened(t, n, book, log, id);
    var first := book[id := Place(Created, 0.0)];
    var sent := Advanced(created, n + 1, first, log, id, Submitting);
    t' := Advanced(sent, n + 2, first[id := Place(Submitting, 0.0)], log, id, Acknowledged);
    assert first[id := Place(Submitting, 0.0)][id := Place(Acknowledged, 0.0)] == book[id := Place(Acknowledged, 0.0)];
  }

  lemma Opened(t: Trail, n: nat, book: map<string, Place>, log: seq<Fill>, id: string) returns (t': Trail)
    requires Stage(t, n, book, log) && id !in book
    ensures Stage(t', n + 1, book[id := Place(Created, 0.0)], log)
  {
    hide SysInv, Stage, OmsInv, Trail.Clean;
    StageMeans(t, n, book, log);
    CreatedHere(t.Last(), book, log, id);
    hide CleanStep, WellFormed, Here, Next;
    t' := Extended(t, n, book, log, Create(id, TICKET), book[id := Place(Created, 0.0)], log);
  }

  lemma CreatedHere(s: Sys, book: map<string, Place>, log: seq<Fill>, id: string)
    requires OmsInv(s.oms) && Here(s, book, log) && id !in book
    ensures WellFormed(s, Create(id, TICKET)) && CleanStep(s, Create(id, TICKET))
    ensures Here(Next(s, Create(id, TICKET)), book[id := Place(Created, 0.0)], log)
  {
    hide OmsInv;
  }

  // Where a fill takes an order of two units.
  function Later(p: Place, quantity: real): (r: Place) {
    Place(if p.filled + quantity == 2.0 then Filled else PartiallyFilled, p.filled + quantity)
  }

  // A fresh fill of an acknowledged or partly filled order.
  lemma Trade(t: Trail, n: nat, book: map<string, Place>, log: seq<Fill>, f: Fill) returns (t': Trail)
    requires Stage(t, n, book, log) && f.orderId in book && book[f.orderId].status in {Acknowledged, PartiallyFilled}
    requires book[f.orderId].filled + f.quantity in {1.0, 2.0} && f.fillId !in Ids(log)
    ensures Stage(t', n + 1, book[f.orderId := Later(book[f.orderId], f.quantity)], log + [f])
  {
    hide SysInv, Stage, OmsInv, Ids, Trail.Clean;
    StageMeans(t, n, book, log);
    TradedHere(t.Last(), book, log, f);
    hide CleanStep, WellFormed, Here, Next, Later;
    t' := Extended(t, n, book, log, Deliver(f), book[f.orderId := Later(book[f.orderId], f.quantity)], log + [f]);
  }

  lemma TradedHere(s: Sys, book: map<string, Place>, log: seq<Fill>, f: Fill)
    requires SysInv(s) && OmsInv(s.oms) && Here(s, book, log)
    requires f.orderId in book && book[f.orderId].status in {Acknowledged, PartiallyFilled}
    requires book[f.orderId].filled + f.quantity in {1.0, 2.0} && f.fillId !in Ids(log)
    ensures WellFormed(s, Deliver(f)) && CleanStep(s, Deliver(f))
    ensures Here(Next(s, Deliver(f)), book[f.orderId := Later(book[f.orderId], f.quantity)], log + [f])
  {
    hide SysInv, Orders.AfterFill, FillOutcome, OmsInv, Accounts.AfterFill, Ids, Strands, Takes;
    var p := book[f.orderId];
    FillIsNew(s, f);
    PlacedNonNegative(s, f.orderId);
    Taken(s.oms, f, p.status, p.filled);
    Credited(s.acct, f);
  }

  lemma PlacedNonNegative(s: Sys, id: string)
    requires OmsInv(s.oms) && id in s.oms.orders
    ensures s.oms.orders[id].filled >= 0.0
  {
    NonNegativeFilled(s.oms.orders[id]);
  }

  lemma FillIsNew(s: Sys, f: Fill)
    requires SysInv(s) && f.orderId in s.oms.orders && f.fillId !in Ids(s.acct.lifetime) && s.acct.log == s.acct.lifetime
    ensures f.fillId !in OmsFillIds(s.oms) && f.fillId !in s.oms.recent && f.fillId !in s.acct.recent
    ensures f.fillId !in Ids(s.oms.orders[f.orderId].fills)
  {
    hide OrderInv;
    MatchedIds(s.oms, s.acct.log);
    LogIds(s.acct);
  }

  lemma Credited(a: Account, f: Fill)
    requires f.fillId !in a.recent && a.log == a.lifetime
    ensures var r := Accounts.AfterFill(a, f);
      r.log == r.lifetime == a.lifetime + [f] && r.retained == a.retained
  {
  }

  lemma Taken(m: Oms, f: Fill, status: Status, filled: real)
    requires f.orderId in m.orders && f.fillId !in m.recent && f.fillId !in Ids(m.orders[f.orderId].fills)
    requires var o := m.orders[f.orderId]; o.ticket == TICKET && o.status == status && o.filled == filled >= 0.0
    requires status in {Acknowledged, PartiallyFilled} && filled + f.quantity in {1.0, 2.0}
    ensures FillOutcome(m, f).Done? && !Strands(m, f) && Orders.AfterFill(m, f).dedupeLimit == m.dedupeLimit
    ensures var r := Orders.AfterFill(m, f);
      && r.orders.Keys == m.orders.Keys && (forall k :: k in m.orders && k != f.orderId ==> r.orders[k] == m.orders[k])
      && r.orders[f.orderId].ticket == TICKET && r.orders[f.orderId].filled == filled + f.quantity
      && r.orders[f.orderId].status == if filled + f.quantity == 2.0 then Filled else PartiallyFilled
  {
    hide Rolled;
    var o := Recorded(m.orders[f.orderId], f);
    assert o.filled == filled + f.quantity;
    assert Target(o) == if o.filled == 2.0 then Filled else PartiallyFilled;
  }

  // -- the runs ---------------------------------------------------------------------

  lemma BeginStage() returns (t: Trail)
    ensures Stage(t, 0, map[], [])
  {
    t := Begin();
  }

  lemma NewId(fills: seq<Fill>, f: Fill)
    requires forall g :: g in fills ==> g.fillId != f.fillId
    ensures f.fillId !in Ids(fills)
  {
  }

  // Two fills complete one order; with one fill retained the next compaction
  // cuts between them, the excess being less than the boundary, and every
  // reconciliation from then on reports a fill that never went missing.
  lemma CleanRunRaisesFalseAlarm() returns (states: seq<Sys>, steps: seq<Action>)
    ensures IsRun(states, steps) && states[0] == Start(0.0, 1, 1) && |steps| == 6
    ensures CleanUpTo(states, steps, 5) && steps[5] == Run
    ensures SealCut(states[5]) == Some(1) && SealBoundary(states[5].acct.log, states[5].oms.orders) == 2
    ensures ReconcileOk(states[5]) && !ReconcileOk(states[6])
  {
    hide Stage, Trail.Clean, Here, SysInv, IsRun, CleanUpTo, ReconcileOk, Next, SealCut, SealBoundary, Ids, CleanStep, Start;
    var a1, a2 := FillNamed("a1", "A", 1.0), FillNamed("a2", "A", 1.0);
    var t := BeginStage();
    t := Acknowledge(t, 0, map[], [], "A");
    NewId([], a1);
    t := Trade(t, 3, map["A" := Place(Acknowledged, 0.0)], [], a1);
    var book := map["A" := Place(Acknowledged, 0.0)]["A" := Place(PartiallyFilled, 1.0)];
    NewId([] + [a1], a2);
    t := Trade(t, 4, book, [] + [a1], a2);
    StageMeans(t, 5, book["A" := Place(Filled, 2.0)], [] + [a1] + [a2]);
    ExcessCutsThrough(t.Last(), book["A" := Place(Filled, 2.0)], a1, a2);
    CleanMeans(t);
    states, steps := ComeApart(t, Run);
  }

  lemma ExcessCutsThrough(s: Sys, book: map<string, Place>, f: Fill, g: Fill)
    requires Here(s, book, [] + [f] + [g])
    requires f.orderId == "A" == g.orderId && "A" in book && book["A"].status == Filled
    ensures SealCut(s) == Some(1) && SealBoundary(s.acct.log, s.oms.orders) == 2 && !CleanStep(s, Run)
  {
    var log, orders := s.acct.log, s.oms.orders;
    assert log == [f, g];
    assert Sealable(orders, log[0]) && Sealable(orders, log[1]);
    assert log[1..] == [g] && log[1..][1..] == [];
    assert TerminalPrefix(log, orders) == 2;
    assert f in log[..1] && g in log[1..];
    assert "A" in OrderIds(log[..1]) && "A" in OrderIds(log[1..]);
  }

  // The boundary loop stops at the first fill of an unrelated order, so of the
  // log A1 C1 B1 A2, with A and C filled and B partly filled, it seals A1
  // without A2 although the excess would have allowed more.
  lemma PullBackRaisesFalseAlarm() returns (states: seq<Sys>, steps: seq<Action>)
    ensures IsRun(states, steps) && states[0] == Start(0.0, 1, 1) && |steps| == 14
    ensures CleanUpTo(states, steps, 13) && steps[13] == Run
    ensures SealCut(states[13]) == Some(2) && |states[13].acct.log| - states[13].acct.retained == 3
    ensures ReconcileOk(states[13]) && !ReconcileOk(states[14])
  {
    hide Stage, Trail.Clean, Here, SysInv, IsRun, CleanUpTo, ReconcileOk, Next, SealCut, SealBoundary, Ids, CleanStep, Start;
    var a1, c1 := FillNamed("a1", "A", 1.0), FillNamed("c1", "C", 2.0);
    var b1, a2 := FillNamed("b1", "B", 1.0), FillNamed("a2", "A", 1.0);
    var t := BeginStage();
    t := Acknowledge(t, 0, map[], [], "A");
    var book: map<string, Place> := map["A" := Place(Acknowledged, 0.0)];
    t := Acknowledge(t, 3, book, [], "B");
    book := book["B" := Place(Acknowledged, 0.0)];
    t := Acknowledge(t, 6, book, [], "C");
    book := book["C" := Place(Acknowledged, 0.0)];
    var log: seq<Fill> := [];
    NewId(log, a1);
    t := Trade(t, 9, book, log, a1);
    book, log := book["A" := Later(book["A"], 1.0)], log + [a1];
    NewId(log, c1);
    t := Trade(t, 10, book, log, c1);
    book, log := book["C" := Later(book["C"], 2.0)], log + [c1];
    NewId(log, b1);
    t := Trade(t, 11, book, log, b1);
    book, log := book["B" := Later(book["B"], 1.0)], log + [b1];
    NewId(log, a2);
    t := Trade(t, 12, book, log, a2);
    book, log := book["A" := Later(book["A"], 1.0)], log + [a2];
    StageMeans(t, 13, book, log);
    BoundaryCutsThrough(t.Last(), book, log, a1, c1, b1, a2);
    CleanMeans(t);
    states, steps := ComeApart(t, Run);
  }

  lemma BoundaryCutsThrough(s: Sys, book: map<string, Place>, log: seq<Fill>, a1: Fill, c1: Fill, b1: Fill, a2: Fill)
    requires Here(s, book, log) && log == [a1, c1, b1, a2]
    requires a1.orderId == "A" == a2.orderId && c1.orderId == "C" && b1.orderId == "B"
    requires {"A", "B", "C"} <= book.Keys
    requires book["A"].status == Filled && book["C"].status == Filled && book["B"].status == PartiallyFilled
    ensures SealCut(s) == Some(2) && |s.acct.log| - s.acct.retained == 3 && !CleanStep(s, Run)
  {
    var orders := s.oms.orders;
    assert log[0] == a1 && log[1] == c1 && log[2] == b1;
    assert Sealable(orders, log[0]) && Sealable(orders, log[1]) && !Sealable(orders, log[2]);
    assert TerminalPrefix(log, orders) == 2;
    assert log[2..] == [b1, a2];
    assert c1.orderId !in OrderIds([b1, a2]);
    assert a1 in log[..2] && a2 in log[2..];
    assert "A" in OrderIds(log[..2]) && "A" in OrderIds(log[2..]);
  }

  // A fill arrives for an order already cancelled: the order manager books it,
  // refuses the move and never tells the account.
  lemma LateFillIsStranded() returns (states: seq<Sys>, steps: seq<Action>)
    ensures IsRun(states, steps) && states[0] == Start(0.0, 1, 1) && |steps| == 6
    ensures CleanUpTo(states, steps, 5) && steps[5] == Deliver(FillNamed("a1", "A", 1.0))
    ensures "A" in states[5].oms.orders && states[5].oms.orders["A"].status == Cancelled
    ensures "a1" in OmsFillIds(states[6].oms) && states[6].acct == states[5].acct
    ensures ReconcileOk(states[5]) && !ReconcileOk(states[6])
  {
    hide Stage, Trail.Clean, Here, SysInv, IsRun, CleanUpTo, ReconcileOk, Next, Ids, CleanStep, Start, WellFormed, OmsFillIds;
    var f := FillNamed("a1", "A", 1.0);
    var t := BeginStage();
    t := Acknowledge(t, 0, map[], [], "A");
    var book: map<string, Place> := map["A" := Place(Acknowledged, 0.0)];
    t := Advanced(t, 3, book, [], "A", Open);
    book := book["A" := Place(Open, 0.0)];
    t := Advanced(t, 4, book, [], "A", Cancelled);
    book := book["A" := Place(Cancelled, 0.0)];
    StageMeans(t, 5, book, []);
    NewId([], f);
    StrandedStays(t.Last(), book, f);
    CleanMeans(t);
    states, steps := ComeApart(t, Deliver(f));
  }

  lemma StrandedStays(s: Sys, book: map<string, Place>, f: Fill)
    requires SysInv(s) && OmsInv(s.oms) && Here(s, book, []) && f.fillId !in Ids([])
    requires f.orderId in book && book[f.orderId] == Place(Cancelled, 0.0) && f.quantity <= 2.0
    ensures WellFormed(s, Deliver(f)) && !CleanStep(s, Deliver(f)) && !SilentStep(s, Deliver(f))
    ensures f.orderId in s.oms.orders && s.oms.orders[f.orderId].status == Cancelled
    ensures var r := Next(s, Deliver(f));
      f.fillId in OmsFillIds(r.oms) && r.acct == s.acct
  {
    hide Rolled, OmsInv, SysInv;
    FillIsNew(s, f);
    RefusedExactlyWhenStranded(s.oms, f);
    var r := Next(s, Deliver(f));
    assert f in r.oms.orders[f.orderId].fills;
  }

  // Fill a1 of order A arrives again after a fill of order B: neither book
  // remembers it, A has room for it, and the account posts it twice.
  // Reconciliation stays ok with the account ahead of the orders by the fill.
  lemma LateRepeatGoesUnseen() returns (states: seq<Sys>, steps: seq<Action>)
    ensures IsRun(states, steps) && states[0] == Start(0.0, 1, 1) && |steps| == 9
    ensures CleanUpTo(states, steps, 8) && steps[8] == Deliver(FillNamed("a1", "A", 1.0))
    ensures states[8].acct.log == [FillNamed("a1", "A", 1.0), FillNamed("b1", "B", 1.0)]
    ensures ReconcileOk(states[9]) && states[9].acct.running == Step(states[8].acct.running, FillNamed("a1", "A", 1.0))
    ensures var r := states[9];
      r.oms.archived.filledQuantity + Total(r.oms.orders, FillTally).amount == SumQuantity(r.acct.lifetime) - 1.0
  {
    hide Stage, Trail.Clean, Here, SysInv, IsRun, CleanUpTo, ReconcileOk, Next, SealCut, Ids, CleanStep, Start;
    hide Takes, Total, SumQuantity, Step;
    var a1, b1 := FillNamed("a1", "A", 1.0), FillNamed("b1", "B", 1.0);
    var t := BeginStage();
    t := Acknowledge(t, 0, map[], [], "A");
    var book: map<string, Place> := map["A" := Place(Acknowledged, 0.0)];
    t := Acknowledge(t, 3, book, [], "B");
    book := book["B" := Place(Acknowledged, 0.0)];
    var log: seq<Fill> := [];
    NewId(log, a1);
    t := Trade(t, 6, book, log, a1);
    book, log := book["A" := Later(book["A"], 1.0)], log + [a1];
    NewId(log, b1);
    t := Trade(t, 7, book, log, b1);
    book, log := book["B" := Later(book["B"], 1.0)], log + [b1];
    StageMeans(t, 8, book, log);
    RepeatIsTaken(t.Last(), book, log, a1, b1);
    states, steps := Repeated(t, a1);
  }

  // The repeat, after a clean run.
  lemma Repeated(t: Trail, f: Fill) returns (states: seq<Sys>, steps: seq<Action>)
    requires t.Clean() && f in t.Last().acct.log && Takes(t.Last().oms, f) && f.fillId !in t.Last().acct.recent
    ensures |t.states| == |t.steps| + 1 && |states| == |t.states| + 1 && steps == t.steps + [Deliver(f)]
    ensures IsRun(states, steps) && states[0] == Start(0.0, 1, 1) && CleanUpTo(states, steps, |t.steps|)
    ensures states[|t.steps|] == t.Last()
    ensures var r := states[|steps|];
      && ReconcileOk(r) && r.acct.running == Step(t.Last().acct.running, f)
      && r.oms.archived.filledQuantity + Total(r.oms.orders, FillTally).amount == SumQuantity(r.acct.lifetime) - f.quantity
  {
    hide Trail.Clean, SysInv, Next, ReconcileOk, IsRun, CleanUpTo, OmsInv, AccountInv, Start, Takes, Total, SumQuantity, Step, Tallied, FeeGap;
    CleanMeans(t);
    var r := Next(t.Last(), Deliver(f));
    states, steps := t.states + [r], t.steps + [Deliver(f)];
    NothingIsLost(t.states, t.steps, 0.0, 1, 1, |t.steps|);
    RunExtends(t.states, t.steps, Deliver(f));
    RepeatCountsTwice(t.Last(), f, r);
  }

  lemma RepeatIsTaken(s: Sys, book: map<string, Place>, log: seq<Fill>, a1: Fill, b1: Fill)
    requires SysInv(s) && Here(s, book, log) && log == [a1, b1]
    requires a1.fillId != b1.fillId
    requires a1.orderId == "A" && a1.quantity == 1.0 && "A" in book && book["A"] == Place(PartiallyFilled, 1.0)
    ensures s.acct.log == log && a1 in s.acct.log && Takes(s.oms, a1) && a1.fillId !in s.acct.recent
  {
    hide OmsInv, Matched;
    assert s.acct.lifetime[0] == a1 && IdSeq(s.acct.lifetime)[1..] == [b1.fillId];
  }
}
