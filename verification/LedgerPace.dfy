// What reconciliation can see, over every run and with nothing assumed of the
// fills that arrive: when its verdict turns, and which repeats escape it.
module LedgerPace {
  import opened Accounts
  import opened Common
  import opened Dedupe
  import opened Execution
  import opened LedgerRuns
  import opened Ledgers
  import opened Orders
  import opened Reconciliation
  import opened Totals

  // The two books count the same fills and hold the same ids.
  ghost predicate InPace(s: Sys) {
    s.oms.applied == s.acct.applied && OmsFillIds(s.oms) == Ids(s.acct.log)
  }

  // What holds of every pair of books, in step or not: the account is never
  // ahead of the order manager.
  ghost predicate Sound(s: Sys) {
    && OmsInv(s.oms) && AccountInv(s.acct)
    && s.acct.applied <= s.oms.applied
    && Ids(s.acct.log) <= OmsFillIds(s.oms)
  }

  // -- what reconciliation notices -----------------------------------------------------

  // Two ledgers within the tolerances of each other; fees are only warned about.
  ghost predicate Near(a: Ledger, b: Ledger) {
    && Abs(a.cash - b.cash) <= MONEY_EPSILON && Abs(a.realized - b.realized) <= MONEY_EPSILON
    && forall key :: Abs(QuantityAt(a.positions, key) - QuantityAt(b.positions, key)) <= QTY_EPSILON
  }

  // An order's filled quantity is that of its fills, and FILLED means full.
  predicate Consistent(o: Order) {
    && Abs(SumQuantity(o.fills) - o.filled) <= QTY_EPSILON
    && (o.status == Filled ==> o.ticket.quantity - o.filled <= QTY_EPSILON)
  }

  predicate AllConsistent(orders: map<string, Order>) {
    forall id :: id in orders ==> Consistent(orders[id])
  }

  // Whatever state the two books are in, reconciliation is ok exactly when they
  // hold the same fill ids and as many, the running totals are near those the
  // log replays to, and every order is consistent.
  lemma OkMeans(s: Sys)
    ensures ReconcileOk(s) <==>
      InPace(s) && Near(Replay(s.acct.checkpoint, s.acct.log), s.acct.running) && AllConsistent(s.oms.orders)
  {
    hide OmsFillIds, Ids, Replay, AllConsistent, Found, Near;
    OkMeansNothingFound(s);
    NearMeans(Replay(s.acct.checkpoint, s.acct.log), s.acct.running);
    ConsistentMeans(s.oms.orders);
    SetsEqual(OmsFillIds(s.oms), Ids(s.acct.log));
  }

  lemma SetsEqual(a: set<string>, b: set<string>)
    ensures a - b == {} && b - a == {} <==> a == b
  {
    assert a == b ==> a - b == {};
    if a - b == {} && b - a == {} {
      assert forall x :: x in a ==> x !in a - b;
      assert forall x :: x in b ==> x !in b - a;
    }
  }

  lemma NearMeans(a: Ledger, b: Ledger)
    ensures Near(a, b) <==>
      && Abs(a.cash - b.cash) <= MONEY_EPSILON && Abs(a.realized - b.realized) <= MONEY_EPSILON
      && Misplaced(a.positions, b.positions) == {}
  {
    if key :| Abs(QuantityAt(a.positions, key) - QuantityAt(b.positions, key)) > QTY_EPSILON {
      assert key in Misplaced(a.positions, b.positions);
    }
    if key :| key in Misplaced(a.positions, b.positions) {
      assert Abs(QuantityAt(a.positions, key) - QuantityAt(b.positions, key)) > QTY_EPSILON;
    }
  }

  lemma ConsistentMeans(orders: map<string, Order>)
    ensures AllConsistent(orders) <==> Misfilled(orders) == {} && Unfinished(orders) == {}
  {
    hide SumQuantity;
    if id :| id in orders && !Consistent(orders[id]) {
      assert id in Misfilled(orders) || id in Unfinished(orders);
    }
    if id :| id in Misfilled(orders) {
      assert !Consistent(orders[id]);
    }
    if id :| id in Unfinished(orders) {
      assert !Consistent(orders[id]);
    }
  }

  // Nothing critical is there to be found.
  ghost predicate Spotless(s: Sys) {
    && OmsFillIds(s.oms) - Ids(s.acct.log) == {} && Ids(s.acct.log) - OmsFillIds(s.oms) == {}
    && s.oms.applied == s.acct.applied
    && Abs(Replayed(s).cash - s.acct.running.cash) <= MONEY_EPSILON
    && Abs(Replayed(s).realized - s.acct.running.realized) <= MONEY_EPSILON
    && Misplaced(Replayed(s).positions, s.acct.running.positions) == {}
    && Misfilled(s.oms.orders) == {} && Unfinished(s.oms.orders) == {}
  }

  lemma OkMeansNothingFound(s: Sys)
    ensures ReconcileOk(s) <==> Spotless(s)
  {
    hide Spotless, Found;
    if ReconcileOk(s) {
      OkIsSpotless(s);
    } else {
      var m: Mismatch :| Found(s, m) && m.IsCritical();
      FoundIsNotSpotless(s, m);
    }
  }

  lemma FoundIsNotSpotless(s: Sys, m: Mismatch)
    requires Found(s, m) && m.IsCritical()
    ensures !Spotless(s)
  {
    hide OmsFillIds, Ids, Replayed, Misplaced, Misfilled, Unfinished, Unsettled, FeeGap;
  }

  lemma OkIsSpotless(s: Sys)
    requires ReconcileOk(s)
    ensures Spotless(s)
  {
    hide OmsFillIds, Ids, Replayed, Misplaced, Misfilled, Unfinished, Unsettled, FeeGap;
    assert !Found(s, Mismatch(CashMismatch, "cash")) && !Found(s, Mismatch(PnlMismatch, "realized_pnl"));
    assert !Found(s, Mismatch(CountMismatch, "fills_applied"));
    NoneFound(s, MissingFill, OmsFillIds(s.oms) - Ids(s.acct.log));
    NoneFound(s, UnknownFill, Ids(s.acct.log) - OmsFillIds(s.oms));
    NoneFound(s, PositionMismatch, Misplaced(Replayed(s).positions, s.acct.running.positions));
    NoneFound(s, OrderQuantity, Misfilled(s.oms.orders));
    NoneFound(s, FilledWithRemainder, Unfinished(s.oms.orders));
  }

  lemma NoneFound(s: Sys, kind: Kind, keys: set<string>)
    requires ReconcileOk(s) && Mismatch(kind, "").IsCritical()
    requires forall key :: key in keys ==> Found(s, Mismatch(kind, key))
    ensures keys == {}
  {
    hide Found;
    assert forall key :: Found(s, Mismatch(kind, key)) ==> !Mismatch(kind, key).IsCritical();
    assert forall key :: key !in keys;
  }

  // Orders lost sight of are reported by id, without failing anything.
  lemma LostOrdersAreReported(s: Sys, id: string)
    ensures Found(s, Mismatch(Unresolved, id)) <==> id in s.oms.orders && s.oms.orders[id].status == Unknown
    ensures !Mismatch(Unresolved, id).IsCritical()
  {
  }

  // Whatever the running totals of agreeing books are overwritten with, the
  // next reconciliation is ok exactly when it is near what they were.
  lemma OverwrittenTotalsAreFound(s: Sys, l: Ledger)
    requires SysInv(s)
    ensures ReconcileOk(s.(acct := s.acct.(running := l))) <==> Near(s.acct.running, l)
  {
    hide SysInv, Near, InPace, Replay, AllConsistent, ReconcileOk;
    InvReconciles(s);
    SysReplays(s);
    OkMeans(s);
    OkMeans(s.(acct := s.acct.(running := l)));
    SamePace(s, l);
  }

  lemma SamePace(s: Sys, l: Ledger)
    ensures InPace(s.(acct := s.acct.(running := l))) <==> InPace(s)
  {
  }

  lemma SysReplays(s: Sys)
    requires SysInv(s)
    ensures Replay(s.acct.checkpoint, s.acct.log) == s.acct.running
  {
    hide AccountInv, OmsInv, Matched, Replay;
    TailReplayIsRunning(s.acct);
  }

  // And whatever an order of theirs is overwritten with, its fills kept, exactly
  // when it is still consistent.
  lemma OverwrittenOrderIsFound(s: Sys, id: string, o: Order)
    requires SysInv(s) && id in s.oms.orders && o.fills == s.oms.orders[id].fills
    ensures ReconcileOk(s.(oms := s.oms.(orders := s.oms.orders[id := o]))) <==> Consistent(o)
  {
    hide SysInv, Near, Replay, AllConsistent, ReconcileOk, OmsFillIds;
    InvReconciles(s);
    OkMeans(s);
    SameFillIds(s.oms, id, o);
    OneOverwritten(s.oms.orders, id, o);
    var t := s.(oms := s.oms.(orders := s.oms.orders[id := o]));
    OkMeans(t);
    assert t.oms.orders == s.oms.orders[id := o] && t.acct == s.acct && t.oms.applied == s.oms.applied;
    assert InPace(t) <==> InPace(s);
  }

  lemma OneOverwritten(orders: map<string, Order>, id: string, o: Order)
    requires AllConsistent(orders)
    ensures AllConsistent(orders[id := o]) <==> Consistent(o)
  {
    hide Consistent;
    assert orders[id := o][id] == o;
  }

  lemma SameFillIds(m: Oms, id: string, o: Order)
    requires id in m.orders && o.fills == m.orders[id].fills
    ensures OmsFillIds(m.(orders := m.orders[id := o])) == OmsFillIds(m)
  {
    var r := m.(orders := m.orders[id := o]);
    assert forall j :: j in r.orders ==> r.orders[j].fills == m.orders[j].fills;
    assert forall j :: j in m.orders ==> r.orders[j].fills == m.orders[j].fills;
  }

  // Of all it compares, reconciliation can only ever fail on the two counters
  // and the two sets of ids.
  lemma OkMeansInPace(s: Sys)
    requires OmsInv(s.oms) && AccountInv(s.acct)
    ensures ReconcileOk(s) <==> InPace(s)
  {
    hide OmsInv, AccountInv, OmsFillIds, Ids, Replay;
    TailReplayIsRunning(s.acct);
    if InPace(s) {
      forall m: Mismatch | m.IsCritical() ensures !Found(s, m) {
        NotFound(s, m);
      }
    } else {
      OutOfPaceIsFound(s);
    }
  }

  lemma OutOfPaceIsFound(s: Sys)
    requires !InPace(s)
    ensures !ReconcileOk(s)
  {
    hide OmsFillIds, Ids;
    if s.oms.applied != s.acct.applied {
      assert Found(s, Mismatch(CountMismatch, "fills_applied"));
    } else if OmsFillIds(s.oms) <= Ids(s.acct.log) {
      var id :| id in Ids(s.acct.log) && id !in OmsFillIds(s.oms);
      assert Found(s, Mismatch(UnknownFill, id));
    } else {
      var id :| id in OmsFillIds(s.oms) && id !in Ids(s.acct.log);
      assert Found(s, Mismatch(MissingFill, id));
    }
  }

  // -- one step -----------------------------------------------------------------

  // A seal that leaves resident an order holding a fill the tail lacks.
  ghost predicate Splits(m: Oms, unsealed: set<string>) {
    exists id :: id in m.orders && id !in Doomed(m, unsealed) && !(Ids(m.orders[id].fills) <= unsealed)
  }

  // Steps on which an agreeing pair comes apart: a fill booked and refused, a
  // repeat that only the account remembers, a seal that splits an order.
  ghost predicate Parts(s: Sys, step: Action) {
    match step
    case Deliver(f) => Strands(s.oms, f) || (Takes(s.oms, f) && f.fillId in s.acct.recent)
    case Run => SealCut(s).Some? && Splits(s.oms, Ids(s.acct.log[SealCut(s).value..]))
    case _ => false
  }

  // The one step on which a disagreeing pair comes together: the only fill the
  // log lacks is delivered again, and both books have forgotten it.
  ghost predicate Mends(s: Sys, step: Action) {
    && step.Deliver? && Takes(s.oms, step.fill) && step.fill.fillId !in s.acct.recent
    && s.oms.applied == s.acct.applied
    && OmsFillIds(s.oms) - Ids(s.acct.log) == {step.fill.fillId}
  }

  // What any step does to the agreement, decided before the step.
  lemma StepTurns(s: Sys, step: Action)
    requires Sound(s) && WellFormed(s, step)
    ensures Sound(Next(s, step))
    ensures InPace(Next(s, step)) <==> if InPace(s) then !Parts(s, step) else Mends(s, step)
  {
    hide OmsInv, AccountInv, OmsFillIds, Ids, Strands, Takes, Splits, SealCut, ReconcileOk;
    OkMeansInPace(s);
    match step
    case Create(id, ticket) =>
      CreateInv(s.oms, id, ticket);
      CreateHolds(s.oms, id, ticket);
    case Move(id, status) =>
      MoveInv(s.oms, id, status);
      MoveHolds(s.oms, id, status);
    case Deliver(f) => DeliverTurns(s, f);
    case Run =>
      if InPace(s) && SealCut(s).Some? {
        CompactTurns(s, SealCut(s).value);
      }
  }

  lemma CreateHolds(m: Oms, id: string, ticket: Ticket)
    requires id !in m.orders
    ensures OmsFillIds(AfterCreate(m, id, ticket)) == OmsFillIds(m)
  {
    var r := AfterCreate(m, id, ticket);
    FillsKept(m, r);
    FillsHeld(r, m);
  }

  lemma MoveHolds(m: Oms, id: string, status: Status)
    ensures OmsFillIds(AfterMove(m, id, status)) == OmsFillIds(m)
  {
    hide OmsFillIds, Transitions;
    var r := AfterMove(m, id, status);
    FillsKept(m, r);
    FillsHeld(r, m);
  }

  lemma FillsHeld(m: Oms, r: Oms)
    requires forall id, f :: id in m.orders && f in m.orders[id].fills ==> id in r.orders && f in r.orders[id].fills
    ensures OmsFillIds(m) <= OmsFillIds(r)
  {
  }

  // What a booked fill does to the ids the manager holds.
  lemma BookedIds(m: Oms, f: Fill)
    requires f.orderId in m.orders ==> m.orders[f.orderId].filled >= 0.0
    ensures var r, o := Orders.AfterFill(m, f), FillOutcome(m, f);
      && r.applied == m.applied + (if o.Done? || o.IllegalMove? then 1 else 0)
      && OmsFillIds(r) == OmsFillIds(m) + (if o.Done? || o.IllegalMove? then {f.fillId} else {})
  {
    hide OmsFillIds, FillOutcome, Moves, Target, Rolled, Window;
    var r := Orders.AfterFill(m, f);
    DeliverKeepsFills(m, f);
    FillsKept(m, r);
    if FillOutcome(m, f).Done? || FillOutcome(m, f).IllegalMove? {
      BookedResident(m, f);
      HeldId(r, f.orderId, f.fillId);
      NothingElse(m, r, f);
    } else {
      assert r.orders == m.orders;
      FillsHeld(r, m);
    }
  }

  lemma BookedResident(m: Oms, f: Fill)
    requires f.orderId in m.orders ==> m.orders[f.orderId].filled >= 0.0
    requires FillOutcome(m, f).Done? || FillOutcome(m, f).IllegalMove?
    ensures f.orderId in m.orders
    ensures var r := Orders.AfterFill(m, f);
      && r.orders.Keys == m.orders.Keys
      && (forall id :: id in m.orders && id != f.orderId ==> r.orders[id] == m.orders[id])
      && r.orders[f.orderId].fills == Recorded(m.orders[f.orderId], f).fills
      && f.fillId in Ids(r.orders[f.orderId].fills)
  {
    hide Moves, Target, Rolled, Window;
    var fills := Recorded(m.orders[f.orderId], f).fills;
    if f.fillId !in Ids(m.orders[f.orderId].fills) {
      assert f in fills;
    }
  }

  lemma HeldId(m: Oms, id: string, fillId: string)
    requires id in m.orders && fillId in Ids(m.orders[id].fills)
    ensures fillId in OmsFillIds(m)
  {
  }

  lemma NothingElse(m: Oms, r: Oms, f: Fill)
    requires f.orderId in m.orders && m.orders[f.orderId].filled >= 0.0
    requires r.orders.Keys == m.orders.Keys
    requires forall id :: id in m.orders && id != f.orderId ==> r.orders[id] == m.orders[id]
    requires r.orders[f.orderId].fills == Recorded(m.orders[f.orderId], f).fills
    ensures OmsFillIds(r) <= OmsFillIds(m) + {f.fillId}
  {
    forall id, g | id in r.orders && g in r.orders[id].fills ensures g.fillId in OmsFillIds(m) + {f.fillId} {
      if g.fillId != f.fillId {
        assert g in m.orders[id].fills;
      }
    }
  }

  lemma PostedIds(a: Account, f: Fill)
    ensures var r := Accounts.AfterFill(a, f);
      && r.applied == a.applied + (if f.fillId in a.recent then 0 else 1)
      && Ids(r.log) == Ids(a.log) + (if f.fillId in a.recent then {} else {f.fillId})
  {
    hide Ledgers.Step, Window;
    assert forall g :: g in a.log + [f] <==> g in a.log || g == f;
  }

  lemma DeliverTurns(s: Sys, f: Fill)
    requires Sound(s)
    ensures Sound(Next(s, Deliver(f)))
    ensures InPace(Next(s, Deliver(f))) <==> if InPace(s) then !Parts(s, Deliver(f)) else Mends(s, Deliver(f))
  {
    hide OmsInv, AccountInv, OmsFillIds, Ids, Strands, Takes, FillOutcome, Orders.AfterFill, Accounts.AfterFill;
    FillInv(s.oms, f);
    ApplyFillInv(s.acct, f);
    RefusedExactlyWhenStranded(s.oms, f);
    DoneExactlyWhenTaken(s.oms, f);
    BookedIds(s.oms, f);
    PostedIds(s.acct, f);
  }

  lemma CompactTurns(s: Sys, cut: nat)
    requires Sound(s) && InPace(s) && cut <= |s.acct.log|
    ensures var unsealed := Ids(s.acct.log[cut..]);
      var r := Sys(AfterCompact(s.oms, unsealed), AfterSeal(s.acct, cut));
      Sound(r) && (InPace(r) <==> !Splits(s.oms, unsealed))
  {
    hide OmsInv, AccountInv, OmsFillIds, Ids, Doomed, Splits;
    var unsealed := Ids(s.acct.log[cut..]);
    CompactInv(s.oms, unsealed);
    SealInv(s.acct, cut);
    TailIds(s.acct.log, cut);
    UnsealedStay(s.oms, unsealed);
    HeldIsUnsealed(s.oms, unsealed);
  }

  lemma TailIds(log: seq<Fill>, cut: nat)
    requires cut <= |log|
    ensures Ids(log[cut..]) <= Ids(log)
  {
    assert forall f :: f in log[cut..] ==> f in log;
  }

  // Whatever awaits sealing keeps its order resident.
  lemma UnsealedStay(m: Oms, unsealed: set<string>)
    requires unsealed <= OmsFillIds(m)
    ensures unsealed <= OmsFillIds(AfterCompact(m, unsealed))
  {
    forall fillId | fillId in unsealed ensures fillId in OmsFillIds(AfterCompact(m, unsealed)) {
      var id, f :| id in m.orders && f in m.orders[id].fills && f.fillId == fillId;
      assert fillId in Ids(m.orders[id].fills) * unsealed;
      assert f in AfterCompact(m, unsealed).orders[id].fills;
    }
  }

  lemma HeldIsUnsealed(m: Oms, unsealed: set<string>)
    ensures OmsFillIds(AfterCompact(m, unsealed)) <= unsealed <==> !Splits(m, unsealed)
  {
    hide Doomed;
    var r := AfterCompact(m, unsealed);
    if Splits(m, unsealed) {
      var id :| id in m.orders && id !in Doomed(m, unsealed) && !(Ids(m.orders[id].fills) <= unsealed);
      var fillId :| fillId in Ids(m.orders[id].fills) && fillId !in unsealed;
      HeldId(r, id, fillId);
    } else {
      forall id, f | id in r.orders && f in r.orders[id].fills ensures f.fillId in unsealed {
        assert f.fillId in Ids(m.orders[id].fills);
      }
    }
  }

  // -- every run ---------------------------------------------------------------------

  // The verdict as it turns along a run.
  ghost predicate Verdict(states: seq<Sys>, steps: seq<Action>, n: nat)
    requires n <= |steps| < |states|
  {
    n == 0 || if Verdict(states, steps, n - 1) then !Parts(states[n - 1], steps[n - 1])
              else Mends(states[n - 1], steps[n - 1])
  }

  // From empty ledgers, over every run and whatever the fills: reconciliation
  // turns bad exactly on a parting step and good exactly on a mending one.
  lemma {:induction false} ReconcileIsVerdict(
    states: seq<Sys>, steps: seq<Action>, initial: real, retained: nat, dedupeLimit: nat, n: nat)
    requires IsRun(states, steps) && states[0] == Start(initial, retained, dedupeLimit) && n <= |steps|
    ensures Sound(states[n])
    ensures ReconcileOk(states[n]) <==> Verdict(states, steps, n)
  {
    hide Sound, InPace, Parts, Mends, ReconcileOk, WellFormed;
    if n == 0 {
      StartsSound(initial, retained, dedupeLimit);
    } else {
      ReconcileIsVerdict(states, steps, initial, retained, dedupeLimit, n - 1);
      assert Follows(states[n - 1], steps[n - 1], states[n]);
      SoundOms(states[n - 1]);
      OkMeansInPace(states[n - 1]);
      StepTurns(states[n - 1], steps[n - 1]);
    }
    SoundOms(states[n]);
    OkMeansInPace(states[n]);
  }

  lemma StartsSound(initial: real, retained: nat, dedupeLimit: nat)
    ensures Sound(Start(initial, retained, dedupeLimit)) && InPace(Start(initial, retained, dedupeLimit))
  {
    NewAccountInv(initial, retained);
  }

  lemma SoundOms(s: Sys)
    requires Sound(s)
    ensures OmsInv(s.oms) && AccountInv(s.acct)
  {
  }

  // -- late repeats ---------------------------------------------------------------------

  // From books in step, a repeat the manager takes is reported if and only if
  // the account still remembers the id; if not, the account posts it again.
  lemma LateRepeat(s: Sys, f: Fill, r: Sys)
    requires SysInv(s) && Repeats(s, f) && Follows(s, Deliver(f), r)
    ensures !ReconcileOk(r) <==> f.fillId in s.acct.recent
    ensures r.acct == Accounts.AfterFill(s.acct, f)
    ensures f.fillId !in s.acct.recent ==> r.acct.running == Step(s.acct.running, f) && r.acct.log == s.acct.log + [f]
  {
    SysInvOms(s);
    hide SysInv, OmsInv, AccountInv, InPace, Sound, ReconcileOk, Takes, Strands, Window, Step, Ids;
    hide FillOutcome, Orders.AfterFill;
    InStepIsSound(s);
    StepTurns(s, Deliver(f));
    TakenIsNotStranded(s.oms, f);
    DoneExactlyWhenTaken(s.oms, f);
    SoundOms(r);
    OkMeansInPace(r);
  }

  lemma InStepIsSound(s: Sys)
    requires SysInv(s)
    ensures Sound(s) && InPace(s)
  {
    MatchedIds(s.oms, s.acct.log);
  }

  lemma TakenIsNotStranded(m: Oms, f: Fill)
    requires Takes(m, f)
    ensures !Strands(m, f)
  {
  }

  // The order of a fill in the log holds it already: taking the fill again
  // adds nothing to the order.
  lemma HeldFillAddsNothing(m: Oms, f: Fill)
    requires f.orderId in m.orders && m.orders[f.orderId].filled >= 0.0 && FillOutcome(m, f).Done?
    requires f.fillId in Ids(m.orders[f.orderId].fills)
    ensures var r := Orders.AfterFill(m, f);
      && r.orders == m.orders[f.orderId := r.orders[f.orderId]] && r.archived == m.archived
      && FillTally(r.orders[f.orderId]) == FillTally(m.orders[f.orderId])
      && r.orders[f.orderId].fills == m.orders[f.orderId].fills
  {
  }

  // Keyed by id the log has not changed, so all that is left to see is the fee.
  lemma {:induction false} KeyedOnce(log: seq<Fill>, f: Fill)
    requires DistinctIds(log) && f in log
    ensures f.fillId in FillsById(log) && FillsById(log)[f.fillId] == f
  {
    var last := |log| - 1;
    if log[last] != f {
      var i :| 0 <= i < last && log[i] == f;
      assert log[..last][i] == f;
      KeyedOnce(log[..last], f);
    }
  }

  lemma RepeatedFee(a: Account, r: Account, f: Fill)
    requires AccountInv(a) && DistinctIds(a.log) && f in a.log
    requires r.log == a.log + [f] && r.running.fees == a.running.fees + f.fee && r.checkpoint == a.checkpoint
    ensures FeeGap(r) == Abs(f.fee)
  {
    hide AccountInv, DistinctIds;
    FeesAgree(a);
    KeyedOnce(a.log, f);
    assert r.log[..|a.log|] == a.log;
    assert FillsById(a.log)[f.fillId := f] == FillsById(a.log);
  }

  // A repeat of a fill still in the log, when neither book remembers it:
  // reconciliation stays ok although the order gains nothing and the account
  // is out by the whole fill. A fee is all that shows, as a warning.
  lemma RepeatCountsTwice(s: Sys, f: Fill, r: Sys)
    requires SysInv(s) && Tallied(s) && Follows(s, Deliver(f), r)
    requires f in s.acct.log && Takes(s.oms, f) && f.fillId !in s.acct.recent
    ensures ReconcileOk(r) && r.acct.running == Step(s.acct.running, f)
    ensures f.orderId in s.oms.orders && f.orderId in r.oms.orders
    ensures r.oms.orders[f.orderId].fills == s.oms.orders[f.orderId].fills
    ensures r.oms.archived.filledQuantity + Total(r.oms.orders, FillTally).amount
      == SumQuantity(r.acct.lifetime) - f.quantity
    ensures FeeGap(r.acct) == Abs(f.fee)
  {
    SysInvOms(s);
    HeldByItsOrder(s, f);
    hide *;
    RepeatIs(s, f);
    LateRepeat(s, f, r);
    RepeatTaken(s, f, r);
    RepeatedFee(s.acct, r.acct, f);
    OutByTheFill(s, r, f);
  }

  lemma RepeatIs(s: Sys, f: Fill)
    requires Takes(s.oms, f) && f.fillId in Ids(s.acct.lifetime)
    ensures Repeats(s, f)
  {
  }

  lemma RepeatTaken(s: Sys, f: Fill, r: Sys)
    requires OmsInv(s.oms) && Follows(s, Deliver(f), r) && Takes(s.oms, f) && f.fillId !in s.acct.recent
    requires f.orderId in s.oms.orders && f.fillId in Ids(s.oms.orders[f.orderId].fills)
    ensures f.orderId in r.oms.orders && r.oms.orders == s.oms.orders[f.orderId := r.oms.orders[f.orderId]]
    ensures FillTally(r.oms.orders[f.orderId]) == FillTally(s.oms.orders[f.orderId])
    ensures r.oms.orders[f.orderId].fills == s.oms.orders[f.orderId].fills && r.oms.archived == s.oms.archived
    ensures r.acct.log == s.acct.log + [f] && r.acct.lifetime == s.acct.lifetime + [f]
    ensures r.acct.checkpoint == s.acct.checkpoint && r.acct.running.fees == s.acct.running.fees + f.fee
  {
    hide OmsInv, Takes, FillOutcome, Orders.AfterFill, Step, Window, Ids, WellFormed;
    DoneExactlyWhenTaken(s.oms, f);
    HeldFillAddsNothing(s.oms, f);
    StepFee(s.acct.running, f);
  }

  lemma StepFee(l: Ledger, f: Fill)
    ensures Step(l, f).fees == l.fees + f.fee
  {
  }

  lemma HeldByItsOrder(s: Sys, f: Fill)
    requires SysInv(s) && f in s.acct.log
    ensures f.orderId in s.oms.orders && f.fillId in Ids(s.oms.orders[f.orderId].fills)
    ensures f.fillId in Ids(s.acct.lifetime)
    ensures AccountInv(s.acct) && DistinctIds(s.acct.log)
  {
    LogIds(s.acct);
    LogIsDistinct(s.acct);
    hide AccountInv, OmsInv, DistinctIds;
    assert f in s.oms.orders[f.orderId].fills;
  }

  lemma OutByTheFill(s: Sys, r: Sys, f: Fill)
    requires Tallied(s) && f.orderId in s.oms.orders && f.orderId in r.oms.orders
    requires r.oms.orders == s.oms.orders[f.orderId := r.oms.orders[f.orderId]]
    requires FillTally(r.oms.orders[f.orderId]) == FillTally(s.oms.orders[f.orderId])
    requires r.oms.archived == s.oms.archived && r.acct.lifetime == s.acct.lifetime + [f]
    ensures r.oms.archived.filledQuantity + Total(r.oms.orders, FillTally).amount
      == SumQuantity(r.acct.lifetime) - f.quantity
  {
    TotalUpdate(s.oms.orders, FillTally, f.orderId, r.oms.orders[f.orderId]);
    SumSnoc(s.acct.lifetime, f);
  }

  // With the account's window no longer than the manager's, as the defaults
  // have it, no late repeat is ever reported.
  lemma LateRepeatIsSilent(s: Sys, f: Fill, r: Sys)
    requires SysInv(s) && Repeats(s, f) && Follows(s, Deliver(f), r)
    requires s.acct.retained <= s.oms.dedupeLimit
    ensures ReconcileOk(r) && r.acct.running == Step(s.acct.running, f)
  {
    hide ReconcileOk, OmsInv, AccountInv, Follows, Step, IdSeq, Ids, Window;
    LateRepeat(s, f, r);
    RecentIsWindow(s.acct);
    ShorterWindow(IdSeq(s.acct.lifetime), s.acct.retained, s.oms.dedupeLimit, f.fillId);
  }

  lemma ShorterWindow(ids: seq<string>, short: nat, long: nat, id: string)
    requires short <= long
    ensures id in Window(ids, short) ==> id in Window(ids, long)
  {
    if id in Window(ids, short) {
      var i :| 0 <= i < |Window(ids, short)| && Window(ids, short)[i] == id;
      InWindow(ids, long, i + |ids| - |Window(ids, short)|);
    }
  }

  lemma InWindow(ids: seq<string>, limit: nat, i: int)
    requires 0 <= i < |ids| && i >= |ids| - limit
    ensures ids[i] in Window(ids, limit)
  {
    if |ids| > limit {
      assert ids[|ids| - limit..][i - (|ids| - limit)] == ids[i];
    }
  }
}
