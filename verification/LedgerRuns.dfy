// What every run of the two-view ledger keeps: agreement while its steps are
// clean, and, unless a fill is posted twice, a permanent alarm from the first
// step that is not.
module LedgerRuns {
  import opened Accounts
  import opened Common
  import opened Dedupe
  import opened Execution
  import opened Ledgers
  import opened Orders
  import opened Reconciliation
  import opened Totals

  // Every resident order holds exactly its fills of the unsealed log, and
  // every unsealed fill belongs to a resident order.
  ghost predicate Matched(orders: map<string, Order>, log: seq<Fill>) {
    && (forall id :: id in orders ==> orders[id].fills == FillsOf(log, id))
    && (forall f :: f in log ==> f.orderId in orders)
  }

  ghost predicate SysInv(s: Sys) {
    && AccountInv(s.acct) && OmsInv(s.oms)
    && DistinctIds(s.acct.lifetime)
    && Matched(s.oms.orders, s.acct.log)
    && s.oms.applied == s.acct.applied
    && s.oms.recent == Window(IdSeq(s.acct.lifetime), s.oms.dedupeLimit)
  }

  lemma StartInv(initial: real, retained: nat, dedupeLimit: nat)
    ensures SysInv(Start(initial, retained, dedupeLimit))
  {
  }

  lemma LogIsDistinct(a: Account)
    requires AccountInv(a) && DistinctIds(a.lifetime)
    ensures DistinctIds(a.log)
  {
  }

  // -- agreement means a clean reconciliation ------------------------------------

  lemma InvReconciles(s: Sys)
    requires SysInv(s)
    ensures ReconcileOk(s)
    ensures !Found(s, Mismatch(FeeMismatch, "fees"))
  {
    hide AccountInv, OmsInv, Matched, Replay, Ids, OmsFillIds, DistinctIds, Total, FillsById, Window, IdSeq;
    TailReplayIsRunning(s.acct);
    LogIsDistinct(s.acct);
    MatchedIds(s.oms, s.acct.log);
    FeesAgree(s.acct);
    forall m: Mismatch | m.IsCritical() ensures !Found(s, m) {
      NotFound(s, m);
    }
  }

  lemma MatchedIds(m: Oms, log: seq<Fill>)
    requires Matched(m.orders, log)
    ensures OmsFillIds(m) == Ids(log)
  {
    forall f | f in log ensures f.fillId in OmsFillIds(m) {
      assert f in m.orders[f.orderId].fills;
    }
  }

  lemma NotFound(s: Sys, m: Mismatch)
    requires OmsInv(s.oms) && m.IsCritical()
    requires OmsFillIds(s.oms) == Ids(s.acct.log)
    requires Replay(s.acct.checkpoint, s.acct.log) == s.acct.running
    requires s.oms.applied == s.acct.applied
    ensures !Found(s, m)
  {
    hide Replay, IsPath;
  }

  lemma {:induction false} FillsByIdFees(log: seq<Fill>)
    requires DistinctIds(log)
    ensures FillsById(log).Keys == Ids(log)
    ensures Total(FillsById(log), FeeOf).amount == SumFees(log)
  {
    hide Total, Ids, DistinctIds;
    if log == [] {
      NoFees();
    } else {
      var before, f := log[..|log| - 1], log[|log| - 1];
      DistinctPrefix(before, log);
      FillsByIdFees(before);
      LastIsNew(log);
      IdsSnoc(before, f);
      assert log == before + [f];
      TotalUpdate(FillsById(before), FeeOf, f.fillId, f);
    }
  }

  lemma NoFees()
    ensures Total(FillsById([]), FeeOf) == ZERO && Ids([]) == {}
  {
  }

  lemma LastIsNew(log: seq<Fill>)
    requires DistinctIds(log) && log != []
    ensures log[|log| - 1].fillId !in Ids(log[..|log| - 1])
  {
  }

  lemma IdsSnoc(fills: seq<Fill>, f: Fill)
    ensures Ids(fills + [f]) == Ids(fills) + {f.fillId}
  {
    assert forall g :: g in fills + [f] <==> g in fills || g == f;
  }

  lemma FeesAgree(a: Account)
    requires AccountInv(a) && DistinctIds(a.log)
    ensures a.checkpoint.fees + Total(FillsById(a.log), FeeOf).amount == a.running.fees
  {
    FillsByIdFees(a.log);
    ReplayFees(a.checkpoint, a.log);
    TailReplayIsRunning(a);
  }

  // -- clean steps keep agreement --------------------------------------------------

  lemma CreateKeeps(s: Sys, id: string, ticket: Ticket)
    requires SysInv(s) && id !in s.oms.orders
    ensures SysInv(Next(s, Create(id, ticket)))
  {
    hide AccountInv, OmsInv, Matched, NewOrder;
    CreateInv(s.oms, id, ticket);
    MatchedCreate(s.oms.orders, s.acct.log, id, ticket);
  }

  lemma MatchedCreate(orders: map<string, Order>, log: seq<Fill>, id: string, ticket: Ticket)
    requires Matched(orders, log) && id !in orders
    ensures Matched(orders[id := NewOrder(id, ticket)], log)
  {
    assert id !in OrderIds(log);
    NoFillsOf(log, id);
  }

  lemma MoveKeeps(s: Sys, id: string, status: Status)
    requires SysInv(s) && status != Filled
    ensures SysInv(Next(s, Move(id, status)))
  {
    hide AccountInv, OmsInv, Matched, DistinctIds;
    MoveInv(s.oms, id, status);
    MatchedMove(s.oms, s.acct.log, id, status);
  }

  lemma MatchedMove(m: Oms, log: seq<Fill>, id: string, status: Status)
    requires Matched(m.orders, log)
    ensures Matched(AfterMove(m, id, status).orders, log)
  {
    hide Transitions;
  }

  lemma MatchedSnoc(orders: map<string, Order>, log: seq<Fill>, f: Fill, o: Order)
    requires Matched(orders, log) && f.orderId in orders
    requires o.fills == orders[f.orderId].fills + [f]
    ensures Matched(orders[f.orderId := o], log + [f])
  {
    forall id | id in orders ensures FillsOf(log + [f], id) == FillsOf(log, id) + if id == f.orderId then [f] else [] {
      assert (log + [f])[..|log|] == log;
    }
  }

  lemma DeliverKeeps(s: Sys, f: Fill)
    requires SysInv(s)
    ensures CleanStep(s, Deliver(f)) ==> SysInv(Next(s, Deliver(f)))
    ensures !CleanStep(s, Deliver(f)) ==> OmsInv(Next(s, Deliver(f)).oms) && Tarnished(Next(s, Deliver(f)))
    ensures !CleanStep(s, Deliver(f)) && !SilentStep(s, Deliver(f)) ==> Broken(Next(s, Deliver(f)))
  {
    hide AccountInv, OmsInv, Strands, Takes, Matched;
    FillInv(s.oms, f);
    RefusedExactlyWhenStranded(s.oms, f);
    DoneExactlyWhenTaken(s.oms, f);
    if FillOutcome(s.oms, f).Done? {
      if Repeats(s, f) {
        RepeatSpoils(s, f);
      } else {
        DeliveredInv(s, f);
      }
    }
  }

  // A fill taken twice opens a gap between the counters when the account
  // remembers it, and is posted twice when it does not.
  lemma RepeatSpoils(s: Sys, f: Fill)
    requires OmsInv(s.oms) && s.oms.applied >= s.acct.applied && Repeats(s, f)
    ensures var r := Next(s, Deliver(f));
      if f.fillId in s.acct.recent then r.oms.applied > r.acct.applied else !DistinctIds(r.acct.lifetime)
  {
    hide OmsInv, Orders.AfterFill, FillOutcome, Takes, Ledgers.Step, Window;
    DoneExactlyWhenTaken(s.oms, f);
    DeliverCounts(s.oms, f);
    if f.fillId !in s.acct.recent {
      TwiceIsNotDistinct(s.acct.lifetime, f);
    }
  }

  lemma TwiceIsNotDistinct(fills: seq<Fill>, f: Fill)
    requires f.fillId in Ids(fills)
    ensures !DistinctIds(fills + [f])
  {
    var g :| g in fills && g.fillId == f.fillId;
    var i :| 0 <= i < |fills| && fills[i] == g;
    assert (fills + [f])[i].fillId == (fills + [f])[|fills|].fillId;
  }

  lemma DeliveredInv(s: Sys, f: Fill)
    requires SysInv(s) && f.fillId !in Ids(s.acct.lifetime)
    requires f.orderId in s.oms.orders && s.oms.orders[f.orderId].filled >= 0.0
    requires FillOutcome(s.oms, f).Done?
    ensures SysInv(Sys(Orders.AfterFill(s.oms, f), Accounts.AfterFill(s.acct, f)))
  {
    hide AccountInv, OmsInv, Matched, Distinct, Orders.AfterFill, FillOutcome, Window, IdSeq;
    LogIds(s.acct);
    FillInv(s.oms, f);
    ApplyFillInv(s.acct, f);
    OmsDelivered(s.oms, f);
    AccountDelivered(s.acct, f);
    MatchedIds(s.oms, s.acct.log);
    MatchedDelivered(s, f);
    RecentSnoc(s.acct.lifetime, f, s.oms.dedupeLimit);
  }

  lemma LogIds(a: Account)
    requires AccountInv(a)
    ensures Ids(a.log) <= Ids(a.lifetime)
    ensures forall id :: id in a.recent ==> id in Ids(a.lifetime)
  {
    forall id | id in a.recent ensures id in Ids(a.lifetime) {
      var i :| 0 <= i < |a.lifetime| && IdSeq(a.lifetime)[i] == id;
      assert a.lifetime[i] in a.lifetime;
    }
  }

  // What a delivered fill does to the OMS, short of where it moves the order.
  lemma OmsDelivered(m: Oms, f: Fill)
    requires f.orderId in m.orders && m.orders[f.orderId].filled >= 0.0
    requires FillOutcome(m, f).Done?
    ensures var r := Orders.AfterFill(m, f);
      && r.orders.Keys == m.orders.Keys
      && (forall id :: id in m.orders && id != f.orderId ==> r.orders[id] == m.orders[id])
      && r.orders[f.orderId].fills == Recorded(m.orders[f.orderId], f).fills
      && r.applied == m.applied + 1
      && r.recent == Window(m.recent + [f.fillId], m.dedupeLimit) && r.dedupeLimit == m.dedupeLimit
      && f.fillId !in m.recent
  {
    hide Recorded, Moves, Target, Window;
  }

  lemma AccountDelivered(a: Account, f: Fill)
    requires f.fillId !in a.recent && DistinctIds(a.lifetime) && f.fillId !in Ids(a.lifetime)
    ensures var r := Accounts.AfterFill(a, f);
      && r.log == a.log + [f] && r.lifetime == a.lifetime + [f] && r.applied == a.applied + 1
      && DistinctIds(r.lifetime) && Ids(r.lifetime) == Ids(a.lifetime) + {f.fillId}
  {
    DistinctSnoc(a.lifetime, f);
  }

  lemma MatchedDelivered(s: Sys, f: Fill)
    requires Matched(s.oms.orders, s.acct.log) && f.orderId in s.oms.orders && s.oms.orders[f.orderId].filled >= 0.0
    requires FillOutcome(s.oms, f).Done? && f.fillId !in OmsFillIds(s.oms)
    ensures Matched(Orders.AfterFill(s.oms, f).orders, s.acct.log + [f])
  {
    hide Matched, FillOutcome, Orders.AfterFill;
    OmsDelivered(s.oms, f);
    var o := s.oms.orders[f.orderId];
    assert f.fillId !in Ids(o.fills);
    var r := Orders.AfterFill(s.oms, f);
    assert r.orders == s.oms.orders[f.orderId := r.orders[f.orderId]];
    MatchedSnoc(s.oms.orders, s.acct.log, f, r.orders[f.orderId]);
  }

  // -- broken states stay broken -----------------------------------------------------

  // A fill the account once held, still resident in the OMS, that the log lacks.
  ghost predicate Orphan(s: Sys, id: string) {
    id in OmsFillIds(s.oms) && id !in Ids(s.acct.log) && id in Ids(s.acct.lifetime)
  }

  ghost predicate Broken(s: Sys) {
    s.oms.applied > s.acct.applied || exists id :: Orphan(s, id)
  }

  // No longer two views of one ledger, whether or not reconciliation says so.
  ghost predicate Tarnished(s: Sys) {
    Broken(s) || !DistinctIds(s.acct.lifetime)
  }

  lemma TarnishedIsNotInStep(s: Sys)
    requires Tarnished(s)
    ensures !SysInv(s)
  {
    if SysInv(s) {
      MatchedIds(s.oms, s.acct.log);
    }
  }

  lemma BrokenAlarms(s: Sys)
    requires Broken(s)
    ensures !ReconcileOk(s)
  {
    if s.oms.applied > s.acct.applied {
      assert Found(s, Mismatch(CountMismatch, "fills_applied"));
    } else {
      var id :| Orphan(s, id);
      assert Found(s, Mismatch(MissingFill, id));
    }
  }

  lemma CompactionKeeps(s: Sys)
    requires SysInv(s)
    ensures CleanStep(s, Run) ==> SysInv(AfterCompaction(s))
    ensures !CleanStep(s, Run) ==> OmsInv(AfterCompaction(s).oms) && Broken(AfterCompaction(s))
  {
    hide AccountInv, OmsInv, Matched, Ids, CleanCut;
    if SealCut(s).Some? {
      if CleanCut(s.acct.log, SealCut(s).value) {
        CleanCompaction(s);
      } else {
        UncleanCompaction(s);
      }
    }
  }

  lemma CleanCompaction(s: Sys)
    requires SysInv(s) && SealCut(s).Some? && CleanCut(s.acct.log, SealCut(s).value)
    ensures SysInv(AfterCompaction(s))
  {
    hide AccountInv, OmsInv, Matched, Replay, CleanCut, Orders.Doomed, DistinctIds, Ids, Sealable, OrderInv, SealBoundary;
    var cut := SealCut(s).value;
    CutIsTerminal(s, cut);
    LogIsDistinct(s.acct);
    CompactInv(s.oms, Ids(s.acct.log[cut..]));
    SealInv(s.acct, cut);
    CleanCutMatches(s.oms, s.acct.log, cut);
  }

  lemma UncleanCompaction(s: Sys)
    requires SysInv(s) && SealCut(s).Some? && !CleanCut(s.acct.log, SealCut(s).value)
    ensures OmsInv(AfterCompaction(s).oms) && Broken(AfterCompaction(s))
  {
    var cut := SealCut(s).value;
    LogIsDistinct(s.acct);
    LogInLifetime(s.acct);
    CompactInv(s.oms, Ids(s.acct.log[cut..]));
    hide AccountInv, OmsInv, SealCut, Matched, Replay, CleanCut, Orders.Doomed, DistinctIds;
    var id := UncleanCutOrphans(s.oms, s.acct.log, cut);
    assert Orphan(AfterCompaction(s), id);
  }

  lemma LogInLifetime(a: Account)
    requires AccountInv(a)
    ensures Ids(a.log) <= Ids(a.lifetime)
  {
  }

  // A cut never reaches past the terminal prefix.
  lemma CutIsTerminal(s: Sys, cut: nat)
    requires SealCut(s) == Some(cut)
    ensures forall i :: 0 <= i < cut ==> Sealable(s.oms.orders, s.acct.log[i])
  {
  }

  lemma DistinctSplit(log: seq<Fill>, cut: nat)
    requires DistinctIds(log) && cut <= |log|
    ensures Ids(log[..cut]) !! Ids(log[cut..])
  {
    forall f, g | f in log[..cut] && g in log[cut..] ensures f.fillId != g.fillId {
      var i :| 0 <= i < cut && log[i] == f;
      var j :| 0 <= j < |log| - cut && log[cut..][j] == g;
      assert log[cut + j] == g;
    }
  }

  lemma NoFillsOf(log: seq<Fill>, id: string)
    requires id !in OrderIds(log)
    ensures FillsOf(log, id) == []
  {
    if log != [] {
      NoFillsOf(log[..|log| - 1], id);
      assert log[|log| - 1] in log;
    }
  }

  // Past a clean cut the resident orders are exactly those of the tail, whole.
  lemma CleanCutMatches(m: Oms, log: seq<Fill>, cut: nat)
    requires Matched(m.orders, log) && DistinctIds(log) && cut <= |log|
    requires forall i :: 0 <= i < cut ==> Sealable(m.orders, log[i])
    requires CleanCut(log, cut)
    ensures Matched(Orders.AfterCompact(m, Ids(log[cut..])).orders, log[cut..])
  {
    hide Doomed, Sealable;
    var prefix, tail := log[..cut], log[cut..];
    assert log == prefix + tail;
    DistinctSplit(log, cut);
    var doomed := Doomed(m, Ids(tail));
    forall id | id in m.orders && id !in doomed ensures m.orders[id].fills == FillsOf(tail, id) {
      ResidentIsWhole(m, prefix, tail, id);
    }
    forall f | f in tail ensures f.orderId in m.orders && f.orderId !in doomed {
      assert f in log;
      TailOrderStays(m, log, tail, f);
    }
  }

  lemma TailOrderStays(m: Oms, log: seq<Fill>, tail: seq<Fill>, f: Fill)
    requires Matched(m.orders, log) && f in log && f in tail
    ensures f.orderId in m.orders && f.orderId !in Doomed(m, Ids(tail))
  {
    assert f in m.orders[f.orderId].fills;
    assert f.fillId in Ids(m.orders[f.orderId].fills) * Ids(tail);
  }

  lemma ResidentIsWhole(m: Oms, prefix: seq<Fill>, tail: seq<Fill>, id: string)
    requires id in m.orders && m.orders[id].fills == FillsOf(prefix + tail, id)
    requires forall f :: f in prefix ==> Sealable(m.orders, f)
    requires OrderIds(prefix) !! OrderIds(tail) && Ids(prefix) !! Ids(tail)
    requires id !in Doomed(m, Ids(tail))
    ensures m.orders[id].fills == FillsOf(tail, id)
  {
    hide Doomed, FillsOf;
    FillsOfConcat(prefix, tail, id);
    if id in OrderIds(prefix) {
      NoFillsOf(tail, id);
      PrefixOrderIsDoomed(m, prefix, tail, id);
      assert false;
    } else {
      NoFillsOf(prefix, id);
    }
  }

  lemma PrefixOrderIsDoomed(m: Oms, prefix: seq<Fill>, tail: seq<Fill>, id: string)
    requires id in m.orders && m.orders[id].fills == FillsOf(prefix, id) + []
    requires forall f :: f in prefix ==> Sealable(m.orders, f)
    requires id in OrderIds(prefix) && Ids(prefix) !! Ids(tail)
    ensures id in Doomed(m, Ids(tail))
  {
    assert m.orders[id].fills == FillsOf(prefix, id);
    var f :| f in prefix && f.orderId == id;
    assert Sealable(m.orders, f);
    assert Ids(m.orders[id].fills) <= Ids(prefix);
  }

  // A cut through an order leaves it resident with a fill the log has dropped.
  lemma UncleanCutOrphans(m: Oms, log: seq<Fill>, cut: nat) returns (orphan: string)
    requires Matched(m.orders, log) && DistinctIds(log) && cut <= |log|
    requires !CleanCut(log, cut)
    ensures orphan in Ids(log) && orphan !in Ids(log[cut..])
    ensures orphan in OmsFillIds(Orders.AfterCompact(m, Ids(log[cut..])))
  {
    hide Doomed, FillsOf;
    var prefix, tail := log[..cut], log[cut..];
    assert log == prefix + tail;
    DistinctSplit(log, cut);
    var id :| id in OrderIds(prefix) && id in OrderIds(tail);
    var f :| f in prefix && f.orderId == id;
    var g :| g in tail && g.orderId == id;
    TailOrderStays(m, log, tail, g);
    assert f in m.orders[id].fills;
    orphan := f.fillId;
    HeldFill(Orders.AfterCompact(m, Ids(tail)), id, f);
  }

  lemma HeldFill(m: Oms, id: string, f: Fill)
    requires id in m.orders && f in m.orders[id].fills
    ensures f.fillId in OmsFillIds(m)
  {
  }

  // -- whole runs ----------------------------------------------------------------------

  // A well-formed action from agreement either keeps it or ends it for good,
  // and which of the two is decided by CleanStep before the action.
  lemma ActFromAgreement(s: Sys, action: Action)
    requires SysInv(s) && WellFormed(s, action)
    ensures CleanStep(s, action) ==> SysInv(Next(s, action))
    ensures !CleanStep(s, action) ==> OmsInv(Next(s, action).oms) && Tarnished(Next(s, action))
    ensures !CleanStep(s, action) && !SilentStep(s, action) ==> Broken(Next(s, action))
  {
    hide SysInv, Broken, CleanStep, WellFormed, Repeats, DistinctIds;
    match action
    case Create(id, ticket) => CreateActs(s, id, ticket);
    case Move(id, status) => MoveActs(s, id, status);
    case Deliver(f) => DeliverKeeps(s, f);
    case Run =>
      InvReconciles(s);
      CompactionKeeps(s);
  }

  lemma CreateActs(s: Sys, id: string, ticket: Ticket)
    requires SysInv(s) && WellFormed(s, Create(id, ticket))
    ensures CleanStep(s, Create(id, ticket)) && SysInv(Next(s, Create(id, ticket)))
  {
    CreateKeeps(s, id, ticket);
  }

  lemma MoveActs(s: Sys, id: string, status: Status)
    requires SysInv(s) && WellFormed(s, Move(id, status))
    ensures CleanStep(s, Move(id, status)) && SysInv(Next(s, Move(id, status)))
  {
    MoveKeeps(s, id, status);
  }

  // While reconciliation fails nothing is compacted, nothing leaves the OMS
  // and the account gains no ground on it.
  ghost predicate Grown(s: Sys, r: Sys) {
    && s.acct.log <= r.acct.log && r.acct.sealed == s.acct.sealed && s.acct.lifetime <= r.acct.lifetime
    && OmsFillIds(s.oms) <= OmsFillIds(r.oms)
    && r.oms.applied - r.acct.applied >= s.oms.applied - s.acct.applied
  }

  lemma ActGrows(s: Sys, action: Action)
    requires OmsInv(s.oms) && !ReconcileOk(s) && WellFormed(s, action)
    ensures OmsInv(Next(s, action).oms) && Grown(s, Next(s, action))
  {
    hide OmsInv, ReconcileOk, OmsFillIds;
    match action
    case Create(id, ticket) => CreateGrows(s, id, ticket);
    case Move(id, status) => MoveGrows(s, id, status);
    case Deliver(f) => DeliverGrows(s, f);
    case Run =>
  }

  lemma CreateGrows(s: Sys, id: string, ticket: Ticket)
    requires OmsInv(s.oms) && id !in s.oms.orders
    ensures OmsInv(Next(s, Create(id, ticket)).oms) && Grown(s, Next(s, Create(id, ticket)))
  {
    hide OmsInv, OmsFillIds;
    CreateInv(s.oms, id, ticket);
    FillsKept(s.oms, Next(s, Create(id, ticket)).oms);
  }

  lemma MoveGrows(s: Sys, id: string, status: Status)
    requires OmsInv(s.oms) && status != Filled
    ensures OmsInv(Next(s, Move(id, status)).oms) && Grown(s, Next(s, Move(id, status)))
  {
    hide OmsInv, OmsFillIds;
    MoveInv(s.oms, id, status);
    FillsKept(s.oms, Next(s, Move(id, status)).oms);
  }

  lemma DeliverGrows(s: Sys, f: Fill)
    requires OmsInv(s.oms)
    ensures OmsInv(Next(s, Deliver(f)).oms) && Grown(s, Next(s, Deliver(f)))
  {
    FillInv(s.oms, f);
    hide OmsInv, Orders.AfterFill, Accounts.AfterFill, FillOutcome, OmsFillIds;
    DeliverKeepsFills(s.oms, f);
    DeliverCounts(s.oms, f);
    AccountGrows(s.acct, f);
    FillsKept(s.oms, Next(s, Deliver(f)).oms);
  }

  // A broken state stays broken until a fill the log dropped is posted again.
  lemma ActFromBroken(s: Sys, action: Action)
    requires OmsInv(s.oms) && Broken(s) && WellFormed(s, action)
    ensures OmsInv(Next(s, action).oms) && Grown(s, Next(s, action))
    ensures !SilentStep(s, action) ==> Broken(Next(s, action))
  {
    hide OmsInv, Broken, ReconcileOk, OmsFillIds, WellFormed, SilentStep;
    BrokenAlarms(s);
    ActGrows(s, action);
    if !SilentStep(s, action) {
      NothingOldPosted(s, action);
      BrokenKept(s, Next(s, action));
    }
  }

  // Unless a step is silent, what the log gains the account never had before.
  lemma NothingOldPosted(s: Sys, action: Action)
    requires OmsInv(s.oms) && !ReconcileOk(s) && !SilentStep(s, action)
    ensures Ids(Next(s, action).acct.log) * Ids(s.acct.lifetime) <= Ids(s.acct.log)
  {
    hide OmsInv, ReconcileOk, FillOutcome, Takes, Orders.AfterFill, Ledgers.Step, Window;
    if action.Deliver? {
      FillInv(s.oms, action.fill);
      DoneExactlyWhenTaken(s.oms, action.fill);
    }
  }

  lemma BrokenKept(s: Sys, r: Sys)
    requires Broken(s) && Grown(s, r)
    requires Ids(r.acct.log) * Ids(s.acct.lifetime) <= Ids(s.acct.log)
    ensures Broken(r)
  {
    if r.oms.applied <= r.acct.applied {
      var id :| Orphan(s, id);
      assert Orphan(r, id);
    }
  }

  // Once no longer two views of one ledger, never again.
  lemma ActFromTarnished(s: Sys, action: Action)
    requires OmsInv(s.oms) && Tarnished(s) && WellFormed(s, action)
    ensures OmsInv(Next(s, action).oms) && Tarnished(Next(s, action))
  {
    hide OmsInv, Broken, Repeats, DistinctIds, WellFormed;
    ActKeepsOms(s, action);
    if !DistinctIds(s.acct.lifetime) {
      LifetimeGrows(s, action);
      DistinctPrefix(s.acct.lifetime, Next(s, action).acct.lifetime);
    } else if SilentStep(s, action) {
      SilentSpoils(s, action.fill);
    } else {
      ActFromBroken(s, action);
    }
  }

  lemma SilentSpoils(s: Sys, f: Fill)
    requires OmsInv(s.oms) && SilentStep(s, Deliver(f))
    ensures !DistinctIds(Next(s, Deliver(f)).acct.lifetime)
  {
    hide OmsInv, Orders.AfterFill, FillOutcome, Takes, Ledgers.Step, Window, DistinctIds;
    DoneExactlyWhenTaken(s.oms, f);
    TwiceIsNotDistinct(s.acct.lifetime, f);
  }

  lemma LifetimeGrows(s: Sys, action: Action)
    requires OmsInv(s.oms)
    ensures s.acct.lifetime <= Next(s, action).acct.lifetime
  {
    hide OmsInv, Orders.AfterFill, FillOutcome, ReconcileOk, SealCut, Ledgers.Step, Window;
  }

  lemma DistinctPrefix(a: seq<Fill>, b: seq<Fill>)
    requires a <= b
    ensures DistinctIds(b) ==> DistinctIds(a)
  {
  }

  lemma DeliverCounts(m: Oms, f: Fill)
    requires f.orderId in m.orders ==> m.orders[f.orderId].filled >= 0.0
    ensures Orders.AfterFill(m, f).applied >= m.applied + if FillOutcome(m, f).Done? then 1 else 0
    ensures FillOutcome(m, f).Done? ==> f.fillId !in m.recent
  {
    hide Recorded, Moves, Target;
  }

  lemma AccountGrows(a: Account, f: Fill)
    ensures var r := Accounts.AfterFill(a, f);
      && a.log <= r.log && r.sealed == a.sealed && r.applied <= a.applied + 1 && a.lifetime <= r.lifetime
  {
    hide Ledgers.Step, Window;
  }

  lemma DeliverKeepsFills(m: Oms, f: Fill)
    requires f.orderId in m.orders ==> m.orders[f.orderId].filled >= 0.0
    ensures var r := Orders.AfterFill(m, f);
      forall id :: id in m.orders ==> id in r.orders && m.orders[id].fills <= r.orders[id].fills
  {
    hide Rolled, Moves, Target, FillOutcome;
  }

  lemma FillsKept(m: Oms, r: Oms)
    requires forall id :: id in m.orders ==> id in r.orders && m.orders[id].fills <= r.orders[id].fills
    ensures OmsFillIds(m) <= OmsFillIds(r)
  {
    forall id, f | id in m.orders && f in m.orders[id].fills ensures f.fillId in OmsFillIds(r) {
      assert f in r.orders[id].fills;
    }
  }

  // From empty ledgers, the two books are views of one ledger exactly as long
  // as every step was clean. Reconciliation says so while that lasts, and, if
  // no fill is posted twice, stops saying so when it ends.
  lemma {:induction false} AgreementIsCleanness(
    states: seq<Sys>, steps: seq<Action>, initial: real, retained: nat, dedupeLimit: nat, n: nat)
    requires IsRun(states, steps) && states[0] == Start(initial, retained, dedupeLimit) && n <= |steps|
    ensures SysInv(states[n]) <==> CleanUpTo(states, steps, n)
    ensures CleanUpTo(states, steps, n) ==> ReconcileOk(states[n])
    ensures NeverSilent(states, steps, n) ==> (ReconcileOk(states[n]) <==> CleanUpTo(states, steps, n))
  {
    hide SysInv, Tarnished, Broken, ReconcileOk, CleanStep, SilentStep;
    CleanOrTarnished(states, steps, initial, retained, dedupeLimit, n);
    if CleanUpTo(states, steps, n) {
      InvReconciles(states[n]);
    } else {
      TarnishedIsNotInStep(states[n]);
      if NeverSilent(states, steps, n) {
        BrokenAlarms(states[n]);
      }
    }
  }

  lemma {:induction false} CleanOrTarnished(
    states: seq<Sys>, steps: seq<Action>, initial: real, retained: nat, dedupeLimit: nat, n: nat)
    requires IsRun(states, steps) && states[0] == Start(initial, retained, dedupeLimit) && n <= |steps|
    ensures OmsInv(states[n].oms)
    ensures if CleanUpTo(states, steps, n) then SysInv(states[n]) else Tarnished(states[n])
    ensures NeverSilent(states, steps, n) && !CleanUpTo(states, steps, n) ==> Broken(states[n])
  {
    hide SysInv, Tarnished, Broken, OmsInv, ReconcileOk, CleanStep, SilentStep, WellFormed;
    if n == 0 {
      StartInv(initial, retained, dedupeLimit);
      SysInvOms(states[0]);
    } else {
      CleanOrTarnished(states, steps, initial, retained, dedupeLimit, n - 1);
      assert Follows(states[n - 1], steps[n - 1], states[n]);
      if CleanUpTo(states, steps, n - 1) {
        ActFromAgreement(states[n - 1], steps[n - 1]);
        ActKeepsOms(states[n - 1], steps[n - 1]);
      } else {
        ActFromTarnished(states[n - 1], steps[n - 1]);
        if NeverSilent(states, steps, n - 1) {
          ActFromBroken(states[n - 1], steps[n - 1]);
        }
      }
    }
  }

  lemma SysInvOms(s: Sys)
    requires SysInv(s)
    ensures OmsInv(s.oms)
  {
  }

  // A fill that reached the OMS but not the account is never forgotten: from
  // then on every reconciliation fails, nothing is sealed or archived, and the
  // fill stays resident.
  lemma {:induction false} LostFillNeverForgotten(states: seq<Sys>, steps: seq<Action>, lost: string, n: nat)
    requires IsRun(states, steps) && n <= |steps|
    requires OmsInv(states[0].oms) && states[0].oms.applied > states[0].acct.applied
    requires lost in OmsFillIds(states[0].oms)
    ensures !ReconcileOk(states[n])
    ensures lost in OmsFillIds(states[n].oms)
    ensures states[0].acct.log <= states[n].acct.log && states[n].acct.sealed == states[0].acct.sealed
    ensures OmsInv(states[n].oms) && states[n].oms.applied > states[n].acct.applied
  {
    hide OmsInv, ReconcileOk, WellFormed, OmsFillIds;
    if n > 0 {
      LostFillNeverForgotten(states, steps, lost, n - 1);
      assert Follows(states[n - 1], steps[n - 1], states[n]);
      ActGrows(states[n - 1], steps[n - 1]);
    }
    BrokenAlarms(states[n]);
  }

  // Compaction keeps the two views in step if and only if its cut is clean.
  lemma CompactionAgreesIffClean(s: Sys)
    requires SysInv(s) && SealCut(s).Some?
    ensures SysInv(AfterCompaction(s)) <==> CleanCut(s.acct.log, SealCut(s).value)
    ensures ReconcileOk(AfterCompaction(s)) <==> CleanCut(s.acct.log, SealCut(s).value)
  {
    hide SysInv, Broken, ReconcileOk, AfterCompaction;
    CompactionKeeps(s);
    if CleanCut(s.acct.log, SealCut(s).value) {
      InvReconciles(AfterCompaction(s));
    } else {
      BrokenAlarms(AfterCompaction(s));
      if SysInv(AfterCompaction(s)) {
        InvReconciles(AfterCompaction(s));
      }
    }
  }

  // -- either way ---------------------------------------------------------------------------

  // What is known of the two books: in step, apart, or nothing either way.
  datatype Standing = InStep | Apart | Either

  // The order manager is sound, whatever its agreement with the account.
  ghost predicate Stands(s: Sys, how: Standing) {
    OmsInv(s.oms) && (how.InStep? ==> SysInv(s)) && (how.Apart? ==> Broken(s))
  }

  // A clean action keeps whatever is known.
  lemma ActStands(s: Sys, action: Action, how: Standing)
    requires Stands(s, how) && WellFormed(s, action) && CleanStep(s, action)
    ensures Stands(Next(s, action), how)
  {
    hide SysInv, Broken, Tarnished, WellFormed, Repeats, Strands;
    match how
    case InStep =>
      ActFromAgreement(s, action);
      SysInvOms(Next(s, action));
    case Apart => ActFromBroken(s, action);
    case Either => ActKeepsOms(s, action);
  }

  lemma ActKeepsOms(s: Sys, action: Action)
    requires OmsInv(s.oms) && WellFormed(s, action)
    ensures OmsInv(Next(s, action).oms)
  {
    hide OmsInv, Orders.AfterFill, Accounts.AfterFill, AfterCompact, SealCut;
    match action
    case Create(id, ticket) => CreateInv(s.oms, id, ticket);
    case Move(id, status) => MoveInv(s.oms, id, status);
    case Deliver(f) => FillInv(s.oms, f);
    case Run =>
      if SealCut(s).Some? {
        CompactInv(s.oms, Ids(s.acct.log[SealCut(s).value..]));
      }
  }

  // -- when the boundary is clean ---------------------------------------------------------

  // In the terminal prefix, fills of orders that also have fills beyond it
  // come last, unmixed with any other.
  ghost predicate StraddlersComeLast(log: seq<Fill>, orders: map<string, Order>) {
    var n := TerminalPrefix(log, orders);
    ComeLast(log, n, OrderIds(log[n..]))
  }

  ghost predicate ComeLast(log: seq<Fill>, n: nat, straddling: set<string>)
    requires n <= |log|
  {
    forall i, j :: 0 <= i < j < n && log[i].orderId in straddling ==> log[j].orderId in straddling
  }

  lemma BoundaryCleanIffSuffix(log: seq<Fill>, orders: map<string, Order>)
    ensures CleanCut(log, SealBoundary(log, orders)) <==> StraddlersComeLast(log, orders)
  {
    var n := TerminalPrefix(log, orders);
    var straddling := OrderIds(log[n..]);
    var b := PullBack(log, n, straddling);
    hide PullBack, TerminalPrefix, OrderIds, ComeLast;
    BeyondBoundary(log, n, b, straddling);
    SuffixIsClean(log, n, b, straddling);
  }

  lemma SuffixIsClean(log: seq<Fill>, n: nat, b: nat, straddling: set<string>)
    requires b <= n <= |log| && forall i :: b <= i < n ==> log[i].orderId in straddling
    requires b > 0 ==> log[b - 1].orderId !in straddling
    ensures OrderIds(log[..b]) !! straddling <==> ComeLast(log, n, straddling)
  {
    hide OrderIds;
    if ComeLast(log, n, straddling) {
      forall i | 0 <= i < b ensures log[i].orderId !in straddling {
        assert i < b - 1 ==> log[b - 1].orderId !in straddling;
      }
      NoneBelow(log, b, straddling);
    } else {
      var i, j :| 0 <= i < j < n && log[i].orderId in straddling && log[j].orderId !in straddling;
      assert j < b;
      OneBelow(log, b, i);
    }
  }

  lemma NoneBelow(log: seq<Fill>, b: nat, ids: set<string>)
    requires b <= |log| && forall i :: 0 <= i < b ==> log[i].orderId !in ids
    ensures OrderIds(log[..b]) !! ids
  {
  }

  lemma OneBelow(log: seq<Fill>, b: nat, i: nat)
    requires i < b <= |log|
    ensures log[i].orderId in OrderIds(log[..b])
  {
    assert log[..b][i] == log[i];
  }

  // Everything past the boundary belongs to a straddling order.
  lemma BeyondBoundary(log: seq<Fill>, n: nat, b: nat, straddling: set<string>)
    requires b <= n <= |log| && straddling == OrderIds(log[n..])
    requires forall i :: b <= i < n ==> log[i].orderId in straddling
    ensures OrderIds(log[b..]) == straddling
  {
    forall f | f in log[b..] ensures f.orderId in straddling {
      var i :| b <= i < |log| && log[i] == f;
      assert i >= n ==> log[n..][i - n] == f;
    }
    forall f | f in log[n..] ensures f in log[b..] {
      var i :| n <= i < |log| && log[i] == f;
      assert log[b..][i - b] == f;
    }
  }

  // Orders with a single fill can never straddle anything.
  lemma SingleFillsAlwaysClean(log: seq<Fill>, cut: nat)
    requires forall i, j :: 0 <= i < j < |log| ==> log[i].orderId != log[j].orderId
    requires cut <= |log|
    ensures CleanCut(log, cut)
  {
    forall f, g | f in log[..cut] && g in log[cut..] ensures f.orderId != g.orderId {
      var i :| 0 <= i < cut && log[i] == f;
      var j :| cut <= j < |log| && log[j] == g;
    }
  }

  // -- how far compaction reaches --------------------------------------------------------------

  // The first fill left waits for an order that may still move: its own, or one
  // that traded before its own was done.
  ghost predicate Waits(orders: map<string, Order>, left: seq<Fill>) {
    exists k :: 0 <= k < |left| && !IsOver(orders, left[k]) && (k == 0 || left[0].orderId in OrderIds(left[k..]))
  }

  // The fill's order is resident and may move no more.
  predicate IsOver(orders: map<string, Order>, f: Fill) {
    f.orderId in orders && Transitions(orders[f.orderId].status) == {}
  }

  lemma SealableIsOver(orders: map<string, Order>, f: Fill)
    ensures Sealable(orders, f) <==> IsOver(orders, f)
  {
    hide Transitions;
    if f.orderId in orders {
      TerminalCannotMove(orders[f.orderId].status);
    }
  }

  // Compaction seals fills of terminal orders only, keeps at least the window
  // it was given, and stops short of it only where the next fill has to wait.
  lemma CompactionReaches(s: Sys)
    ensures var log, left := s.acct.log, AfterCompaction(s).acct.log;
      && |left| <= |log| && left == log[|log| - |left|..]
      && (forall i :: 0 <= i < |log| - |left| ==> IsOver(s.oms.orders, log[i]))
      && (if |log| <= s.acct.retained then left == log else |left| >= s.acct.retained)
      && (|left| > s.acct.retained ==> Waits(s.oms.orders, left))
  {
    hide Sealable, IsOver, Replay, Orders.AfterCompact, SealBoundary, Waits;
    forall i | 0 <= i < |s.acct.log| ensures Sealable(s.oms.orders, s.acct.log[i]) <==> IsOver(s.oms.orders, s.acct.log[i]) {
      SealableIsOver(s.oms.orders, s.acct.log[i]);
    }
    if SealCut(s).Some? {
      CutIsTerminal(s, SealCut(s).value);
      BoundaryWaits(s.acct.log, s.oms.orders);
    }
  }

  lemma BoundaryWaits(log: seq<Fill>, orders: map<string, Order>)
    ensures SealBoundary(log, orders) < |log| ==> Waits(orders, log[SealBoundary(log, orders)..])
  {
    hide Sealable, IsOver;
    var n, b := TerminalPrefix(log, orders), SealBoundary(log, orders);
    if n < |log| {
      SealableIsOver(orders, log[n]);
      assert log[b..][n - b] == log[n] && log[b..][n - b..] == log[n..];
    } else {
      assert log[n..] == [];
    }
  }

  // -- who leaves the order manager ---------------------------------------------------------

  // MARIN runs, finds nothing critical and has more fills than it retains.
  ghost predicate Compacts(s: Sys, step: Action) {
    step.Run? && ReconcileOk(s) && |s.acct.log| > s.acct.retained
  }

  // None of the order's fills awaits sealing.
  ghost predicate AllSealed(o: Order, log: seq<Fill>) {
    forall f, g :: f in o.fills && g in log ==> f.fillId != g.fillId
  }

  // An order leaves on a step exactly when MARIN compacts on it, the order may
  // move no more, and none of its fills is left in the account's log.
  lemma OrdersLeave(s: Sys, step: Action, id: string)
    requires OmsInv(s.oms) && WellFormed(s, step) && id in s.oms.orders
    ensures id !in Next(s, step).oms.orders <==>
      && Compacts(s, step)
      && Transitions(s.oms.orders[id].status) == {} && AllSealed(s.oms.orders[id], Next(s, step).acct.log)
  {
    hide OmsInv, ReconcileOk, SealBoundary, Transitions, AllSealed;
    match step
    case Create(j, ticket) =>
    case Move(j, status) =>
    case Deliver(f) => DeliverHolds(s.oms, f);
    case Run =>
      if ReconcileOk(s) && SealCut(s).Some? {
        var tail := s.acct.log[SealCut(s).value..];
        CompactKeepsExactly(s.oms, Ids(tail), id);
        SealedMeans(s.oms.orders[id], tail);
      }
  }

  lemma DeliverHolds(m: Oms, f: Fill)
    requires OmsInv(m)
    ensures f.orderId in m.orders ==> m.orders[f.orderId].filled >= 0.0
    ensures Orders.AfterFill(m, f).orders.Keys == m.orders.Keys
  {
    FillInv(m, f);
    hide OmsInv, Recorded, Moves, Target, FillOutcome;
    if f.orderId !in m.orders {
      UnknownOrderTakesNothing(m, f);
    }
  }

  lemma UnknownOrderTakesNothing(m: Oms, f: Fill)
    requires f.orderId !in m.orders
    ensures Orders.AfterFill(m, f).orders == m.orders
  {
  }

  lemma SealedMeans(o: Order, log: seq<Fill>)
    ensures AllSealed(o, log) <==> !exists f :: f in o.fills && f.fillId in Ids(log)
  {
  }

  // Over every run of the two books, an order that may still move before a step
  // is resident after it; and once a compaction has run, an order that may not
  // is resident only for a fill the log still holds.
  lemma WorkingOrdersStay(
    states: seq<Sys>, steps: seq<Action>, initial: real, retained: nat, dedupeLimit: nat, n: nat, id: string)
    requires IsRun(states, steps) && states[0] == Start(initial, retained, dedupeLimit) && n < |steps|
    requires id in states[n].oms.orders
    ensures Transitions(states[n].oms.orders[id].status) != {} ==> id in states[n + 1].oms.orders
    ensures Compacts(states[n], steps[n]) && Transitions(states[n].oms.orders[id].status) == {} ==>
      (id in states[n + 1].oms.orders <==> !AllSealed(states[n].oms.orders[id], states[n + 1].acct.log))
  {
    hide OmsInv, ReconcileOk, WellFormed, Next, Transitions, AllSealed, CleanUpTo, NeverSilent;
    CleanOrTarnished(states, steps, initial, retained, dedupeLimit, n);
    assert Follows(states[n], steps[n], states[n + 1]);
    OrdersLeave(states[n], steps[n], id);
  }

  // -- nothing is lost ------------------------------------------------------------------------

  // Archived plus resident accounts for every order ever created, and for
  // every fill, quantity and fee ever accepted.
  ghost predicate Tallied(s: Sys) {
    && s.oms.archived.count + |s.oms.orders| == s.oms.ordersCreated
    && s.oms.archived.fills + Total(s.oms.orders, FillTally).count == s.oms.applied
    && s.oms.archived.filledQuantity + Total(s.oms.orders, FillTally).amount == SumQuantity(s.acct.lifetime)
    && s.oms.archived.feesPaid + Total(s.oms.orders, FeeTally).amount == SumFees(s.acct.lifetime)
  }

  lemma ActTallies(s: Sys, action: Action)
    requires SysInv(s) && Tallied(s) && WellFormed(s, action) && CleanStep(s, action)
    ensures Tallied(Next(s, action))
  {
    hide SysInv, Tallied;
    SysInvOms(s);
    match action
    case Create(id, ticket) => CreateTallies(s, id, ticket);
    case Move(id, status) => MoveTallies(s, id, status);
    case Deliver(f) => DeliverTallies(s, f);
    case Run => CompactTallies(s);
  }

  lemma CreateTallies(s: Sys, id: string, ticket: Ticket)
    requires Tallied(s) && id !in s.oms.orders
    ensures Tallied(s.(oms := AfterCreate(s.oms, id, ticket)))
  {
    TotalUpdate(s.oms.orders, FillTally, id, NewOrder(id, ticket));
    TotalUpdate(s.oms.orders, FeeTally, id, NewOrder(id, ticket));
  }

  lemma MoveTallies(s: Sys, id: string, status: Status)
    requires Tallied(s)
    ensures Tallied(s.(oms := AfterMove(s.oms, id, status)))
  {
    if MoveOutcome(s.oms, id, status).Done? {
      var o := Moved(s.oms.orders[id], status);
      TotalUpdate(s.oms.orders, FillTally, id, o);
      TotalUpdate(s.oms.orders, FeeTally, id, o);
    }
  }

  lemma DeliverTallies(s: Sys, f: Fill)
    requires SysInv(s) && Tallied(s) && WellFormed(s, Deliver(f)) && CleanStep(s, Deliver(f))
    ensures OmsInv(s.oms) && Tallied(Next(s, Deliver(f)))
  {
    SysInvOms(s);
    FillInv(s.oms, f);
    hide SysInv, OmsInv, Orders.AfterFill, Accounts.AfterFill, Tallied, Strands, Takes;
    RefusedExactlyWhenStranded(s.oms, f);
    DoneExactlyWhenTaken(s.oms, f);
    if FillOutcome(s.oms, f).Done? {
      FreshEverywhere(s, f);
      BookedTallies(s, f);
    } else {
      RefusedTallies(s, f);
    }
  }

  lemma FreshEverywhere(s: Sys, f: Fill)
    requires SysInv(s) && f.fillId !in Ids(s.acct.lifetime) && f.orderId in s.oms.orders
    ensures f.fillId !in Ids(s.oms.orders[f.orderId].fills) && f.fillId !in s.acct.recent
  {
    LogIds(s.acct);
    hide AccountInv, OmsInv;
    MatchedIds(s.oms, s.acct.log);
  }

  lemma RefusedTallies(s: Sys, f: Fill)
    requires Tallied(s) && (f.orderId in s.oms.orders ==> s.oms.orders[f.orderId].filled >= 0.0)
    requires !FillOutcome(s.oms, f).Done? && !FillOutcome(s.oms, f).IllegalMove?
    ensures Tallied(s.(oms := Orders.AfterFill(s.oms, f)))
  {
    hide FillOutcome;
  }

  lemma BookedTallies(s: Sys, f: Fill)
    requires Tallied(s) && f.orderId in s.oms.orders && s.oms.orders[f.orderId].filled >= 0.0
    requires FillOutcome(s.oms, f).Done? && f.fillId !in Ids(s.oms.orders[f.orderId].fills)
    requires f.fillId !in s.acct.recent
    ensures Tallied(Sys(Orders.AfterFill(s.oms, f), Accounts.AfterFill(s.acct, f)))
  {
    hide Rolled, Moves, Target, Window, Ledgers.Step;
    var o := Orders.AfterFill(s.oms, f).orders[f.orderId];
    TotalUpdate(s.oms.orders, FillTally, f.orderId, o);
    TotalUpdate(s.oms.orders, FeeTally, f.orderId, o);
    SumSnoc(s.acct.lifetime, f);
  }

  lemma CompactTallies(s: Sys)
    requires Tallied(s) && OmsInv(s.oms)
    ensures Tallied(Next(s, Run))
  {
    hide Tallied, SealCut, ReconcileOk, OmsInv, Total, Absorbed, Doomed, Replay, Ids;
    if ReconcileOk(s) && SealCut(s).Some? {
      var cut := SealCut(s).value;
      CompactKeepsTotals(s.oms, Ids(s.acct.log[cut..]));
      SameTallies(s, AfterCompaction(s));
    }
  }

  lemma CompactKeepsTotals(m: Oms, unsealed: set<string>)
    ensures var r := Orders.AfterCompact(m, unsealed);
      && r.archived.count + |r.orders| == m.archived.count + |m.orders|
      && r.archived.fills + Total(r.orders, FillTally).count == m.archived.fills + Total(m.orders, FillTally).count
      && r.archived.filledQuantity + Total(r.orders, FillTally).amount
           == m.archived.filledQuantity + Total(m.orders, FillTally).amount
      && r.archived.feesPaid + Total(r.orders, FeeTally).amount
           == m.archived.feesPaid + Total(m.orders, FeeTally).amount
      && r.ordersCreated == m.ordersCreated && r.applied == m.applied
  {
    DoomedResident(m, unsealed);
    hide Doomed;
    TotalSplit(m.orders, FillTally, Doomed(m, unsealed));
    TotalSplit(m.orders, FeeTally, Doomed(m, unsealed));
    RestrictSize(m.orders, Doomed(m, unsealed));
  }

  lemma SameTallies(s: Sys, r: Sys)
    requires Tallied(s) && r.acct.lifetime == s.acct.lifetime
    requires r.oms.archived.count + |r.oms.orders| == s.oms.archived.count + |s.oms.orders|
    requires r.oms.archived.fills + Total(r.oms.orders, FillTally).count
      == s.oms.archived.fills + Total(s.oms.orders, FillTally).count
    requires r.oms.archived.filledQuantity + Total(r.oms.orders, FillTally).amount
      == s.oms.archived.filledQuantity + Total(s.oms.orders, FillTally).amount
    requires r.oms.archived.feesPaid + Total(r.oms.orders, FeeTally).amount
      == s.oms.archived.feesPaid + Total(s.oms.orders, FeeTally).amount
    requires r.oms.ordersCreated == s.oms.ordersCreated && r.oms.applied == s.oms.applied
    ensures Tallied(r)
  {
  }

  lemma DoomedResident(m: Oms, unsealed: set<string>)
    ensures Doomed(m, unsealed) <= m.orders.Keys
  {
  }

  lemma RestrictSize<K, V>(m: map<K, V>, keys: set<K>)
    requires keys <= m.Keys
    ensures |m - keys| + |Restrict(m, keys)| == |m|
  {
    assert Restrict(m, keys).Keys == keys;
    assert (m - keys).Keys == m.Keys - keys;
  }

  // On a clean run nothing is lost: archive and resident orders, checkpoint
  // and tail, add up to everything that ever happened.
  lemma {:induction false} NothingIsLost(
    states: seq<Sys>, steps: seq<Action>, initial: real, retained: nat, dedupeLimit: nat, n: nat)
    requires IsRun(states, steps) && states[0] == Start(initial, retained, dedupeLimit) && n <= |steps|
    requires CleanUpTo(states, steps, n)
    ensures Tallied(states[n])
    ensures states[n].acct.sealed + |states[n].acct.log| == states[n].acct.applied == states[n].oms.applied
  {
    hide Tallied, ReconcileOk, CleanStep, WellFormed;
    AgreementIsCleanness(states, steps, initial, retained, dedupeLimit, n);
    if n == 0 {
      StartTallied(initial, retained, dedupeLimit);
    } else {
      AgreementIsCleanness(states, steps, initial, retained, dedupeLimit, n - 1);
      NothingIsLost(states, steps, initial, retained, dedupeLimit, n - 1);
      assert Follows(states[n - 1], steps[n - 1], states[n]);
      hide SysInv;
      SysInvOms(states[n - 1]);
      ActTallies(states[n - 1], steps[n - 1]);
    }
    CountsAgree(states[n]);
  }

  lemma StartTallied(initial: real, retained: nat, dedupeLimit: nat)
    ensures Tallied(Start(initial, retained, dedupeLimit))
  {
  }

  lemma CountsAgree(s: Sys)
    requires SysInv(s)
    ensures s.acct.sealed + |s.acct.log| == s.acct.applied == s.oms.applied
  {
  }
}
