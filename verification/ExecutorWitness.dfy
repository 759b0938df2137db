// A concrete executor run, from empty ledgers, reaching the state from which
// both illegal requests are made.
module ExecutorWitness {
  import opened Common
  import opened Costs
  import opened Execution
  import opened ExecutorRuns
  import opened Orders
  import opened Reconciliation

  const TICKET: Ticket := OrderTicket("V", "S", Buy, LIMIT, GTC, 1.0, Some(100.0), 100.0, Some(50))
  const CONFIG := ExecConfig(1.0, 0.0, 0.5, 0.0, 0.0)

  // No book at first; later the market reaches the limit, the cancel loses its
  // race and the resting order does not trade either.
  const NO_BOOK := Encounter([], [], 0.9, 0.0, 0.0, "f1")
  const AT_LIMIT := Encounter([PriceLevel(100.0, 1.0)], [PriceLevel(100.0, 1.0)], 0.9, 0.0, 0.0, "f1")

  const ARRIVES := Poll("A", Pending(10, None, 0.0, false), 10, CONFIG, NO_BOOK)
  const EXPIRES := Poll("A", Pending(10, Some(20), 0.0, false), 60, CONFIG, AT_LIMIT)

  // One order, untraded, in a given state.
  ghost predicate Untraded(s: Sys, status: Status) {
    && s.oms.orders.Keys == {"A"} && s.oms.recent == [] && s.acct.lifetime == []
    && var o := s.oms.orders["A"];
      o.ticket == TICKET && o.status == status && o.filled == 0.0 && o.fills == []
  }

  lemma Submits(s: Sys)
    requires s == Start(0.0, 1, 10)
    ensures Allowed(s, Submit("A", TICKET, false)) && Untraded(ExecNext(s, Submit("A", TICKET, false)).sys, Submitting)
  {
  }

  lemma Arrives(s: Sys)
    requires Untraded(s, Submitting)
    ensures Allowed(s, ARRIVES) && Untraded(ExecNext(s, ARRIVES).sys, Open)
  {
    hide FillStage, ExpireStage, CancelWins;
    UntradedMints(s);
    var arrived := s.(oms := Arrived(s.oms, "A"));
    Quiet(arrived, NO_BOOK, 10);
  }

  lemma UntradedMints(s: Sys)
    requires exists status :: Untraded(s, status)
    ensures Minted(s, "f1") && ValidConfig(CONFIG)
  {
  }

  // Nothing trades and nothing expires.
  lemma Quiet(s: Sys, e: Encounter, now: int)
    requires Untraded(s, Open) && e == NO_BOOK && now < 50
    ensures FillStage(s, "A", Pending(10, None, 0.0, false), CONFIG, e) == PollResult(s, false)
    ensures ExpireStage(s, "A", now) == PollResult(s, false)
  {
  }

  lemma Cancels(s: Sys)
    requires Untraded(s, Open)
    ensures Allowed(s, CancelOrder("A")) && Untraded(ExecNext(s, CancelOrder("A")).sys, CancelPending)
  {
  }

  lemma SecondCancelRaises(s: Sys)
    requires Untraded(s, CancelPending)
    ensures Allowed(s, CancelOrder("A")) && ExecNext(s, CancelOrder("A")).raised
  {
  }

  lemma LateExpiryRaises(s: Sys)
    requires Untraded(s, CancelPending)
    ensures Allowed(s, EXPIRES) && ExecNext(s, EXPIRES).raised
  {
    hide FillStage, ExpireStage, CancelWins, Arrived;
    UntradedMints(s);
    LosesRace(s);
    assert Arrived(s.oms, "A") == s.oms by { StaysPut(s.oms); }
  }

  lemma StaysPut(m: Oms)
    requires "A" in m.orders && m.orders["A"].status == CancelPending
    ensures Arrived(m, "A") == m
  {
  }

  lemma LosesRace(s: Sys)
    requires Untraded(s, CancelPending)
    ensures !CancelWins(TICKET, AT_LIMIT.opposing, AT_LIMIT.cancelDraw, CONFIG.makerProbability)
    ensures FillStage(s, "A", Pending(10, Some(20), 0.0, false), CONFIG, AT_LIMIT) == PollResult(s, false)
    ensures ExpireStage(s, "A", 60).raised
  {
  }

  // From this run's last state, a second cancel raises, and so does the poll at
  // which the order's time is up.
  lemma BothRaisesReachable() returns (states: seq<Sys>, steps: seq<ExecStep>)
    ensures |states| == 4 && |steps| == 3 && states[0] == Start(0.0, 1, 10)
    ensures forall i :: 0 <= i < 3 ==> Allowed(states[i], steps[i]) && states[i + 1] == ExecNext(states[i], steps[i]).sys
    ensures Allowed(states[3], CancelOrder("A")) && ExecNext(states[3], CancelOrder("A")).raised
    ensures Allowed(states[3], EXPIRES) && ExecNext(states[3], EXPIRES).raised
  {
    hide Allowed, ExecNext, Untraded;
    var s0 := Start(0.0, 1, 10);
    Submits(s0);
    var s1 := ExecNext(s0, Submit("A", TICKET, false)).sys;
    Arrives(s1);
    var s2 := ExecNext(s1, ARRIVES).sys;
    Cancels(s2);
    var s3 := ExecNext(s2, CancelOrder("A")).sys;
    SecondCancelRaises(s3);
    LateExpiryRaises(s3);
    states, steps := [s0, s1, s2, s3], [Submit("A", TICKET, false), ARRIVES, CancelOrder("A")];
  }
}
