// The order manager's bounded duplicate memory against a longer one, over runs
// of every kind of call.
module OmsWindow {
  import opened Dedupe
  import opened Execution
  import opened Orders

  datatype Call =
    | Create(id: string, ticket: Ticket)
    | Transition(id: string, status: Status)
    | Deliver(fill: Fill)
    | Compact(unsealed: set<string>)

  // Only fills mark orders FILLED.
  predicate Permitted(call: Call) {
    call.Transition? ==> call.status != Filled
  }

  ghost function Called(m: Oms, call: Call): (r: Oms)
    requires OmsInv(m) && Permitted(call)
    ensures OmsInv(r)
  {
    match call
    case Create(id, ticket) => CreateInv(m, id, ticket); AfterCreate(m, id, ticket)
    case Transition(id, status) =>
      MoveInv(m, id, status);
      CounterKeeps(AfterMove(m, id, status), m.illegal + 1);
      AfterTransition(m, id, status)
    case Deliver(f) => FillInv(m, f); AfterFill(m, f)
    case Compact(unsealed) => CompactInv(m, unsealed); AfterCompact(m, unsealed)
  }

  lemma CounterKeeps(m: Oms, n: nat)
    requires OmsInv(m)
    ensures OmsInv(m.(illegal := n))
  {
    hide OrderInv;
  }

  // How the call ends.
  ghost function OutcomeOf(m: Oms, call: Call): (r: Outcome)
    requires OmsInv(m) && Permitted(call)
  {
    match call
    case Create(_, _) => Done
    case Transition(id, status) => MoveOutcome(m, id, status)
    case Deliver(f) => FillInv(m, f); FillOutcome(m, f)
    case Compact(_) => Done
  }

  ghost function AfterCalls(m: Oms, calls: seq<Call>): (r: Oms)
    requires OmsInv(m) && forall call :: call in calls ==> Permitted(call)
    ensures OmsInv(r)
    decreases |calls|
  {
    if calls == [] then m else AfterCalls(Called(m, calls[0]), calls[1..])
  }

  ghost function Outcomes(m: Oms, calls: seq<Call>): (r: seq<Outcome>)
    requires OmsInv(m) && forall call :: call in calls ==> Permitted(call)
    decreases |calls|
  {
    if calls == [] then [] else [OutcomeOf(m, calls[0])] + Outcomes(Called(m, calls[0]), calls[1..])
  }

  // `big` is the same manager with a longer memory.
  ghost predicate Twins(m: Oms, big: Oms) {
    m.(recent := big.recent, dedupeLimit := big.dedupeLimit) == big && m.recent == Window(big.recent, m.dedupeLimit)
  }

  // A delivery the longer memory would recognise and the shorter would not.
  predicate ComesLate(m: Oms, big: Oms, call: Call) {
    call.Deliver? && call.fill.fillId in big.recent && call.fill.fillId !in m.recent
  }

  // Every redelivery comes while its original is still remembered: within
  // `dedupeLimit` applied fills.
  ghost predicate InTime(m: Oms, big: Oms, calls: seq<Call>)
    requires OmsInv(m) && OmsInv(big) && forall call :: call in calls ==> Permitted(call)
    decreases |calls|
  {
    calls == [] ||
      (!ComesLate(m, big, calls[0]) && InTime(Called(m, calls[0]), Called(big, calls[0]), calls[1..]))
  }

  lemma TwinFill(m: Oms, big: Oms, f: Fill)
    requires OmsInv(m) && OmsInv(big) && Twins(m, big) && |big.recent| < big.dedupeLimit
    requires f.fillId in big.recent ==> f.fillId in m.recent
    ensures f.orderId in m.orders ==> m.orders[f.orderId].filled >= 0.0
    ensures Twins(AfterFill(m, f), AfterFill(big, f)) && FillOutcome(m, f) == FillOutcome(big, f)
    ensures |AfterFill(big, f).recent| <= |big.recent| + 1 && AfterFill(big, f).dedupeLimit == big.dedupeLimit
  {
    FillInv(m, f);
    TwinOutcome(m, big, f);
    hide OmsInv, FillOutcome, Booked, Recorded, Moves, Target, Moved;
    var outcome := FillOutcome(m, f);
    if outcome.Done? || outcome.IllegalMove? {
      BookedIsResident(m, f);
      var recorded := Recorded(m.orders[f.orderId], f);
      TwinBooked(m, big, f, recorded);
      TwinBooked(m, big, f, Moved(recorded, Target(recorded)));
    }
  }

  lemma TwinOutcome(m: Oms, big: Oms, f: Fill)
    requires Twins(m, big) && (f.orderId in m.orders ==> m.orders[f.orderId].filled >= 0.0)
    requires f.fillId in big.recent ==> f.fillId in m.recent
    ensures FillOutcome(m, f) == FillOutcome(big, f)
  {
    hide Recorded, Moves, Target, Transitions, Window;
    assert f.fillId in m.recent ==> f.fillId in big.recent;
  }

  lemma BookedIsResident(m: Oms, f: Fill)
    requires f.orderId in m.orders ==> m.orders[f.orderId].filled >= 0.0
    requires FillOutcome(m, f).Done? || FillOutcome(m, f).IllegalMove?
    ensures f.orderId in m.orders
  {
    hide Recorded, Moves, Target;
  }

  lemma TwinBooked(m: Oms, big: Oms, f: Fill, o: Order)
    requires Twins(m, big) && |big.recent| < big.dedupeLimit
    ensures var r := Booked(big, f, o);
      Twins(Booked(m, f, o), r) && |r.recent| <= |big.recent| + 1 && r.dedupeLimit == big.dedupeLimit
  {
    WindowSnoc(big.recent, m.dedupeLimit, f.fillId);
  }

  lemma TwinStep(m: Oms, big: Oms, call: Call)
    requires OmsInv(m) && OmsInv(big) && Twins(m, big) && |big.recent| < big.dedupeLimit
    requires Permitted(call) && !ComesLate(m, big, call)
    ensures Twins(Called(m, call), Called(big, call)) && OutcomeOf(m, call) == OutcomeOf(big, call)
    ensures |Called(big, call).recent| <= |big.recent| + 1 && Called(big, call).dedupeLimit == big.dedupeLimit
  {
    hide OmsInv, AfterFill, FillOutcome, Doomed, Absorbed, NewOrder, Moved;
    if call.Deliver? {
      TwinFill(m, big, call.fill);
    } else if call.Compact? {
      TwinCompact(m, big, call.unsealed);
    }
  }

  lemma TwinCompact(m: Oms, big: Oms, unsealed: set<string>)
    requires Twins(m, big)
    ensures Twins(AfterCompact(m, unsealed), AfterCompact(big, unsealed))
    ensures AfterCompact(big, unsealed).recent == big.recent && AfterCompact(big, unsealed).dedupeLimit == big.dedupeLimit
  {
    hide Absorbed;
    assert Doomed(m, unsealed) == Doomed(big, unsealed);
  }

  lemma {:induction false} TwinsRefine(m: Oms, big: Oms, calls: seq<Call>)
    requires OmsInv(m) && OmsInv(big) && Twins(m, big) && |big.recent| + |calls| <= big.dedupeLimit
    requires forall call :: call in calls ==> Permitted(call)
    ensures InTime(m, big, calls) <==> Outcomes(m, calls) == Outcomes(big, calls)
    ensures InTime(m, big, calls) ==> Twins(AfterCalls(m, calls), AfterCalls(big, calls))
    decreases |calls|
  {
    hide OmsInv, Called, OutcomeOf, Twins, ComesLate, Permitted;
    if calls != [] {
      var call := calls[0];
      assert call in calls;
      if ComesLate(m, big, call) {
        OutcomesDiffer(m, big, call);
        assert Outcomes(m, calls)[0] != Outcomes(big, calls)[0];
      } else {
        TwinStep(m, big, call);
        TwinsRefine(Called(m, call), Called(big, call), calls[1..]);
        HeadTail(OutcomeOf(m, call), Outcomes(Called(m, call), calls[1..]), Outcomes(Called(big, call), calls[1..]));
      }
    }
  }

  // A late redelivery is a duplicate to the one and never to the other.
  lemma OutcomesDiffer(m: Oms, big: Oms, call: Call)
    requires OmsInv(m) && OmsInv(big) && Permitted(call) && ComesLate(m, big, call)
    ensures OutcomeOf(m, call) != OutcomeOf(big, call)
  {
    FillInv(m, call.fill);
    FillInv(big, call.fill);
  }

  lemma HeadTail(x: Outcome, a: seq<Outcome>, b: seq<Outcome>)
    ensures [x] + a == [x] + b <==> a == b
  {
    assert ([x] + a)[1..] == a && ([x] + b)[1..] == b;
  }

  lemma EmptyTwins(limit: nat, memory: nat)
    ensures OmsInv(NewOms(limit)) && OmsInv(NewOms(memory)) && Twins(NewOms(limit), NewOms(memory))
  {
  }

  // Over any run of creations, transitions, deliveries and compactions from an
  // empty manager, the bounded memory is as good as one that forgets nothing
  // exactly when redeliveries come in time: then every call ends the same way,
  // and the two managers hold the same orders, archive and counts.
  lemma BoundedOmsRefines(limit: nat, calls: seq<Call>)
    requires forall call :: call in calls ==> Permitted(call)
    ensures OmsInv(NewOms(limit)) && OmsInv(NewOms(|calls|))
    ensures InTime(NewOms(limit), NewOms(|calls|), calls) <==>
      Outcomes(NewOms(limit), calls) == Outcomes(NewOms(|calls|), calls)
    ensures InTime(NewOms(limit), NewOms(|calls|), calls) ==>
      Twins(AfterCalls(NewOms(limit), calls), AfterCalls(NewOms(|calls|), calls))
  {
    hide OmsInv, Twins, InTime, Outcomes, AfterCalls;
    EmptyTwins(limit, |calls|);
    TwinsRefine(NewOms(limit), NewOms(|calls|), calls);
  }
}
